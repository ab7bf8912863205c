/**
 The role and membership operations as the services perform them, row by row, each against its
 meaning in `Rbac`; and what their invariant gives the relationship model.
 */
module RbacService {
  import opened Wrappers
  import opened Rbac
  import F = Fga

  function ErrorOf(o: Outcome): Option<Error> {
    if o.Done? then None else Some(o.error)
  }

  lemma {:induction false} AttachAllStops(s: Rows, m: int, keys: seq<string>, i: nat)
    requires m in s.members && i <= |keys| && AttachAll(s, m, keys[..i]).Refused?
    ensures AttachAll(s, m, keys) == AttachAll(s, m, keys[..i])
    decreases |keys|
  {
    if i < |keys| {
      assert keys[..|keys| - 1][..i] == keys[..i];
      AttachAllStops(s, m, keys[..|keys| - 1], i);
    } else {
      assert keys[..i] == keys;
    }
  }

  class Services {
    const w: Seeds
    var roles: map<int, Role>
    var members: map<int, Membership>
    var held: set<(int, int)>
    var seats: map<int, nat>
    var owners: map<int, int>

    constructor (w: Seeds, s: Rows)
      ensures this.w == w && State() == s
    {
      this.w := w;
      roles, members, held, seats, owners := s.roles, s.members, s.held, s.seats, s.owners;
    }

    function State(): Rows reads this { Rows(roles, members, held, seats, owners) }

    ghost predicate Sound() reads this { Rbac.Sound(w, State()) }

    /** What the request's transaction does when an operation raises. */
    method Rollback(s: Rows)
      modifies this
      ensures State() == s
    {
      roles, members, held, seats, owners := s.roles, s.members, s.held, s.seats, s.owners;
    }

    method SyncSeatGauge(org: int)
      modifies this`seats
      ensures State() == SyncSeats(old(State()), org)
    {
      seats := seats[org := |Seated(State(), org)|];
    }

    /** Recompute the permission list of every holder, one after the other. */
    method RefreshMemberships(holders: set<int>)
      requires holders <= members.Keys
      modifies this`members
      ensures State() == old(State()).(members := Recomputed(old(State()), holders))
    {
      var rest := holders;
      while rest != {}
        invariant rest <= holders
        invariant members == Recomputed(old(State()), holders - rest)
        decreases rest
      {
        EmptyWithout(rest);
        var m :| m in rest;
        assert Joined(State(), m) == Joined(old(State()), m);
        members := members[m := members[m].(keys := Joined(State(), m))];
        rest := rest - {m};
      }
    }

    method CreateCustomRole(id: int, org: int, key: string, permissions: set<string>) returns (e: Option<Error>)
      requires Sound() && FreshIds(State(), OpCreate(id, org, key, permissions))
      modifies this
      ensures Sound() && State() == Next(w, old(State()), OpCreate(id, org, key, permissions))
      ensures e == ErrorOf(Create(w, old(State()), id, org, key, permissions))
      ensures e.None? ==> roles == old(roles)[id := Role(Some(org), key, false, permissions)] && members == old(members) && held == old(held)
    {
      StepKeepsSound(w, State(), OpCreate(id, org, key, permissions));
      if !(permissions <= w.catalog) { return Some(UnknownPermissions); }
      if exists r :: r in roles && roles[r].org == Some(org) && roles[r].key == key { return Some(KeyTaken); }
      InsertRole(id, org, key, permissions);
      e := None;
    }

    method InsertRole(id: int, org: int, key: string, permissions: set<string>)
      requires forall h | h in held :: h.1 != id
      modifies this`roles, this`members
      ensures State() == old(State()).(roles := old(roles)[id := Role(Some(org), key, false, permissions)])
    {
      roles := roles[id := Role(Some(org), key, false, {})];
      roles := roles[id := roles[id].(permissions := permissions)];
      assert forall m: int :: (m, id).1 == id;
      RefreshMemberships(Holders(State(), id));
      assert members == old(members);
    }

    method UpdateCustomRole(r: int, org: int, permissions: set<string>) returns (e: Option<Error>)
      requires Sound()
      modifies this
      ensures Sound() && State() == Next(w, old(State()), OpUpdate(r, org, permissions))
      ensures e == ErrorOf(Update(w, old(State()), r, org, permissions))
      ensures e.None? <==> OwnRole(old(State()), r, org) && permissions <= w.catalog
      ensures e.None? ==> roles == old(roles)[r := old(roles)[r].(permissions := permissions)] && held == old(held)
      ensures forall m | m in old(members) && (m, r) !in old(held) :: m in members && members[m] == old(members)[m]
      ensures e.None? ==> forall m, p | m in old(members) && (m, r) in old(held) ::
                m in members && (p in members[m].keys <==> p in permissions || GivenBesides(old(State()), m, r, p))
    {
      StepKeepsSound(w, State(), OpUpdate(r, org, permissions));
      EditGoesThroughIff(w, State(), r, org, permissions);
      if OwnRole(State(), r, org) && permissions <= w.catalog { UpdateIsExact(w, State(), r, org, permissions); }
      e := Scoped(State(), r, org);
      if e.Some? { return; }
      if !(permissions <= w.catalog) { return Some(UnknownPermissions); }
      var holders := Holders(State(), r);
      roles := roles[r := roles[r].(permissions := permissions)];
      RefreshMemberships(holders);
    }

    method DeleteCustomRole(r: int, org: int) returns (e: Option<Error>)
      requires Sound()
      modifies this
      ensures Sound() && State() == Next(w, old(State()), OpDelete(r, org))
      ensures e == ErrorOf(Delete(old(State()), r, org))
      ensures e.None? <==> OwnRole(old(State()), r, org)
      ensures e.None? ==> roles == old(roles) - {r} && forall h :: h in held <==> h in old(held) && h.1 != r
      ensures forall m | m in old(members) && (m, r) !in old(held) :: m in members && members[m] == old(members)[m]
      ensures e.None? ==> forall m, p | m in old(members) && (m, r) in old(held) ::
                m in members && (p in members[m].keys <==> GivenBesides(old(State()), m, r, p))
    {
      StepKeepsSound(w, State(), OpDelete(r, org));
      EditGoesThroughIff(w, State(), r, org, {});
      if OwnRole(State(), r, org) { DeleteIsExact(w, State(), r, org); }
      e := Scoped(State(), r, org);
      if e.Some? { return; }
      var holders := Holders(State(), r);
      held := set h | h in held && h.1 != r;
      roles := roles - {r};
      RefreshMemberships(holders);
    }

    method AttachRole(m: int, key: string) returns (e: Option<Error>)
      requires m in members
      modifies this
      ensures e == ErrorOf(Attach(old(State()), m, key))
      ensures State() == if e.None? then Attach(old(State()), m, key).rows else old(State())
    {
      var hits := Matching(roles, members[m].org, key);
      if |hits| == 0 { return Some(RoleNotFound); }
      if |hits| > 1 { return Some(AmbiguousRole); }
      EmptyWithout(hits);
      var r :| r in hits;
      assert hits == {r} by { assert hits == {TheOnly(hits)}; }
      if (m, r) in held { return Some(AlreadyHeld); }
      held := held + {(m, r)};
      members := members[m := members[m].(keys := members[m].keys + roles[r].permissions)];
      e := None;
    }

    method AssignRole(m: int, key: string) returns (e: Option<Error>)
      requires Sound()
      modifies this
      ensures Sound() && State() == Next(w, old(State()), OpAssign(m, key))
      ensures e == ErrorOf(Assign(old(State()), m, key))
    {
      StepKeepsSound(w, State(), OpAssign(m, key));
      if m !in members { return Some(NotAMember); }
      e := AttachRole(m, key);
    }

    /** Attach in order; stops at the first refusal, leaving the rest to the rollback. */
    method AttachRoles(m: int, keys: seq<string>) returns (e: Option<Error>)
      requires m in members
      modifies this
      ensures e == ErrorOf(AttachAll(old(State()), m, keys))
      ensures e.None? ==> State() == AttachAll(old(State()), m, keys).rows
    {
      var i := 0;
      while i < |keys|
        invariant 0 <= i <= |keys| && m in members
        invariant AttachAll(old(State()), m, keys[..i]) == Done(State())
      {
        assert keys[..i + 1][..i] == keys[..i] && keys[..i + 1][i] == keys[i];
        e := AttachRole(m, keys[i]);
        if e.Some? {
          AttachAllStops(old(State()), m, keys, i + 1);
          return;
        }
        i := i + 1;
      }
      assert keys[..i] == keys;
      e := None;
    }

    method UpdateMembership(m: int, keys: Option<seq<string>>, status: Option<Status>) returns (e: Option<Error>)
      requires Sound() && FreshIds(State(), OpChange(m, keys, status))
      modifies this
      ensures Sound() && State() == Next(w, old(State()), OpChange(m, keys, status))
      ensures e == ErrorOf(Change(old(State()), m, keys, status))
    {
      StepKeepsSound(w, State(), OpChange(m, keys, status));
      var before := State();
      if m !in members { return Some(NotAMember); }
      e := None;
      if keys.Some? {
        held := set h | h in held && h.0 != m;
        members := members[m := members[m].(keys := {})];
        assert State() == Cleared(before, m);
        e := AttachRoles(m, keys.value);
        if e.Some? {
          Rollback(before);
          return;
        }
      }
      if status.Some? && status.value != members[m].status {
        members := members[m := members[m].(status := status.value)];
        SyncSeatGauge(members[m].org);
      }
    }

    /** Active members and pending invites both take a seat. */
    method IsFull(org: int, limit: Option<nat>) returns (full: bool)
      ensures full <==> limit.Some? && |Seated(State(), org)| + 1 > limit.value
    {
      var active := |set m | m in members && members[m].org == org && members[m].status == Active|;
      var pending := |set m | m in members && members[m].org == org && members[m].status == Invited|;
      SeatsAddUp(State(), org);
      full := limit.Some? && active + pending + 1 > limit.value;
    }

    method InviteMember(id: int, org: int, email: string, keys: seq<string>, limit: Option<nat>) returns (e: Option<Error>)
      requires Sound() && FreshIds(State(), OpInvite(id, org, email, keys, limit))
      modifies this
      ensures Sound() && State() == Next(w, old(State()), OpInvite(id, org, email, keys, limit))
      ensures e == ErrorOf(Invite(old(State()), id, org, email, keys, limit))
    {
      StepKeepsSound(w, State(), OpInvite(id, org, email, keys, limit));
      var before := State();
      if exists m :: m in members && members[m].org == org && members[m].email == Some(email) { return Some(AlreadyInvited); }
      var full := IsFull(org, limit);
      if full { return Some(SeatLimit); }
      members := members[id := Membership(org, Some(email), None, Invited, {})];
      e := AttachRoles(id, if keys == [] then DEFAULT_ROLES else keys);
      if e.Some? {
        Rollback(before);
        return;
      }
      SyncSeatGauge(org);
    }

    method AcceptInvite(m: int, user: Option<int>) returns (e: Option<Error>)
      requires Sound()
      modifies this
      ensures Sound() && State() == Next(w, old(State()), OpAccept(m, user))
      ensures e == ErrorOf(Accept(old(State()), m, user))
    {
      StepKeepsSound(w, State(), OpAccept(m, user));
      if m !in members || members[m].status != Invited { return Some(InviteNotFound); }
      var org := members[m].org;
      assert members[m].user == None;
      if user.Some? {
        if exists n :: n in members && n != m && members[n].org == org && members[n].user == user { return Some(AlreadyMember); }
        members := members[m := members[m].(user := user)];
      }
      members := members[m := members[m].(status := Active)];
      ghost var user' := if user.Some? then user else old(members)[m].user;
      assert members == old(members)[m := old(members)[m].(status := Active, user := user')];
      SyncSeatGauge(org);
      e := None;
    }

    method RemoveMember(m: int) returns (e: Option<Error>)
      requires Sound()
      modifies this
      ensures Sound() && State() == Next(w, old(State()), OpRemove(m))
      ensures e == ErrorOf(Remove(old(State()), m))
      ensures e == Some(OwnerStays) <==> m in old(members) && old(members)[m].user == Some(old(owners)[old(members)[m].org])
    {
      StepKeepsSound(w, State(), OpRemove(m));
      if m !in members { return Some(NotAMember); }
      var org := members[m].org;
      if members[m].user == Some(owners[org]) { return Some(OwnerStays); }
      held := set h | h in held && h.0 != m;
      members := members - {m};
      SyncSeatGauge(org);
      e := None;
    }

    method CreateOrganization(id: int, org: int, owner: int) returns (e: Option<Error>)
      requires Sound() && FreshIds(State(), OpFound(id, org, owner))
      modifies this
      ensures Sound() && State() == Next(w, old(State()), OpFound(id, org, owner))
      ensures e == ErrorOf(Found(w, old(State()), id, org, owner))
    {
      StepKeepsSound(w, State(), OpFound(id, org, owner));
      if org in owners || "owner" !in w.system { return Some(OrgTaken); }
      InsertOrganization(id, org, owner, w.system["owner"]);
      e := None;
    }

    method InsertOrganization(id: int, org: int, owner: int, r: int)
      requires r in roles && id !in members
      modifies this
      ensures State() == SyncSeats(
        Rows(old(roles), old(members)[id := Membership(org, None, Some(owner), Active, old(roles)[r].permissions)],
             old(held) + {(id, r)}, old(seats), old(owners)[org := owner]), org)
    {
      owners := owners[org := owner];
      members := members[id := Membership(org, None, Some(owner), Active, {})];
      SyncSeatGauge(org);
      ghost var seated := State();
      held := held + {(id, r)};
      members := members[id := members[id].(keys := roles[r].permissions)];
      SeatedFrame(seated.(seats := old(seats)), State().(seats := old(seats)));
      assert members == old(members)[id := Membership(org, None, Some(owner), Active, old(roles)[r].permissions)];
    }
  }

  lemma SeatsAddUp(s: Rows, org: int)
    ensures |Seated(s, org)| == |set m | m in s.members && s.members[m].org == org && s.members[m].status == Active|
                                + |set m | m in s.members && s.members[m].org == org && s.members[m].status == Invited|
  {
    var active := set m | m in s.members && s.members[m].org == org && s.members[m].status == Active;
    var pending := set m | m in s.members && s.members[m].org == org && s.members[m].status == Invited;
    assert Seated(s, org) == active + pending && active !! pending;
  }

  // ---------------------------------------------------------------- the relationship model agrees

  /** The catalog the model is generated from is the one the rows were seeded with. */
  ghost predicate SameCatalog(w: Seeds, s: Rows, c: F.Catalog) {
    && F.WellFormed(c) && w.catalog == (set p | p in c.permissions)
    && (forall k :: k in c.order <==> k in w.system)
    && (forall k | k in w.system :: w.system[k] in s.roles && s.roles[w.system[k]].permissions == c.roles[k])
  }

  /** `keys` lists the keys of the roles `m` holds. */
  ghost predicate RoleKeysOf(s: Rows, m: int, keys: seq<string>) {
    forall k :: k in keys <==> exists r :: r in s.roles && (m, r) in s.held && s.roles[r].key == k
  }

  lemma SystemRolesCovered(w: Seeds, s: Rows, c: F.Catalog, m: int, keys: seq<string>)
    requires Sound(w, s) && SameCatalog(w, s, c) && m in s.members && RoleKeysOf(s, m, keys)
    ensures F.Covered(c, keys) <= s.members[m].keys
  {
    forall p | p in F.Covered(c, keys) ensures p in Joined(s, m) {
      var k :| k in keys && k in c.order && k in c.roles && p in c.roles[k];
      var r :| r in s.roles && (m, r) in s.held && s.roles[r].key == k;
      assert w.system[k] == r;
    }
  }

  /** In every reachable state and for every active member whose tuples are in the store, the
      generated model allows exactly the permissions the member's roles give. */
  lemma ModelAgreesWithRoles(w: Seeds, s: Rows, c: F.Catalog, model: F.Model, store: set<F.Tuple>, m: int, user: F.Object, org: F.Object,
                             roleKeys: seq<string>, permissionKeys: seq<string>, p: string)
    requires Sound(w, s) && SameCatalog(w, s, c) && m in s.members && RoleKeysOf(s, m, roleKeys)
    requires F.Projects(model, c) && org.kind == F.Organization && p in c.permissions
    requires s.members[m].keys == set q | q in permissionKeys
    requires F.Mine(store, user, org) == F.Desired(c, user, org, roleKeys, permissionKeys)
    ensures F.Check(model, store, user, F.RelationFor(p), org)
            <==> exists r :: r in s.roles && (m, r) in s.held && p in s.roles[r].permissions
  {
    SystemRolesCovered(w, s, c, m, roleKeys);
    forall q | q in permissionKeys ensures q in c.permissions {
      assert q in Joined(s, m);
    }
    F.TranslationMeaning(model, c, store, user, org, roleKeys, permissionKeys, p);
    assert p in permissionKeys <==> p in Joined(s, m);
  }
}
