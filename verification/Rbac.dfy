/**
 Roles, memberships and the permission list each membership carries: a copy of a join that every
 operation has to keep equal to the join. Each operation is one transaction; a refusal anywhere in
 it rolls all of it back.
 */
module Rbac {
  import opened Wrappers

  /** A role row; `org` is absent on the seeded system roles. */
  datatype Role = Role(org: Option<int>, key: string, system: bool, permissions: set<string>)

  datatype Status = Invited | Active | Suspended

  datatype Membership = Membership(org: int, email: Option<string>, user: Option<int>, status: Status, keys: set<string>)

  /** `held` holds (membership, role) rows; `seats` is the users gauge; `owners` the organizations. */
  datatype Rows = Rows(
    roles: map<int, Role>, members: map<int, Membership>, held: set<(int, int)>, seats: map<int, nat>, owners: map<int, int>)

  /** What is fixed during a run: the permission catalog and which row is which system role. */
  datatype Seeds = Seeds(catalog: set<string>, system: map<string, int>)

  datatype Error =
    | UnknownPermissions | KeyTaken | RoleNotFound | AmbiguousRole | AlreadyHeld | SystemRoleImmutable
    | AlreadyInvited | SeatLimit | InviteNotFound | AlreadyMember | NotAMember | OwnerStays | OrgTaken

  datatype Outcome = Done(rows: Rows) | Refused(error: Error)

  // ---------------------------------------------------------------- the operations

  /** The join the permission list copies. */
  function Joined(s: Rows, m: int): set<string> {
    set r, p | r in s.roles && (m, r) in s.held && p in s.roles[r].permissions :: p
  }

  function Recomputed(s: Rows, holders: set<int>): map<int, Membership> {
    map m | m in s.members :: if m in holders then s.members[m].(keys := Joined(s, m)) else s.members[m]
  }

  function Holders(s: Rows, r: int): set<int> {
    set m | m in s.members && (m, r) in s.held
  }

  function Matching(roles: map<int, Role>, org: int, key: string): set<int> {
    set r | r in roles && roles[r].key == key && (roles[r].org == Some(org) || roles[r].org == None)
  }

  lemma EmptyWithout(s: set<int>)
    ensures (forall r :: r !in s) ==> |s| == 0
  {
    if forall r :: r !in s { assert s == {}; }
  }

  ghost function TheOnly(s: set<int>): (r: int)
    requires |s| == 1
    ensures s == {r}
  {
    EmptyWithout(s);
    var r :| r in s;
    assert |s - {r}| == 0;
    r
  }

  ghost function Create(w: Seeds, s: Rows, id: int, org: int, key: string, permissions: set<string>): Outcome {
    if !(permissions <= w.catalog) then Refused(UnknownPermissions)
    else if exists r :: r in s.roles && s.roles[r].org == Some(org) && s.roles[r].key == key then Refused(KeyTaken)
    else Done(s.(roles := s.roles[id := Role(Some(org), key, false, permissions)]))
  }

  function Scoped(s: Rows, r: int, org: int): Option<Error> {
    if r !in s.roles || s.roles[r].org != Some(org) then Some(RoleNotFound)
    else if s.roles[r].system then Some(SystemRoleImmutable)
    else None
  }

  function Update(w: Seeds, s: Rows, r: int, org: int, permissions: set<string>): Outcome {
    match Scoped(s, r, org)
    case Some(e) => Refused(e)
    case None =>
      if !(permissions <= w.catalog) then Refused(UnknownPermissions)
      else
        var s1 := s.(roles := s.roles[r := s.roles[r].(permissions := permissions)]);
        Done(s1.(members := Recomputed(s1, Holders(s, r))))
  }

  function Delete(s: Rows, r: int, org: int): Outcome {
    match Scoped(s, r, org)
    case Some(e) => Refused(e)
    case None =>
      var s1 := s.(roles := s.roles - {r}, held := set h | h in s.held && h.1 != r);
      Done(s1.(members := Recomputed(s1, Holders(s, r))))
  }

  ghost function Attach(s: Rows, m: int, key: string): (o: Outcome)
    requires m in s.members
    ensures o.Done? ==> o.rows.members.Keys == s.members.Keys
  {
    var mem := s.members[m];
    var hits := Matching(s.roles, mem.org, key);
    if |hits| == 0 then Refused(RoleNotFound)
    else if |hits| > 1 then Refused(AmbiguousRole)
    else
      var r := TheOnly(hits);
      if (m, r) in s.held then Refused(AlreadyHeld)
      else Done(s.(members := s.members[m := mem.(keys := mem.keys + s.roles[r].permissions)], held := s.held + {(m, r)}))
  }

  ghost function AttachAll(s: Rows, m: int, keys: seq<string>): (o: Outcome)
    requires m in s.members
    ensures o.Done? ==> o.rows.members.Keys == s.members.Keys
    decreases |keys|
  {
    if keys == [] then Done(s)
    else match AttachAll(s, m, keys[..|keys| - 1])
         case Refused(e) => Refused(e)
         case Done(s1) => Attach(s1, m, keys[|keys| - 1])
  }

  ghost function Assign(s: Rows, m: int, key: string): Outcome {
    if m !in s.members then Refused(NotAMember) else Attach(s, m, key)
  }

  function Cleared(s: Rows, m: int): Rows
    requires m in s.members
  {
    s.(members := s.members[m := s.members[m].(keys := {})], held := set h | h in s.held && h.0 != m)
  }

  predicate Sits(s: Rows, m: int, org: int) {
    m in s.members && s.members[m].org == org && !s.members[m].status.Suspended?
  }

  function Seated(s: Rows, org: int): set<int> {
    set m | m in s.members && Sits(s, m, org)
  }

  function SyncSeats(s: Rows, org: int): Rows {
    s.(seats := s.seats[org := |Seated(s, org)|])
  }

  function SetStatus(s: Rows, m: int, status: Status): Rows
    requires m in s.members
  {
    if s.members[m].status == status then s
    else SyncSeats(s.(members := s.members[m := s.members[m].(status := status)]), s.members[m].org)
  }

  /** Replace the roles when given, then the status when given. */
  ghost function Change(s: Rows, m: int, keys: Option<seq<string>>, status: Option<Status>): Outcome {
    if m !in s.members then Refused(NotAMember)
    else
      var o := if keys.Some? then AttachAll(Cleared(s, m), m, keys.value) else Done(s);
      if o.Done? && status.Some? then Done(SetStatus(o.rows, m, status.value)) else o
  }

  const DEFAULT_ROLES: seq<string> := ["member"]

  ghost function Invite(s: Rows, id: int, org: int, email: string, keys: seq<string>, limit: Option<nat>): Outcome {
    if exists m :: m in s.members && s.members[m].org == org && s.members[m].email == Some(email) then Refused(AlreadyInvited)
    else if limit.Some? && |Seated(s, org)| + 1 > limit.value then Refused(SeatLimit)
    else
      var s1 := s.(members := s.members[id := Membership(org, Some(email), None, Invited, {})]);
      var o := AttachAll(s1, id, if keys == [] then DEFAULT_ROLES else keys);
      if o.Done? then Done(SyncSeats(o.rows, org)) else o
  }

  /** `user` is the account the invite is linked to, absent when none exists yet. */
  ghost function Accept(s: Rows, m: int, user: Option<int>): Outcome {
    if m !in s.members || !s.members[m].status.Invited? then Refused(InviteNotFound)
    else if user.Some? && exists n :: n in s.members && n != m && s.members[n].org == s.members[m].org && s.members[n].user == user
    then Refused(AlreadyMember)
    else
      var joined := s.members[m].(status := Active, user := if user.Some? then user else s.members[m].user);
      Done(SyncSeats(s.(members := s.members[m := joined]), joined.org))
  }

  function Remove(s: Rows, m: int): Outcome {
    if m !in s.members then Refused(NotAMember)
    else
      var mem := s.members[m];
      if mem.org in s.owners && mem.user == Some(s.owners[mem.org]) then Refused(OwnerStays)
      else Done(SyncSeats(s.(members := s.members - {m}, held := set h | h in s.held && h.0 != m), mem.org))
  }

  function Found(w: Seeds, s: Rows, id: int, org: int, owner: int): Outcome {
    if org in s.owners || "owner" !in w.system || w.system["owner"] !in s.roles then Refused(OrgTaken)
    else
      var r := w.system["owner"];
      Done(SyncSeats(Rows(s.roles, s.members[id := Membership(org, None, Some(owner), Active, s.roles[r].permissions)],
                          s.held + {(id, r)}, s.seats, s.owners[org := owner]), org))
  }

  // ---------------------------------------------------------------- runs

  /** Row ids in an operation are the fresh ones the database hands out. */
  datatype Op =
    | OpFound(id: int, org: int, owner: int)
    | OpCreate(id: int, org: int, key: string, permissions: set<string>)
    | OpUpdate(role: int, org: int, permissions: set<string>)
    | OpDelete(role: int, org: int)
    | OpAssign(member: int, key: string)
    | OpChange(member: int, keys: Option<seq<string>>, status: Option<Status>)
    | OpInvite(id: int, org: int, email: string, invited: seq<string>, limit: Option<nat>)
    | OpAccept(member: int, user: Option<int>)
    | OpRemove(member: int)

  ghost function Do(w: Seeds, s: Rows, op: Op): Outcome {
    match op
    case OpFound(id, org, owner) => Found(w, s, id, org, owner)
    case OpCreate(id, org, key, permissions) => Create(w, s, id, org, key, permissions)
    case OpUpdate(r, org, permissions) => Update(w, s, r, org, permissions)
    case OpDelete(r, org) => Delete(s, r, org)
    case OpAssign(m, key) => Assign(s, m, key)
    case OpChange(m, keys, status) => Change(s, m, keys, status)
    case OpInvite(id, org, email, keys, limit) => Invite(s, id, org, email, keys, limit)
    case OpAccept(m, user) => Accept(s, m, user)
    case OpRemove(m) => Remove(s, m)
  }

  /** The rows an operation leaves: a refused one leaves what it found. */
  ghost function Next(w: Seeds, s: Rows, op: Op): Rows {
    var o := Do(w, s, op);
    if o.Done? then o.rows else s
  }

  ghost predicate FreshIds(s: Rows, op: Op) {
    && (op.OpFound? || op.OpInvite? ==> op.id !in s.members && forall h | h in s.held :: h.0 != op.id)
    && (op.OpCreate? ==> op.id !in s.roles && forall h | h in s.held :: h.1 != op.id)
    && (op.OpInvite? ==> op.org in s.owners)
    && (op.OpChange? && op.status.Some? ==> !op.status.value.Invited?)
  }

  ghost predicate Run(w: Seeds, s: Rows, ops: seq<Op>)
    decreases |ops|
  {
    ops == [] || (FreshIds(s, ops[0]) && Run(w, Next(w, s, ops[0]), ops[1..]))
  }

  ghost function After(w: Seeds, s: Rows, ops: seq<Op>): Rows
    decreases |ops|
  {
    if ops == [] then s else After(w, Next(w, s, ops[0]), ops[1..])
  }

  // ---------------------------------------------------------------- what every run keeps

  /** Exactly the seeded roles belong to no organization. */
  ghost predicate Seeded(w: Seeds, s: Rows) {
    && (forall k | k in w.system :: w.system[k] in s.roles && s.roles[w.system[k]].key == k && s.roles[w.system[k]].org == None)
    && (forall r | r in s.roles && s.roles[r].org == None :: s.roles[r].key in w.system && w.system[s.roles[r].key] == r)
    && (forall r | r in s.roles :: s.roles[r].system <==> s.roles[r].org == None)
    && (forall r | r in s.roles :: s.roles[r].permissions <= w.catalog)
  }

  /** What is held exists, is the member's organization's or a system role, and carries a system key
      only when it is the system role. */
  ghost predicate Honest(w: Seeds, s: Rows) {
    forall h | h in s.held ::
      && h.0 in s.members && h.1 in s.roles
      && (s.roles[h.1].org == None || s.roles[h.1].org == Some(s.members[h.0].org))
      && (s.roles[h.1].key in w.system ==> w.system[s.roles[h.1].key] == h.1)
  }

  /** The permission list is the join. */
  ghost predicate Coherent(s: Rows) {
    forall m | m in s.members :: s.members[m].keys == Joined(s, m)
  }

  ghost predicate Unique(s: Rows) {
    && (forall r, q | r in s.roles && q in s.roles && s.roles[r].org == s.roles[q].org && s.roles[r].key == s.roles[q].key :: r == q)
    && (forall m, n | m in s.members && n in s.members && m != n && s.members[m].org == s.members[n].org ::
          && (s.members[m].user.Some? ==> s.members[m].user != s.members[n].user)
          && (s.members[m].email.Some? ==> s.members[m].email != s.members[n].email))
  }

  ghost predicate Owned(s: Rows) {
    && (forall m | m in s.members :: s.members[m].org in s.owners && (s.members[m].status.Invited? ==> s.members[m].user == None))
    && (forall org | org in s.owners :: HasOwner(s, org))
  }

  ghost predicate HasOwner(s: Rows, org: int)
    requires org in s.owners
  {
    exists m :: m in s.members && s.members[m].org == org && s.members[m].user == Some(s.owners[org])
  }

  ghost predicate Gauged(s: Rows) {
    forall org | org in s.owners :: org in s.seats && s.seats[org] == |Seated(s, org)|
  }

  ghost predicate Sound(w: Seeds, s: Rows) {
    Seeded(w, s) && Honest(w, s) && Coherent(s) && Unique(s) && Owned(s) && Gauged(s)
  }

  // ---------------------------------------------------------------- frames

  lemma JoinedFrame(s: Rows, s': Rows, m: int)
    requires forall r :: (m, r) in s.held && r in s.roles <==> (m, r) in s'.held && r in s'.roles
    requires forall r | (m, r) in s.held && r in s.roles :: s'.roles[r].permissions == s.roles[r].permissions
    ensures Joined(s', m) == Joined(s, m)
  {
    forall p | p in Joined(s, m) ensures p in Joined(s', m) {
      var r :| r in s.roles && (m, r) in s.held && p in s.roles[r].permissions;
      assert r in s'.roles && (m, r) in s'.held && p in s'.roles[r].permissions;
    }
    forall p | p in Joined(s', m) ensures p in Joined(s, m) {
      var r :| r in s'.roles && (m, r) in s'.held && p in s'.roles[r].permissions;
      assert r in s.roles && (m, r) in s.held && p in s.roles[r].permissions;
    }
  }

  lemma SeatedFrame(s: Rows, s': Rows)
    requires forall m, org :: Sits(s, m, org) <==> Sits(s', m, org)
    ensures forall org :: Seated(s', org) == Seated(s, org)
  {
    forall org ensures Seated(s', org) == Seated(s, org) {
      forall m ensures m in Seated(s', org) <==> m in Seated(s, org) { assert Sits(s, m, org) <==> Sits(s', m, org); }
    }
  }

  /** Setting one organization's gauge again after only `m`, a member of it, moved. */
  lemma SyncKeepsGauges(s: Rows, s': Rows, m: int, org: int)
    requires forall n | n != m :: (n in s'.members <==> n in s.members) && (n in s.members ==> s'.members[n] == s.members[n])
    requires (m in s.members ==> s.members[m].org == org) && (m in s'.members ==> s'.members[m].org == org)
    requires Gauged(s) && s'.seats == s.seats && s'.owners.Keys <= s.owners.Keys + {org}
    ensures Gauged(SyncSeats(s', org))
  {
    var t := SyncSeats(s', org);
    forall o | o in t.owners ensures o in t.seats && t.seats[o] == |Seated(t, o)| {
      assert Seated(t, o) == Seated(s', o);
      if o != org {
        forall n ensures n in Seated(s', o) <==> n in Seated(s, o) {}
        assert Seated(s', o) == Seated(s, o);
      }
    }
  }

  lemma OwnersFrame(s: Rows, s': Rows, org: int)
    requires org in s.owners && org in s'.owners && s'.owners[org] == s.owners[org] && HasOwner(s, org)
    requires forall m | m in s.members && s.members[m].org == org && s.members[m].user == Some(s.owners[org]) ::
               m in s'.members && s'.members[m].org == org && s'.members[m].user == s.members[m].user
    ensures HasOwner(s', org)
  {
    var m :| m in s.members && s.members[m].org == org && s.members[m].user == Some(s.owners[org]);
    assert m in s'.members;
  }

  /** Only the permission lists of members changed. */
  ghost predicate OnlyKeys(s: Rows, s': Rows) {
    && s'.seats == s.seats && s'.owners == s.owners && s'.members.Keys == s.members.Keys
    && (forall n | n in s.members :: s'.members[n] == s.members[n].(keys := s'.members[n].keys))
  }

  lemma OnlyKeysKeeps(s: Rows, s': Rows)
    requires OnlyKeys(s, s')
    ensures Owned(s) ==> Owned(s')
    ensures Gauged(s) ==> Gauged(s')
    ensures Unique(s) && (forall r | r in s'.roles :: r in s.roles && s'.roles[r].org == s.roles[r].org && s'.roles[r].key == s.roles[r].key) ==> Unique(s')
  {
    SeatedFrame(s, s');
    if Owned(s) {
      forall org | org in s'.owners ensures HasOwner(s', org) { OwnersFrame(s, s', org); }
    }
  }

  lemma HonestFrame(w: Seeds, s: Rows, s': Rows)
    requires s'.roles == s.roles && s'.held == s.held
    requires s.members.Keys <= s'.members.Keys && forall m | m in s.members :: s'.members[m].org == s.members[m].org
    ensures Seeded(w, s) ==> Seeded(w, s')
    ensures Honest(w, s) ==> Honest(w, s')
  {
    if Honest(w, s) {
      forall h: (int, int) | h in s'.held ensures h.0 in s'.members && s'.members[h.0].org == s.members[h.0].org {
        var m := h.0;
        assert m in s.members;
      }
    }
  }

  lemma CoherentFrame(s: Rows, s': Rows)
    requires s'.roles == s.roles && s'.held == s.held
    requires forall m | m in s'.members :: m in s.members && s'.members[m].keys == s.members[m].keys
    ensures Coherent(s) ==> Coherent(s')
  {
    forall m | m in s'.members ensures Joined(s', m) == Joined(s, m) { JoinedFrame(s, s', m); }
  }

  lemma UniqueFrame(s: Rows, s': Rows)
    requires s'.roles == s.roles && s'.members.Keys <= s.members.Keys
    requires forall m | m in s'.members ::
               s'.members[m].org == s.members[m].org && s'.members[m].user == s.members[m].user && s'.members[m].email == s.members[m].email
    ensures Unique(s) ==> Unique(s')
  {
  }

  lemma OwnedFrame(s: Rows, s': Rows)
    requires s'.owners == s.owners && s'.members.Keys == s.members.Keys
    requires forall m | m in s.members :: s'.members[m].org == s.members[m].org && s'.members[m].user == s.members[m].user
    requires forall m | m in s.members :: s'.members[m].status.Invited? ==> s.members[m].status.Invited?
    ensures Owned(s) ==> Owned(s')
  {
    if Owned(s) {
      forall org | org in s'.owners ensures HasOwner(s', org) { OwnersFrame(s, s', org); }
    }
  }

  // ---------------------------------------------------------------- role edits

  lemma CreateKeeps(w: Seeds, s: Rows, id: int, org: int, key: string, permissions: set<string>)
    requires Sound(w, s) && id !in s.roles && Create(w, s, id, org, key, permissions).Done?
    ensures Sound(w, Create(w, s, id, org, key, permissions).rows)
  {
    var s' := Create(w, s, id, org, key, permissions).rows;
    forall m | m in s'.members ensures s'.members[m].keys == Joined(s', m) { JoinedFrame(s, s', m); }
    SeatedFrame(s, s');
    forall o | o in s'.owners ensures HasOwner(s', o) { OwnersFrame(s, s', o); }
  }

  /** `s1` is `s` with role `r` edited or gone, the permission lists not yet recomputed. */
  ghost predicate Edited(s: Rows, s1: Rows, r: int) {
    && s1.members == s.members && s1.seats == s.seats && s1.owners == s.owners
    && s1.held <= s.held && (forall h | h in s.held && h.1 != r :: h in s1.held)
    && (forall q | q != r :: (q in s1.roles <==> q in s.roles) && (q in s.roles ==> s1.roles[q] == s.roles[q]))
    && (r in s1.roles ==> r in s.roles && s1.roles[r].org == s.roles[r].org && s1.roles[r].key == s.roles[r].key)
  }

  function Refreshed(s: Rows, s1: Rows, r: int): Rows {
    s1.(members := Recomputed(s1, Holders(s, r)))
  }

  /** Recomputing the holders of an edited role is enough: nobody else's join moved. */
  lemma EditCoherent(s: Rows, s1: Rows, r: int)
    requires Coherent(s) && Edited(s, s1, r)
    ensures Coherent(Refreshed(s, s1, r))
  {
    var s' := Refreshed(s, s1, r);
    forall m | m in s'.members ensures s'.members[m].keys == Joined(s', m) {
      JoinedFrame(s1, s', m);
      if m !in Holders(s, r) { JoinedFrame(s, s1, m); }
    }
  }

  lemma RefreshedIs(s: Rows, s1: Rows, r: int)
    requires Edited(s, s1, r)
    ensures OnlyKeys(s, Refreshed(s, s1, r))
    ensures forall m | m in s.members && (m, r) !in s.held :: Refreshed(s, s1, r).members[m] == s.members[m]
  {
  }

  lemma EditedRoles(s: Rows, s1: Rows, r: int)
    requires Edited(s, s1, r)
    ensures forall q | q in s1.roles :: q in s.roles && s1.roles[q].org == s.roles[q].org && s1.roles[q].key == s.roles[q].key
  {
  }

  lemma EditKeeps(w: Seeds, s: Rows, s1: Rows, r: int)
    requires Sound(w, s) && Edited(s, s1, r) && Seeded(w, s1) && Honest(w, s1)
    ensures Sound(w, Refreshed(s, s1, r))
    ensures forall m | m in s.members && (m, r) !in s.held :: Refreshed(s, s1, r).members[m] == s.members[m]
  {
    EditCoherent(s, s1, r);
    RefreshedIs(s, s1, r);
    EditedRoles(s, s1, r);
    OnlyKeysKeeps(s, Refreshed(s, s1, r));
    HonestFrame(w, s1, Refreshed(s, s1, r));
  }

  lemma UpdateKeeps(w: Seeds, s: Rows, r: int, org: int, permissions: set<string>)
    requires Sound(w, s) && Update(w, s, r, org, permissions).Done?
    ensures Sound(w, Update(w, s, r, org, permissions).rows)
    ensures forall m | m in s.members && (m, r) !in s.held :: Update(w, s, r, org, permissions).rows.members[m] == s.members[m]
  {
    EditKeeps(w, s, s.(roles := s.roles[r := s.roles[r].(permissions := permissions)]), r);
  }

  lemma DeleteKeeps(w: Seeds, s: Rows, r: int, org: int)
    requires Sound(w, s) && Delete(s, r, org).Done?
    ensures Sound(w, Delete(s, r, org).rows)
    ensures forall m | m in s.members && (m, r) !in s.held :: Delete(s, r, org).rows.members[m] == s.members[m]
  {
    EditKeeps(w, s, s.(roles := s.roles - {r}, held := set h | h in s.held && h.1 != r), r);
  }

  /** A role other than `r` that `m` holds gives `p`. */
  ghost predicate GivenBesides(s: Rows, m: int, r: int, p: string) {
    exists q :: q in s.roles && q != r && (m, q) in s.held && p in s.roles[q].permissions
  }

  /** The organization's own role `r` may be edited. */
  predicate OwnRole(s: Rows, r: int, org: int) {
    r in s.roles && s.roles[r].org == Some(org)
  }

  /** When an edit or a deletion goes through: for the organization's own role, and known permissions. */
  lemma EditGoesThroughIff(w: Seeds, s: Rows, r: int, org: int, permissions: set<string>)
    requires Seeded(w, s)
    ensures var o := Do(w, s, OpUpdate(r, org, permissions));
            && (o == Refused(RoleNotFound) <==> !OwnRole(s, r, org))
            && (o == Refused(UnknownPermissions) <==> OwnRole(s, r, org) && !(permissions <= w.catalog))
            && (o.Done? <==> OwnRole(s, r, org) && permissions <= w.catalog)
    ensures var o := Do(w, s, OpDelete(r, org));
            (o == Refused(RoleNotFound) <==> !OwnRole(s, r, org)) && (o.Done? <==> OwnRole(s, r, org))
  {
  }

  /** An edit leaves the role with the permissions given and no other, a holder with those and what its
      other roles give, and everything else as it was; so whatever the edit leaves out is taken away. */
  lemma UpdateIsExact(w: Seeds, s: Rows, r: int, org: int, permissions: set<string>)
    requires Sound(w, s) && OwnRole(s, r, org) && permissions <= w.catalog
    ensures var s' := Next(w, s, OpUpdate(r, org, permissions));
            && s'.roles == s.roles[r := s.roles[r].(permissions := permissions)] && s'.held == s.held && OnlyKeys(s, s')
            && (forall m, p | m in s.members && (m, r) in s.held :: p in s'.members[m].keys <==> p in permissions || GivenBesides(s, m, r, p))
            && (forall m | m in s.members && (m, r) !in s.held :: s'.members[m] == s.members[m])
  {
    var s1 := s.(roles := s.roles[r := s.roles[r].(permissions := permissions)]);
    EditGoesThroughIff(w, s, r, org, permissions);
    assert Next(w, s, OpUpdate(r, org, permissions)) == Refreshed(s, s1, r);
    EditCoherent(s, s1, r);
    RefreshedIs(s, s1, r);
    EditedHolders(s, Refreshed(s, s1, r), r);
  }

  /** What an edit of `r`, to whatever it is in `s'`, leaves its holders with. */
  lemma EditedHolders(s: Rows, s': Rows, r: int)
    requires Coherent(s') && s'.members.Keys == s.members.Keys && s'.held == s.held && r in s'.roles && s'.roles.Keys == s.roles.Keys
    requires forall q | q in s.roles && q != r :: s'.roles[q] == s.roles[q]
    ensures forall m, p | m in s.members && (m, r) in s.held :: p in s'.members[m].keys <==> p in s'.roles[r].permissions || GivenBesides(s, m, r, p)
  {
    forall m, p | m in s.members && (m, r) in s.held ensures p in s'.members[m].keys <==> p in s'.roles[r].permissions || GivenBesides(s, m, r, p) {
      if q :| q in s.roles && q != r && (m, q) in s.held && p in s.roles[q].permissions {
        assert q in s'.roles && (m, q) in s'.held && p in s'.roles[q].permissions;
      }
    }
  }

  /** A deletion leaves the role gone and held by nobody, a holder with exactly what its other roles give,
      and everything else as it was. */
  lemma DeleteIsExact(w: Seeds, s: Rows, r: int, org: int)
    requires Sound(w, s) && OwnRole(s, r, org)
    ensures var s' := Next(w, s, OpDelete(r, org));
            && s'.roles == s.roles - {r} && OnlyKeys(s, s')
            && (forall h: (int, int) :: h in s'.held <==> h in s.held && h.1 != r)
            && (forall m, p | m in s.members && (m, r) in s.held :: p in s'.members[m].keys <==> GivenBesides(s, m, r, p))
            && (forall m | m in s.members && (m, r) !in s.held :: s'.members[m] == s.members[m])
  {
    var s1 := s.(roles := s.roles - {r}, held := set h | h in s.held && h.1 != r);
    EditGoesThroughIff(w, s, r, org, {});
    assert Next(w, s, OpDelete(r, org)) == Refreshed(s, s1, r);
    EditCoherent(s, s1, r);
    RefreshedIs(s, s1, r);
    DeletedHolders(s, Refreshed(s, s1, r), r);
  }

  lemma DeletedHolders(s: Rows, s': Rows, r: int)
    requires Coherent(s') && s'.members.Keys == s.members.Keys && s'.roles == s.roles - {r}
    requires forall h: (int, int) :: h in s'.held <==> h in s.held && h.1 != r
    ensures forall m, p | m in s.members && (m, r) in s.held :: p in s'.members[m].keys <==> GivenBesides(s, m, r, p)
  {
    forall m, p | m in s.members && (m, r) in s.held ensures p in s'.members[m].keys <==> GivenBesides(s, m, r, p) {
      if p in s'.members[m].keys {
        var q :| q in s'.roles && (m, q) in s'.held && p in s'.roles[q].permissions;
        assert (m, q) in s.held && q != r;
      }
      if q :| q in s.roles && q != r && (m, q) in s.held && p in s.roles[q].permissions {
        assert (m, q) in s'.held && q in s'.roles;
      }
    }
  }

  /** Creating goes through for known permissions under a key the organization has not used: the new row
      is its role with exactly those permissions, and nothing else changes, nobody's list least of all. */
  lemma CreateIsExact(w: Seeds, s: Rows, id: int, org: int, key: string, permissions: set<string>)
    requires id !in s.roles
    ensures var o := Do(w, s, OpCreate(id, org, key, permissions));
            && (o == Refused(UnknownPermissions) <==> !(permissions <= w.catalog))
            && (o == Refused(KeyTaken) <==> permissions <= w.catalog && Shadowed(s, org, key))
            && (o.Done? ==>
                  && o.rows.roles.Keys == s.roles.Keys + {id} && o.rows.roles[id] == Role(Some(org), key, false, permissions)
                  && (forall r | r in s.roles :: o.rows.roles[r] == s.roles[r])
                  && o.rows.members == s.members && o.rows.held == s.held && o.rows.seats == s.seats && o.rows.owners == s.owners)
            && (o.Done? || o.error in {UnknownPermissions, KeyTaken})
  {
  }

  // ---------------------------------------------------------------- giving roles

  /** Nothing but `m`'s roles and permission list changed. */
  ghost predicate OnlyRolesOf(m: int, s: Rows, s': Rows) {
    && s'.roles == s.roles && OnlyKeys(s, s')
    && (forall n | n in s.members && n != m :: s'.members[n] == s.members[n])
    && (forall h: (int, int) | h.0 != m :: h in s'.held <==> h in s.held)
  }

  lemma OnlyRolesKeeps(w: Seeds, s: Rows, s': Rows, m: int)
    requires Sound(w, s) && OnlyRolesOf(m, s, s') && m in s.members && s'.members[m].keys == Joined(s', m) && Honest(w, s')
    ensures Sound(w, s')
  {
    OnlyKeysKeeps(s, s');
    forall n | n in s'.members ensures s'.members[n].keys == Joined(s', n) {
      if n != m {
        assert forall r: int :: (n, r) in s'.held <==> (n, r) in s.held by { assert forall r: int :: (n, r).0 == n; }
        JoinedFrame(s, s', n);
      }
    }
  }

  lemma AttachJoined(s: Rows, m: int, key: string)
    requires m in s.members && s.members[m].keys == Joined(s, m) && Attach(s, m, key).Done?
    ensures Attach(s, m, key).rows.members[m].keys == Joined(Attach(s, m, key).rows, m)
  {
    var s' := Attach(s, m, key).rows;
    var r := TheOnly(Matching(s.roles, s.members[m].org, key));
    assert r in Matching(s.roles, s.members[m].org, key);
    forall p ensures p in Joined(s', m) <==> p in Joined(s, m) + s.roles[r].permissions {
      if p in s.roles[r].permissions { assert (m, r) in s'.held; }
      if p in Joined(s, m) {
        var q :| q in s.roles && (m, q) in s.held && p in s.roles[q].permissions;
        assert (m, q) in s'.held;
      }
    }
  }

  /** The one match of a system key is the system role. */
  lemma AttachHonest(w: Seeds, s: Rows, m: int, key: string)
    requires Seeded(w, s) && Honest(w, s) && m in s.members && Attach(s, m, key).Done?
    ensures Honest(w, Attach(s, m, key).rows)
  {
    var hits := Matching(s.roles, s.members[m].org, key);
    var r := TheOnly(hits);
    assert r in hits;
    if key in w.system { assert w.system[key] in hits; }
  }

  lemma AttachMoves(s: Rows, m: int, key: string)
    requires m in s.members && Attach(s, m, key).Done?
    ensures OnlyRolesOf(m, s, Attach(s, m, key).rows)
  {
  }

  lemma AttachKeeps(w: Seeds, s: Rows, m: int, key: string)
    requires Sound(w, s) && m in s.members && Attach(s, m, key).Done?
    ensures Sound(w, Attach(s, m, key).rows) && OnlyRolesOf(m, s, Attach(s, m, key).rows)
  {
    AttachJoined(s, m, key);
    AttachHonest(w, s, m, key);
    AttachMoves(s, m, key);
    OnlyRolesKeeps(w, s, Attach(s, m, key).rows, m);
  }

  /** The roles the keys name in an organization. */
  ghost predicate Named(roles: map<int, Role>, org: int, keys: seq<string>, r: int) {
    exists k :: k in keys && Matching(roles, org, k) == {r}
  }

  lemma {:induction false} AttachAllSound(w: Seeds, s: Rows, m: int, keys: seq<string>)
    requires Sound(w, s) && m in s.members && AttachAll(s, m, keys).Done?
    ensures Sound(w, AttachAll(s, m, keys).rows) && OnlyRolesOf(m, s, AttachAll(s, m, keys).rows)
    decreases |keys|
  {
    if keys != [] {
      var init, last := keys[..|keys| - 1], keys[|keys| - 1];
      AttachAllSound(w, s, m, init);
      AttachKeeps(w, AttachAll(s, m, init).rows, m, last);
    }
  }

  lemma AttachHolds(s: Rows, m: int, key: string)
    requires m in s.members && Attach(s, m, key).Done?
    ensures forall r :: (m, r) in Attach(s, m, key).rows.held <==> (m, r) in s.held || Matching(s.roles, s.members[m].org, key) == {r}
    ensures Attach(s, m, key).rows.roles == s.roles && Attach(s, m, key).rows.members[m].org == s.members[m].org
  {
    var hits := Matching(s.roles, s.members[m].org, key);
    var r0 := TheOnly(hits);
    forall r ensures hits == {r} <==> r == r0 {
      if hits == {r} { assert r0 in {r}; }
    }
  }

  lemma {:induction false} AttachAllHolds(s: Rows, m: int, keys: seq<string>)
    requires m in s.members && AttachAll(s, m, keys).Done?
    ensures forall r :: (m, r) in AttachAll(s, m, keys).rows.held <==> (m, r) in s.held || Named(s.roles, s.members[m].org, keys, r)
    ensures AttachAll(s, m, keys).rows.roles == s.roles && AttachAll(s, m, keys).rows.members[m].org == s.members[m].org
    decreases |keys|
  {
    if keys != [] {
      var init, last := keys[..|keys| - 1], keys[|keys| - 1];
      AttachAllHolds(s, m, init);
      AttachHolds(AttachAll(s, m, init).rows, m, last);
      NamedSnoc(s.roles, s.members[m].org, init, last);
      assert keys == init + [last];
    }
  }

  lemma {:induction false} AttachAllMoves(s: Rows, m: int, keys: seq<string>)
    requires m in s.members && AttachAll(s, m, keys).Done?
    ensures OnlyRolesOf(m, s, AttachAll(s, m, keys).rows)
    decreases |keys|
  {
    if keys != [] {
      AttachAllMoves(s, m, keys[..|keys| - 1]);
      AttachMoves(AttachAll(s, m, keys[..|keys| - 1]).rows, m, keys[|keys| - 1]);
    }
  }

  lemma NamedSnoc(roles: map<int, Role>, org: int, init: seq<string>, last: string)
    ensures forall r :: Named(roles, org, init + [last], r) <==> Named(roles, org, init, r) || Matching(roles, org, last) == {r}
  {
    var keys := init + [last];
    forall r ensures Named(roles, org, keys, r) <==> Named(roles, org, init, r) || Matching(roles, org, last) == {r} {
      if Named(roles, org, keys, r) {
        var k :| k in keys && Matching(roles, org, k) == {r};
        assert k in init || k == last;
      }
      if Named(roles, org, init, r) {
        var k :| k in init && Matching(roles, org, k) == {r};
        assert k in keys;
      }
      assert last in keys;
    }
  }

  lemma AttachAllKeeps(w: Seeds, s: Rows, m: int, keys: seq<string>)
    requires Sound(w, s) && m in s.members && AttachAll(s, m, keys).Done?
    ensures Sound(w, AttachAll(s, m, keys).rows) && OnlyRolesOf(m, s, AttachAll(s, m, keys).rows)
    ensures forall r :: (m, r) in AttachAll(s, m, keys).rows.held <==> (m, r) in s.held || Named(s.roles, s.members[m].org, keys, r)
  {
    AttachAllSound(w, s, m, keys);
    AttachAllHolds(s, m, keys);
  }

  lemma ClearedKeeps(w: Seeds, s: Rows, m: int)
    requires Sound(w, s) && m in s.members
    ensures Sound(w, Cleared(s, m)) && OnlyRolesOf(m, s, Cleared(s, m))
    ensures forall r :: (m, r) !in Cleared(s, m).held
  {
    assert forall r: int :: (m, r).0 == m;
    assert Joined(Cleared(s, m), m) == {};
    OnlyRolesKeeps(w, s, Cleared(s, m), m);
  }

  lemma StatusKeeps(w: Seeds, s: Rows, m: int, status: Status)
    requires Sound(w, s) && m in s.members && !status.Invited?
    ensures Sound(w, SetStatus(s, m, status))
  {
    var s' := SetStatus(s, m, status);
    var moved := s.(members := s.members[m := s.members[m].(status := status)]);
    SyncKeepsGauges(s, moved, m, s.members[m].org);
    HonestFrame(w, s, s');
    CoherentFrame(s, s');
    UniqueFrame(s, s');
    OwnedFrame(s, s');
  }

  lemma ChangeKeeps(w: Seeds, s: Rows, m: int, keys: Option<seq<string>>, status: Option<Status>)
    requires Sound(w, s) && Change(s, m, keys, status).Done? && (status.Some? ==> !status.value.Invited?)
    ensures Sound(w, Change(s, m, keys, status).rows)
  {
    var s1 := s;
    if keys.Some? {
      ClearedKeeps(w, s, m);
      AttachAllKeeps(w, Cleared(s, m), m, keys.value);
      s1 := AttachAll(Cleared(s, m), m, keys.value).rows;
    }
    if status.Some? { StatusKeeps(w, s1, m, status.value); }
  }

  /** Replacing roles leaves the member exactly the roles the keys name, whatever was held before,
      and the permissions of those roles, nothing more. */
  lemma ReplaceIsExact(w: Seeds, s: Rows, m: int, keys: seq<string>)
    requires Sound(w, s) && Change(s, m, Some(keys), None).Done?
    ensures var s' := Change(s, m, Some(keys), None).rows; var org := s.members[m].org;
            && (forall r :: (m, r) in s'.held <==> Named(s.roles, org, keys, r))
            && (forall p :: p in s'.members[m].keys <==> exists r :: r in s.roles && Named(s.roles, org, keys, r) && p in s.roles[r].permissions)
            && OnlyRolesOf(m, s, s')
  {
    ClearedKeeps(w, s, m);
    AttachAllKeeps(w, Cleared(s, m), m, keys);
    var s' := Change(s, m, Some(keys), None).rows;
    assert s'.members[m].keys == Joined(s', m);
    assert s'.roles == s.roles;
  }

  /** An organization's own role under that key. */
  predicate Shadowed(s: Rows, org: int, key: string) {
    exists r :: r in s.roles && s.roles[r].org == Some(org) && s.roles[r].key == key
  }

  /** A system key is ambiguous in an organization exactly when the organization has a custom role under
      it; no member there can then be given a role by the key, not even the system role. */
  lemma ShadowedKeyIsUnusable(w: Seeds, s: Rows, m: int, key: string)
    requires Sound(w, s) && m in s.members && key in w.system
    ensures Attach(s, m, key) == Refused(AmbiguousRole) <==> Shadowed(s, s.members[m].org, key)
  {
    var hits := Matching(s.roles, s.members[m].org, key);
    assert w.system[key] in hits;
    if r :| r in s.roles && s.roles[r].org == Some(s.members[m].org) && s.roles[r].key == key {
      assert {r, w.system[key]} <= hits;
      assert |hits - {r}| == |hits| - 1 && w.system[key] in hits - {r};
    } else {
      forall r | r in hits ensures r == w.system[key] {}
      assert hits == {w.system[key]};
    }
  }

  /** Nothing stops an organization from getting there: creating a role under a system key goes through
      as long as the organization has none under it, and shadows the key. */
  lemma ShadowingGoesThrough(w: Seeds, s: Rows, id: int, org: int, key: string, permissions: set<string>)
    requires Sound(w, s) && FreshIds(s, OpCreate(id, org, key, permissions)) && key in w.system && permissions <= w.catalog
    ensures Create(w, s, id, org, key, permissions).Done? <==> !Shadowed(s, org, key)
    ensures !Shadowed(s, org, key) ==> Shadowed(Next(w, s, OpCreate(id, org, key, permissions)), org, key)
                                       && Sound(w, Next(w, s, OpCreate(id, org, key, permissions)))
  {
    if !Shadowed(s, org, key) {
      StepKeepsSound(w, s, OpCreate(id, org, key, permissions));
      assert id in Create(w, s, id, org, key, permissions).rows.roles;
    }
  }

  // ---------------------------------------------------------------- joining and leaving

  lemma AddedKeeps(w: Seeds, s: Rows, id: int, mem: Membership)
    requires Sound(w, s) && id !in s.members && (forall h | h in s.held :: h.0 != id)
    requires mem.keys == {} && mem.org in s.owners && (mem.status.Invited? ==> mem.user == None)
    requires forall n | n in s.members && s.members[n].org == mem.org ::
               (mem.user.Some? ==> s.members[n].user != mem.user) && (mem.email.Some? ==> s.members[n].email != mem.email)
    ensures Sound(w, SyncSeats(s.(members := s.members[id := mem]), mem.org))
  {
    var s1 := s.(members := s.members[id := mem]);
    SyncKeepsGauges(s, s1, id, mem.org);
    HonestFrame(w, s, SyncSeats(s1, mem.org));
    AddedCoherent(s, SyncSeats(s1, mem.org), id, mem);
    AddedUnique(s, SyncSeats(s1, mem.org), id, mem);
    AddedOwned(s, SyncSeats(s1, mem.org), id, mem);
  }

  lemma AddedCoherent(s: Rows, s': Rows, id: int, mem: Membership)
    requires Coherent(s) && s' == s.(members := s.members[id := mem], seats := s'.seats)
    requires id !in s.members && mem.keys == {} && forall h | h in s.held :: h.0 != id
    ensures Coherent(s')
  {
    forall n | n in s'.members ensures s'.members[n].keys == Joined(s', n) {
      if n == id {
        assert forall r: int :: (id, r).0 == id;
        assert Joined(s', id) == {};
      } else {
        JoinedFrame(s, s', n);
      }
    }
  }

  lemma AddedUnique(s: Rows, s': Rows, id: int, mem: Membership)
    requires Unique(s) && s' == s.(members := s.members[id := mem], seats := s'.seats) && id !in s.members
    requires forall n | n in s.members && s.members[n].org == mem.org ::
               (mem.user.Some? ==> s.members[n].user != mem.user) && (mem.email.Some? ==> s.members[n].email != mem.email)
    ensures Unique(s')
  {
  }

  lemma AddedOwned(s: Rows, s': Rows, id: int, mem: Membership)
    requires Owned(s) && s' == s.(members := s.members[id := mem], seats := s'.seats)
    requires id !in s.members && mem.org in s.owners && (mem.status.Invited? ==> mem.user == None)
    ensures Owned(s')
  {
    forall org | org in s'.owners ensures HasOwner(s', org) { OwnersFrame(s, s', org); }
  }

  lemma {:induction false} AttachAllIgnoresSeats(s: Rows, t: Rows, m: int, keys: seq<string>)
    requires m in s.members && t == s.(seats := t.seats)
    ensures var a, b := AttachAll(s, m, keys), AttachAll(t, m, keys);
            if a.Done? then b.Done? && b.rows == a.rows.(seats := t.seats) && a.rows.seats == s.seats && OnlyKeys(s, a.rows) else b == a
    decreases |keys|
  {
    if keys != [] { AttachAllIgnoresSeats(s, t, m, keys[..|keys| - 1]); }
  }

  /** The gauge is set at the end of an invite; setting it before the roles are attached, which do
      not count, is the same. */
  lemma InviteIs(s: Rows, id: int, org: int, email: string, keys: seq<string>, limit: Option<nat>)
    requires Invite(s, id, org, email, keys, limit).Done?
    ensures var synced := SyncSeats(s.(members := s.members[id := Membership(org, Some(email), None, Invited, {})]), org);
            Invite(s, id, org, email, keys, limit) == AttachAll(synced, id, if keys == [] then DEFAULT_ROLES else keys)
  {
    var s1 := s.(members := s.members[id := Membership(org, Some(email), None, Invited, {})]);
    var given := if keys == [] then DEFAULT_ROLES else keys;
    AttachAllIgnoresSeats(s1, SyncSeats(s1, org), id, given);
    SeatedFrame(s1, AttachAll(s1, id, given).rows);
  }

  lemma InviteKeeps(w: Seeds, s: Rows, id: int, org: int, email: string, keys: seq<string>, limit: Option<nat>)
    requires Sound(w, s) && id !in s.members && (forall h | h in s.held :: h.0 != id) && org in s.owners
    requires Invite(s, id, org, email, keys, limit).Done?
    ensures Sound(w, Invite(s, id, org, email, keys, limit).rows)
  {
    var mem := Membership(org, Some(email), None, Invited, {});
    InviteIs(s, id, org, email, keys, limit);
    assert forall n | n in s.members && s.members[n].org == org :: s.members[n].email != Some(email);
    AddedKeeps(w, s, id, mem);
    var synced := SyncSeats(s.(members := s.members[id := mem]), org);
    InvitedKeeps(w, synced, id, if keys == [] then DEFAULT_ROLES else keys);
  }

  lemma InvitedKeeps(w: Seeds, s: Rows, m: int, keys: seq<string>)
    requires Sound(w, s) && m in s.members && AttachAll(s, m, keys).Done?
    ensures Sound(w, AttachAll(s, m, keys).rows)
  {
    AttachAllSound(w, s, m, keys);
  }

  /** An invite never takes an organization over its seat limit. */
  lemma InviteWithinLimit(s: Rows, id: int, org: int, email: string, keys: seq<string>, limit: nat)
    requires id !in s.members && Invite(s, id, org, email, keys, Some(limit)).Done?
    ensures var s' := Invite(s, id, org, email, keys, Some(limit)).rows;
            s'.seats[org] == |Seated(s, org)| + 1 <= limit
  {
    var s1 := s.(members := s.members[id := Membership(org, Some(email), None, Invited, {})]);
    InviteIs(s, id, org, email, keys, Some(limit));
    AttachAllIgnoresSeats(SyncSeats(s1, org), SyncSeats(s1, org), id, if keys == [] then DEFAULT_ROLES else keys);
    assert Seated(s1, org) == Seated(s, org) + {id};
  }

  lemma AcceptKeeps(w: Seeds, s: Rows, m: int, user: Option<int>)
    requires Sound(w, s) && Accept(s, m, user).Done?
    ensures Sound(w, Accept(s, m, user).rows)
  {
    var s' := Accept(s, m, user).rows;
    var joined := s.members[m].(status := Active, user := if user.Some? then user else s.members[m].user);
    SyncKeepsGauges(s, s.(members := s.members[m := joined]), m, joined.org);
    forall n | n in s'.members ensures s'.members[n].keys == Joined(s', n) { JoinedFrame(s, s', n); }
    forall org | org in s'.owners ensures HasOwner(s', org) { OwnersFrame(s, s', org); }
  }

  lemma RemoveKeeps(w: Seeds, s: Rows, m: int)
    requires Sound(w, s) && Remove(s, m).Done?
    ensures Sound(w, Remove(s, m).rows)
  {
    var s' := Remove(s, m).rows;
    var gone := s.(members := s.members - {m}, held := set h | h in s.held && h.0 != m);
    SyncKeepsGauges(s, gone, m, s.members[m].org);
    forall n | n in s'.members ensures s'.members[n].keys == Joined(s', n) { JoinedFrame(s, s', n); }
    forall org | org in s'.owners ensures HasOwner(s', org) { OwnersFrame(s, s', org); }
  }

  /** The first membership of a new organization, with the owner role. */
  function Founder(s: Rows, org: int, owner: int, r: int): Membership
    requires r in s.roles
  {
    Membership(org, None, Some(owner), Active, s.roles[r].permissions)
  }

  lemma FoundCoherent(s: Rows, s': Rows, id: int, mem: Membership, r: int)
    requires Coherent(s) && r in s.roles && mem.keys == s.roles[r].permissions && id !in s.members && (forall h | h in s.held :: h.0 != id)
    requires s'.roles == s.roles && s'.members == s.members[id := mem] && s'.held == s.held + {(id, r)}
    ensures Coherent(s')
  {
    assert forall q: int :: (id, q).0 == id;
    forall n | n in s'.members ensures s'.members[n].keys == Joined(s', n) {
      if n == id {
        assert forall q: int :: (id, q) in s'.held <==> q == r;
        assert Joined(s', id) == s.roles[r].permissions;
      } else {
        JoinedFrame(s, s', n);
      }
    }
  }

  lemma FoundOwned(s: Rows, s': Rows, id: int, org: int, owner: int, r: int)
    requires Owned(s) && r in s.roles && id !in s.members && org !in s.owners
    requires s'.members == s.members[id := Founder(s, org, owner, r)] && s'.owners == s.owners[org := owner]
    ensures Owned(s')
  {
    forall o | o in s'.owners ensures HasOwner(s', o) {
      if o == org { assert id in s'.members; } else { OwnersFrame(s, s', o); }
    }
  }

  /** Nobody is in an organization that does not exist yet. */
  lemma FoundUnique(s: Rows, s': Rows, id: int, org: int, owner: int, r: int)
    requires Unique(s) && Owned(s) && r in s.roles && org !in s.owners
    requires s'.roles == s.roles && s'.members == s.members[id := Founder(s, org, owner, r)]
    ensures Unique(s')
  {
  }

  lemma FoundHonest(w: Seeds, s: Rows, s': Rows, id: int, mem: Membership)
    requires Seeded(w, s) && Honest(w, s) && "owner" in w.system && id !in s.members
    requires s'.roles == s.roles && s'.members == s.members[id := mem] && s'.held == s.held + {(id, w.system["owner"])}
    ensures Seeded(w, s') && Honest(w, s')
  {
  }

  lemma FoundKeeps(w: Seeds, s: Rows, id: int, org: int, owner: int)
    requires Sound(w, s) && FreshIds(s, OpFound(id, org, owner)) && Found(w, s, id, org, owner).Done?
    ensures Sound(w, Found(w, s, id, org, owner).rows)
  {
    var s' := Found(w, s, id, org, owner).rows;
    var r := w.system["owner"];
    SyncKeepsGauges(s, s'.(seats := s.seats), id, org);
    FoundHonest(w, s, s', id, Founder(s, org, owner, r));
    FoundCoherent(s, s', id, Founder(s, org, owner, r), r);
    FoundUnique(s, s', id, org, owner, r);
    FoundOwned(s, s', id, org, owner, r);
  }

  // ---------------------------------------------------------------- what the member operations leave

  /** One organization's seat gauge moved by `moved`, no other. */
  predicate SeatsMove(s: Rows, s': Rows, org: int, moved: int) {
    && org in s.seats && s'.seats.Keys == s.seats.Keys && s'.seats[org] == s.seats[org] + moved
    && forall o | o in s.seats && o != org :: s'.seats[o] == s.seats[o]
  }

  /** `m` holds exactly the roles the keys name and has exactly their permissions. */
  ghost predicate HoldsExactly(s: Rows, m: int, org: int, keys: seq<string>) {
    && m in s.members && (forall r :: (m, r) in s.held <==> Named(s.roles, org, keys, r))
    && (forall p :: p in s.members[m].keys <==> exists r :: r in s.roles && Named(s.roles, org, keys, r) && p in s.roles[r].permissions)
  }

  /** An invite leaves one more row, pending, unlinked, holding exactly the roles named (or the default
      one) with their permissions, and takes one more seat; nobody else is touched. */
  lemma InviteIsExact(w: Seeds, s: Rows, id: int, org: int, email: string, keys: seq<string>, limit: Option<nat>)
    requires Sound(w, s) && FreshIds(s, OpInvite(id, org, email, keys, limit)) && Do(w, s, OpInvite(id, org, email, keys, limit)).Done?
    ensures var s' := Next(w, s, OpInvite(id, org, email, keys, limit));
            && s'.members.Keys == s.members.Keys + {id} && s'.roles == s.roles && s'.owners == s.owners
            && s'.members[id] == Membership(org, Some(email), None, Invited, s'.members[id].keys)
            && HoldsExactly(s', id, org, if keys == [] then ["member"] else keys)
            && (forall n | n in s.members :: s'.members[n] == s.members[n])
            && (forall h: (int, int) | h.0 != id :: h in s'.held <==> h in s.held)
            && SeatsMove(s, s', org, 1)
  {
    InviteKeeps(w, s, id, org, email, keys, limit);
    InviteIs(s, id, org, email, keys, limit);
    InvitedRows(s, id, org, email, if keys == [] then DEFAULT_ROLES else keys, Invite(s, id, org, email, keys, limit).rows);
  }

  lemma InvitedRows(s: Rows, id: int, org: int, email: string, keys: seq<string>, s': Rows)
    requires id !in s.members && (forall h | h in s.held :: h.0 != id) && org in s.owners && Gauged(s) && Coherent(s')
    requires AttachAll(SyncSeats(s.(members := s.members[id := Membership(org, Some(email), None, Invited, {})]), org), id, keys) == Done(s')
    ensures && s'.members.Keys == s.members.Keys + {id} && s'.roles == s.roles && s'.owners == s.owners
            && s'.members[id] == Membership(org, Some(email), None, Invited, s'.members[id].keys)
            && HoldsExactly(s', id, org, keys)
            && (forall n | n in s.members :: s'.members[n] == s.members[n])
            && (forall h: (int, int) | h.0 != id :: h in s'.held <==> h in s.held)
            && SeatsMove(s, s', org, 1)
  {
    var s1 := s.(members := s.members[id := Membership(org, Some(email), None, Invited, {})]);
    var synced := SyncSeats(s1, org);
    OneMoreSeat(s, s1, id, org);
    AttachAllHolds(synced, id, keys);
    AttachAllMoves(synced, id, keys);
    assert forall r: int :: (id, r).0 == id;
    HeldIsExact(s', id, org, keys);
  }

  lemma OneMoreSeat(s: Rows, s1: Rows, id: int, org: int)
    requires id !in s.members && org in s.owners && Gauged(s) && id in s1.members && Sits(s1, id, org) && s1 == s.(members := s.members[id := s1.members[id]])
    ensures SeatsMove(s, SyncSeats(s1, org), org, 1)
  {
    assert Seated(s1, org) == Seated(s, org) + {id};
  }

  lemma HeldIsExact(s: Rows, m: int, org: int, keys: seq<string>)
    requires m in s.members && s.members[m].keys == Joined(s, m)
    requires (forall r :: (m, r) in s.held <==> Named(s.roles, org, keys, r))
    ensures HoldsExactly(s, m, org, keys)
  {
  }

  /** Accepting links the pending row to the account and activates it; no role, list or seat moves. */
  lemma AcceptIsExact(w: Seeds, s: Rows, m: int, user: Option<int>)
    requires Sound(w, s)
    ensures var o := Do(w, s, OpAccept(m, user));
            && (o == Refused(InviteNotFound) <==> m !in s.members || s.members[m].status != Invited)
            && (o == Refused(AlreadyMember) <==>
                  && m in s.members && s.members[m].status == Invited && user.Some?
                  && exists n :: n in s.members && s.members[n].org == s.members[m].org && s.members[n].user == user)
            && (o.Done? ==> o.rows == s.(members := s.members[m := s.members[m].(status := Active, user := user)]))
            && (o.Done? || o.error in {InviteNotFound, AlreadyMember})
  {
    if Do(w, s, OpAccept(m, user)).Done? {
      var joined := s.members[m].(status := Active, user := user);
      var s1 := s.(members := s.members[m := joined]);
      assert Seated(s1, joined.org) == Seated(s, joined.org);
      assert s.seats[joined.org := |Seated(s, joined.org)|] == s.seats;
    }
  }

  /** Removing takes the row, its roles and its seat, and refuses exactly the organization's owner. */
  lemma RemoveIsExact(w: Seeds, s: Rows, m: int)
    requires Sound(w, s)
    ensures var o := Do(w, s, OpRemove(m));
            && (o == Refused(NotAMember) <==> m !in s.members)
            && (o == Refused(OwnerStays) <==> m in s.members && s.members[m].user == Some(s.owners[s.members[m].org]))
            && (o.Done? ==>
                  var org := s.members[m].org;
                  && o.rows.members == s.members - {m} && o.rows.roles == s.roles && o.rows.owners == s.owners
                  && (forall h: (int, int) :: h in o.rows.held <==> h in s.held && h.0 != m)
                  && SeatsMove(s, o.rows, org, if s.members[m].status == Suspended then 0 else -1))
            && (o.Done? || o.error in {NotAMember, OwnerStays})
  {
    if Do(w, s, OpRemove(m)).Done? {
      var org := s.members[m].org;
      var s1 := s.(members := s.members - {m}, held := set h | h in s.held && h.0 != m);
      assert Seated(s1, org) == Seated(s, org) - {m};
    }
  }

  /** Suspending a member frees its seat and bringing it back takes one; nothing else of it changes, and
      nobody else. */
  lemma StatusIsExact(w: Seeds, s: Rows, m: int, status: Status)
    requires Sound(w, s) && m in s.members
    ensures var s' := Next(w, s, OpChange(m, None, Some(status)));
            && s'.members == s.members[m := s.members[m].(status := status)] && s'.roles == s.roles && s'.held == s.held && s'.owners == s.owners
            && SeatsMove(s, s', s.members[m].org, (if status == Suspended then 0 else 1) - (if s.members[m].status == Suspended then 0 else 1))
  {
    StatusMovesSeat(s, m, status);
    assert s.members[m := s.members[m]] == s.members;
  }

  lemma StatusMovesSeat(s: Rows, m: int, status: Status)
    requires m in s.members && s.members[m].org in s.owners && Gauged(s)
    ensures SeatsMove(s, SetStatus(s, m, status), s.members[m].org, (if status == Suspended then 0 else 1) - (if s.members[m].status == Suspended then 0 else 1))
  {
    var org := s.members[m].org;
    var s1 := s.(members := s.members[m := s.members[m].(status := status)]);
    assert m in Seated(s, org) <==> s.members[m].status != Suspended;
    if status == Suspended { assert Seated(s1, org) == Seated(s, org) - {m}; } else { assert Seated(s1, org) == Seated(s, org) + {m}; }
  }

  /** Founding goes through for a new organization once the owner role is seeded: its owner is its one
      member, active, with the owner role's permissions and the organization's one seat. */
  lemma FoundIsExact(w: Seeds, s: Rows, id: int, org: int, owner: int)
    requires Sound(w, s) && FreshIds(s, OpFound(id, org, owner))
    ensures var o := Do(w, s, OpFound(id, org, owner));
            && (o.Done? <==> org !in s.owners && "owner" in w.system)
            && (o.Done? ==>
                  var r := w.system["owner"];
                  o.rows == Rows(s.roles, s.members[id := Membership(org, None, Some(owner), Active, s.roles[r].permissions)],
                                 s.held + {(id, r)}, s.seats[org := 1], s.owners[org := owner]))
  {
    if org !in s.owners && "owner" in w.system {
      var s' := s.(members := s.members[id := Membership(org, None, Some(owner), Active, s.roles[w.system["owner"]].permissions)]);
      assert Seated(s', org) == {id};
      assert |Seated(s', org)| == 1;
      assert Seated(Rows(s.roles, s'.members, s.held + {(id, w.system["owner"])}, s.seats, s.owners[org := owner]), org) == Seated(s', org);
    }
  }

  // ---------------------------------------------------------------- runs keep it

  lemma StepKeepsSound(w: Seeds, s: Rows, op: Op)
    requires Sound(w, s) && FreshIds(s, op)
    ensures Sound(w, Next(w, s, op))
  {
    if Do(w, s, op).Done? {
      match op
      case OpFound(id, org, owner) => FoundKeeps(w, s, id, org, owner);
      case OpCreate(id, org, key, permissions) => CreateKeeps(w, s, id, org, key, permissions);
      case OpUpdate(r, org, permissions) => UpdateKeeps(w, s, r, org, permissions);
      case OpDelete(r, org) => DeleteKeeps(w, s, r, org);
      case OpAssign(m, key) => AttachKeeps(w, s, m, key);
      case OpChange(m, keys, status) => ChangeKeeps(w, s, m, keys, status);
      case OpInvite(id, org, email, keys, limit) => InviteKeeps(w, s, id, org, email, keys, limit);
      case OpAccept(m, user) => AcceptKeeps(w, s, m, user);
      case OpRemove(m) => RemoveKeeps(w, s, m);
    }
  }

  /** After every run each membership's permission list is the union over the roles it holds. */
  lemma {:induction false} RunKeepsSound(w: Seeds, s: Rows, ops: seq<Op>)
    requires Sound(w, s) && Run(w, s, ops)
    ensures Sound(w, After(w, s, ops))
    decreases |ops|
  {
    if ops != [] {
      StepKeepsSound(w, s, ops[0]);
      RunKeepsSound(w, Next(w, s, ops[0]), ops[1..]);
    }
  }
}
