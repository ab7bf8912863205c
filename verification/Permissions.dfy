/**
 The cached permission sets as a family of the cache protocol: which operations on roles and
 memberships bump the counter of everyone whose permissions they change, and which do not.
 */
module Permissions {
  import opened Wrappers
  import opened CacheProtocol
  import opened CacheCoherence
  import opened CacheNecessity
  import A = Rbac

  /** A user in an organization: the cache key, its one counter, and the membership a load reads. */
  datatype Subject = Subject(user: int, org: int)

  /** The permission set is the cached body, and all a load takes from the membership; nobody without an
      active membership has any. */
  ghost function Perms(births: bool): Discipline<Subject, set<string>, Subject, Subject, set<string>> {
    Discipline((u: Subject) => [u], (u: Subject) => {u}, {}, (u: Subject, rows: map<Subject, set<string>>) => Held(rows, u), births)
  }

  function Held(rows: map<Subject, set<string>>, u: Subject): set<string> { if u in rows then rows[u] else {} }

  // ---------------------------------------------------------------- what a load reads

  predicate IsMine(s: A.Rows, m: int, u: Subject) {
    m in s.members && s.members[m].org == u.org && s.members[m].user == Some(u.user) && s.members[m].status.Active?
  }

  /** The permission list of the active membership, if there is one. */
  ghost function View(s: A.Rows, u: Subject): Option<set<string>> {
    if exists m :: IsMine(s, m, u) then var m :| IsMine(s, m, u); Some(s.members[m].keys) else None
  }

  function KeysIn(v: Option<set<string>>): set<string> { if v.Some? then v.value else {} }

  lemma ViewIs(s: A.Rows, m: int, u: Subject)
    requires A.Unique(s) && IsMine(s, m, u)
    ensures View(s, u) == Some(s.members[m].keys)
  {
  }

  /** Who has a membership. */
  function Subjects(s: A.Rows): set<Subject> {
    set m | m in s.members && s.members[m].user.Some? :: Subject(s.members[m].user.value, s.members[m].org)
  }

  /** The committed rows, as loads see them. */
  ghost function Views(s: A.Rows): map<Subject, set<string>> {
    map u | u in Subjects(s) :: KeysIn(View(s, u))
  }

  /** What an operation from `s` to `s'` commits: the permission sets it changes. */
  ghost function Delta(s: A.Rows, s': A.Rows): map<Subject, set<string>> {
    map u | u in Subjects(s) + Subjects(s') && KeysIn(View(s', u)) != KeysIn(View(s, u)) :: KeysIn(View(s', u))
  }

  /** `rows` are what loads see of `s`, and of nobody outside its organizations. */
  ghost predicate Shows(rows: map<Subject, set<string>>, s: A.Rows) {
    (forall u: Subject :: Held(rows, u) == KeysIn(View(s, u))) && (forall u | u in rows :: u.org in s.owners)
  }

  lemma NoSubjectNoView(s: A.Rows, u: Subject)
    ensures View(s, u).Some? ==> u in Subjects(s)
  {
    if m :| IsMine(s, m, u) { assert Subject(s.members[m].user.value, s.members[m].org) == u; }
  }

  lemma ViewsShow(s: A.Rows)
    requires A.Owned(s)
    ensures Shows(Views(s), s)
  {
    forall u: Subject ensures Held(Views(s), u) == KeysIn(View(s, u)) { NoSubjectNoView(s, u); }
  }

  /** Committing what an operation changes keeps the rows showing the state: a run of operations is a
      run of such commits. */
  lemma OperationsKeepShowing(w: A.Seeds, s: A.Rows, op: A.Op, rows: map<Subject, set<string>>)
    requires GoesThrough(w, s, op) && Shows(rows, s)
    ensures Shows(rows + Delta(s, A.Next(w, s, op)), A.Next(w, s, op))
  {
    A.StepKeepsSound(w, s, op);
    OrganizationsStay(w, s, op);
    ShowingFrame(s, A.Next(w, s, op), rows);
  }

  lemma OrganizationsStay(w: A.Seeds, s: A.Rows, op: A.Op)
    requires A.Do(w, s, op).Done?
    ensures s.owners.Keys <= A.Next(w, s, op).owners.Keys
  {
    match op
    case OpChange(m, keys, _) => if keys.Some? { A.AttachAllIgnoresSeats(A.Cleared(s, m), A.Cleared(s, m), m, keys.value); }
    case OpInvite(id, org, email, keys, _) =>
      var s1 := s.(members := s.members[id := A.Membership(org, Some(email), None, A.Invited, {})]);
      A.AttachAllIgnoresSeats(s1, s1, id, if keys == [] then A.DEFAULT_ROLES else keys);
    case _ =>
  }

  lemma ShowingFrame(s: A.Rows, s': A.Rows, rows: map<Subject, set<string>>)
    requires A.Owned(s) && A.Owned(s') && s.owners.Keys <= s'.owners.Keys && Shows(rows, s)
    ensures Shows(rows + Delta(s, s'), s')
  {
    forall u: Subject ensures Held(rows + Delta(s, s'), u) == KeysIn(View(s', u)) {
      NoSubjectNoView(s, u);
      NoSubjectNoView(s', u);
    }
  }

  /** An operation that is not refused, in a state some run reaches. */
  ghost predicate GoesThrough(w: A.Seeds, s: A.Rows, op: A.Op) {
    A.Sound(w, s) && A.FreshIds(s, op) && A.Do(w, s, op).Done?
  }

  // ---------------------------------------------------------------- what the services bump

  function SubjectOf(x: A.Membership): set<Subject> {
    if x.user.Some? then {Subject(x.user.value, x.org)} else {}
  }

  function SubjectsIn(s: A.Rows, org: int): set<Subject> {
    set u | u in Subjects(s) && u.org == org
  }

  function HoldersOf(s: A.Rows, r: int): set<Subject> {
    set m | m in s.members && (m, r) in s.held && s.members[m].user.Some? :: Subject(s.members[m].user.value, s.members[m].org)
  }

  /** Role edits bump the role's holders and then the whole organization; assigning, replacing and
      changing status bump the member; accepting bumps the user who joined. Creating a role, inviting,
      removing and founding bump nobody. */
  function Bumps(s: A.Rows, op: A.Op): set<Subject> {
    match op
    case OpUpdate(r, org, _) => HoldersOf(s, r) + SubjectsIn(s, org)
    case OpDelete(r, org) => HoldersOf(s, r) + SubjectsIn(s, org)
    case OpAssign(m, _) => if m in s.members then SubjectOf(s.members[m]) else {}
    case OpChange(m, keys, status) =>
      if m in s.members && (keys.Some? || (status.Some? && status.value != s.members[m].status)) then SubjectOf(s.members[m]) else {}
    case OpAccept(m, user) =>
      if m !in s.members then {}
      else if user.Some? then {Subject(user.value, s.members[m].org)}
      else SubjectOf(s.members[m])
    case _ => {}
  }

  // ---------------------------------------------------------------- whose permissions an operation changes

  /** No membership but `m` moved. */
  ghost predicate MovesOne(s: A.Rows, s': A.Rows, m: int) {
    forall n | n != m :: (n in s'.members <==> n in s.members) && (n in s.members ==> s'.members[n] == s.members[n])
  }

  /** Only `m` moved, and it was and is not an active membership of `u`. */
  lemma OthersFrame(s: A.Rows, s': A.Rows, m: int, u: Subject)
    requires A.Unique(s) && A.Unique(s') && !IsMine(s, m, u) && !IsMine(s', m, u) && MovesOne(s, s', m)
    ensures View(s', u) == View(s, u)
  {
    assert forall n :: IsMine(s, n, u) <==> IsMine(s', n, u);
    if n :| IsMine(s, n, u) {
      ViewIs(s, n, u);
      ViewIs(s', n, u);
    }
  }

  /** The same when `m` belongs to somebody else, or to nobody, before and after. */
  lemma StrangerFrame(s: A.Rows, s': A.Rows, m: int, u: Subject)
    requires A.Unique(s) && A.Unique(s') && MovesOne(s, s', m)
    requires m in s.members ==> u !in SubjectOf(s.members[m])
    requires m in s'.members ==> u !in SubjectOf(s'.members[m])
    ensures View(s', u) == View(s, u)
  {
    NotMine(s, m, u);
    NotMine(s', m, u);
    OthersFrame(s, s', m, u);
  }

  lemma NotMine(s: A.Rows, m: int, u: Subject)
    ensures IsMine(s, m, u) ==> u in SubjectOf(s.members[m])
  {
  }

  lemma HolderIsBumped(s: A.Rows, r: int, m: int, u: Subject)
    requires IsMine(s, m, u)
    ensures (m, r) in s.held ==> u in HoldersOf(s, r)
  {
    assert u == Subject(s.members[m].user.value, s.members[m].org);
  }

  /** An edited role changes the permissions of its holders only. */
  lemma EditFrame(s: A.Rows, s': A.Rows, r: int, u: Subject)
    requires A.Unique(s) && A.Unique(s') && A.OnlyKeys(s, s') && u !in HoldersOf(s, r)
    requires forall m | m in s.members && (m, r) !in s.held :: s'.members[m] == s.members[m]
    ensures View(s', u) == View(s, u)
  {
    assert forall n :: IsMine(s, n, u) <==> IsMine(s', n, u);
    if n :| IsMine(s, n, u) {
      HolderIsBumped(s, r, n, u);
      ViewIs(s, n, u);
      ViewIs(s', n, u);
    }
  }

  lemma EditMovesHolders(w: A.Seeds, s: A.Rows, op: A.Op)
    requires A.Do(w, s, op).Done? && (op.OpUpdate? || op.OpDelete?)
    ensures A.OnlyKeys(s, A.Do(w, s, op).rows)
    ensures forall m | m in s.members && (m, op.role) !in s.held :: A.Do(w, s, op).rows.members[m] == s.members[m]
  {
  }

  lemma AttachMovesOne(s: A.Rows, m: int, key: string)
    requires m in s.members && A.Attach(s, m, key).Done?
    ensures var s' := A.Attach(s, m, key).rows; MovesOne(s, s', m) && SubjectOf(s'.members[m]) == SubjectOf(s.members[m])
  {
  }

  lemma {:induction false} AttachAllMovesOne(s: A.Rows, m: int, keys: seq<string>)
    requires m in s.members && A.AttachAll(s, m, keys).Done?
    ensures var s' := A.AttachAll(s, m, keys).rows; MovesOne(s, s', m) && SubjectOf(s'.members[m]) == SubjectOf(s.members[m])
    decreases |keys|
  {
    if keys != [] {
      var init := keys[..|keys| - 1];
      AttachAllMovesOne(s, m, init);
      AttachMovesOne(A.AttachAll(s, m, init).rows, m, keys[|keys| - 1]);
    }
  }

  lemma ChangeMovesOne(s: A.Rows, m: int, keys: Option<seq<string>>, status: Option<A.Status>)
    requires A.Change(s, m, keys, status).Done?
    ensures var s' := A.Change(s, m, keys, status).rows;
            m in s'.members && MovesOne(s, s', m) && SubjectOf(s'.members[m]) == SubjectOf(s.members[m])
  {
    if keys.Some? { AttachAllMovesOne(A.Cleared(s, m), m, keys.value); }
  }

  lemma InviteMovesOne(s: A.Rows, op: A.Op)
    requires op.OpInvite? && op.id !in s.members && A.Invite(s, op.id, op.org, op.email, op.invited, op.limit).Done?
    ensures var s' := A.Invite(s, op.id, op.org, op.email, op.invited, op.limit).rows;
            op.id in s'.members && MovesOne(s, s', op.id) && SubjectOf(s'.members[op.id]) == {}
  {
    var s1 := s.(members := s.members[op.id := A.Membership(op.org, Some(op.email), None, A.Invited, {})]);
    AttachAllMovesOne(s1, op.id, if op.invited == [] then A.DEFAULT_ROLES else op.invited);
  }

  lemma UniqueAfter(w: A.Seeds, s: A.Rows, op: A.Op)
    requires A.Sound(w, s) && A.FreshIds(s, op)
    ensures A.Unique(s) && A.Unique(A.Next(w, s, op))
  {
    A.StepKeepsSound(w, s, op);
  }

  /** Whom an operation does not bump, removals and foundings apart, sees what was seen before. */
  lemma UnbumpedSeesTheSame(w: A.Seeds, s: A.Rows, op: A.Op, u: Subject)
    requires A.Sound(w, s) && A.FreshIds(s, op) && A.Do(w, s, op).Done? && !op.OpRemove? && !op.OpFound?
    requires u !in Bumps(s, op)
    ensures View(A.Next(w, s, op), u) == View(s, u)
  {
    UniqueAfter(w, s, op);
    if op.OpUpdate? || op.OpDelete? { EditMovesHolders(w, s, op); }
    SameView(w, s, op, A.Next(w, s, op), u);
  }

  lemma SameView(w: A.Seeds, s: A.Rows, op: A.Op, s': A.Rows, u: Subject)
    requires A.Unique(s) && A.Unique(s') && A.Do(w, s, op) == A.Done(s') && u !in Bumps(s, op)
    requires op.OpInvite? ==> op.id !in s.members
    requires op.OpUpdate? || op.OpDelete? ==> A.OnlyKeys(s, s') && forall m | m in s.members && (m, op.role) !in s.held :: s'.members[m] == s.members[m]
    requires !op.OpRemove? && !op.OpFound?
    ensures View(s', u) == View(s, u)
  {
    match op
    case OpUpdate(r, _, _) => EditFrame(s, s', r, u);
    case OpDelete(r, _) => EditFrame(s, s', r, u);
    case OpCreate(_, _, _, _) => SameMembers(s, s', u);
    case OpAssign(m, key) =>
      AttachMovesOne(s, m, key);
      StrangerFrame(s, s', m, u);
    case OpChange(m, keys, status) =>
      if s' == s {
      } else {
        ChangeMovesOne(s, m, keys, status);
        StrangerFrame(s, s', m, u);
      }
    case OpInvite(id, _, _, _, _) =>
      InviteMovesOne(s, op);
      StrangerFrame(s, s', id, u);
    case OpAccept(m, user) =>
      AcceptFrame(s, m, user, u);
  }

  lemma SameMembers(s: A.Rows, s': A.Rows, u: Subject)
    requires A.Unique(s) && A.Unique(s') && s'.members == s.members
    ensures View(s', u) == View(s, u)
  {
    assert forall n :: IsMine(s, n, u) <==> IsMine(s', n, u);
    if n :| IsMine(s, n, u) {
      ViewIs(s, n, u);
      ViewIs(s', n, u);
    }
  }

  /** An invited membership is nobody's before it is accepted, and the joiner's afterwards. */
  lemma AcceptFrame(s: A.Rows, m: int, user: Option<int>, u: Subject)
    requires A.Accept(s, m, user).Done? && u !in Bumps(s, A.OpAccept(m, user))
    requires A.Unique(s) && A.Unique(A.Accept(s, m, user).rows)
    ensures View(A.Accept(s, m, user).rows, u) == View(s, u)
  {
    var s' := A.Accept(s, m, user).rows;
    NotMine(s', m, u);
    OthersFrame(s, s', m, u);
  }

  /** Who can do what, on the rows: a user has a permission in an organization exactly when a membership of
      theirs there is active and holds a role that gives it. Pending and suspended members have none. */
  lemma CanIff(w: A.Seeds, s: A.Rows, u: Subject, p: string)
    requires A.Sound(w, s)
    ensures p in KeysIn(View(s, u)) <==>
              exists m, r ::
                && m in s.members && s.members[m].org == u.org && s.members[m].user == Some(u.user) && s.members[m].status == A.Active
                && r in s.roles && (m, r) in s.held && p in s.roles[r].permissions
  {
    CanIffJoined(s, u, p);
  }

  lemma CanIffJoined(s: A.Rows, u: Subject, p: string)
    requires A.Unique(s) && A.Coherent(s)
    ensures p in KeysIn(View(s, u)) <==> exists m, r :: IsMine(s, m, u) && r in s.roles && (m, r) in s.held && p in s.roles[r].permissions
  {
    if m :| IsMine(s, m, u) {
      ViewIs(s, m, u);
      assert s.members[m].keys == A.Joined(s, m);
    }
  }

  /** Removing a member changes exactly that member's permissions, to none. */
  lemma RemovalTakesAway(w: A.Seeds, s: A.Rows, m: int)
    requires A.Sound(w, s) && A.Remove(s, m).Done?
    ensures forall u: Subject :: View(A.Remove(s, m).rows, u) == if IsMine(s, m, u) then None else View(s, u)
  {
    UniqueAfter(w, s, A.OpRemove(m));
    forall u: Subject ensures View(A.Remove(s, m).rows, u) == if IsMine(s, m, u) then None else View(s, u) {
      RemovalFrame(s, m, u);
    }
  }

  lemma RemovalFrame(s: A.Rows, m: int, u: Subject)
    requires A.Remove(s, m).Done? && A.Unique(s) && A.Unique(A.Remove(s, m).rows)
    ensures View(A.Remove(s, m).rows, u) == if IsMine(s, m, u) then None else View(s, u)
  {
    var s' := A.Remove(s, m).rows;
    assert forall n :: IsMine(s', n, u) ==> IsMine(s, n, u) && n != m;
    if !IsMine(s, m, u) { OthersFrame(s, s', m, u); }
  }

  /** Founding an organization gives its owner the owner role's permissions and nobody else any; nobody
      had any there before. */
  lemma FoundingGives(w: A.Seeds, s: A.Rows, id: int, org: int, owner: int)
    requires A.Sound(w, s) && A.FreshIds(s, A.OpFound(id, org, owner)) && A.Found(w, s, id, org, owner).Done?
    ensures View(s, Subject(owner, org)) == None
    ensures View(A.Found(w, s, id, org, owner).rows, Subject(owner, org)) == Some(s.roles[w.system["owner"]].permissions)
    ensures forall u | u != Subject(owner, org) :: View(A.Found(w, s, id, org, owner).rows, u) == View(s, u)
  {
    var s' := A.Found(w, s, id, org, owner).rows;
    UniqueAfter(w, s, A.OpFound(id, org, owner));
    assert IsMine(s', id, Subject(owner, org));
    ViewIs(s', id, Subject(owner, org));
    forall u | u != Subject(owner, org) ensures View(s', u) == View(s, u) { OthersFrame(s, s', id, u); }
  }

  /** Everybody whose permission set an operation changes is bumped by it. */
  ghost predicate Loud(w: A.Seeds, s: A.Rows, op: A.Op) {
    forall u: Subject | KeysIn(View(A.Next(w, s, op), u)) != KeysIn(View(s, u)) :: u in Bumps(s, op)
  }

  /** The removal of an active member who can do something. */
  predicate RemovesSomebody(s: A.Rows, op: A.Op) {
    op.OpRemove? && op.member in s.members && s.members[op.member].status.Active? && s.members[op.member].user.Some? && s.members[op.member].keys != {}
  }

  /** The founding of an organization whose owner can do something. */
  predicate FoundsSomething(w: A.Seeds, s: A.Rows, op: A.Op) {
    op.OpFound? && "owner" in w.system && w.system["owner"] in s.roles && s.roles[w.system["owner"]].permissions != {}
  }

  /** Everybody whose permissions an operation changes is bumped, unless the operation removes an active
      member who could do something or founds an organization. */
  lemma LoudIff(w: A.Seeds, s: A.Rows, op: A.Op)
    requires GoesThrough(w, s, op)
    ensures Loud(w, s, op) <==> !RemovesSomebody(s, op) && !FoundsSomething(w, s, op)
  {
    match op
    case OpRemove(m) => RemovalLoudIff(w, s, m);
    case OpFound(id, org, owner) =>
      FoundingGives(w, s, id, org, owner);
      assert Subject(owner, org) !in Bumps(s, op);
    case _ =>
      forall u: Subject ensures u !in Bumps(s, op) ==> View(A.Next(w, s, op), u) == View(s, u) {
        if u !in Bumps(s, op) { UnbumpedSeesTheSame(w, s, op, u); }
      }
  }

  lemma RemovalLoudIff(w: A.Seeds, s: A.Rows, m: int)
    requires A.Sound(w, s) && A.Remove(s, m).Done?
    ensures Loud(w, s, A.OpRemove(m)) <==> !RemovesSomebody(s, A.OpRemove(m))
  {
    var op := A.OpRemove(m);
    RemovalTakesAway(w, s, m);
    forall u: Subject | IsMine(s, m, u) ensures View(s, u) == Some(s.members[m].keys) { ViewIs(s, m, u); }
    if RemovesSomebody(s, op) {
      var u := Subject(s.members[m].user.value, s.members[m].org);
      assert IsMine(s, m, u) && u !in Bumps(s, op);
    }
  }

  // ---------------------------------------------------------------- the cache over whole runs

  /** What an operation over the committed rows commits, with what it bumped. */
  ghost predicate Performs(w: A.Seeds, s: A.Rows, op: A.Op, rows: map<Subject, set<string>>, delta: map<Subject, set<string>>, bumps: set<Subject>) {
    GoesThrough(w, s, op) && Shows(rows, s) && delta == Delta(s, A.Next(w, s, op)) && bumps == Bumps(s, op)
  }

  /** Services that perform the operations of `allow`, and no others. */
  ghost function Performing(w: A.Seeds, allow: (A.Rows, A.Op) -> bool, habit: Habit): Policy<Subject, set<string>, Subject> {
    Policy((rows: map<Subject, set<string>>, delta: map<Subject, set<string>>, bumps: set<Subject>) =>
             exists s, op :: allow(s, op) && Performs(w, s, op, rows, delta, bumps), habit)
  }

  /** No operation allowed that goes through removes somebody. */
  ghost predicate NobodyRemoved(w: A.Seeds, allow: (A.Rows, A.Op) -> bool) {
    forall s, op | allow(s, op) && GoesThrough(w, s, op) :: !RemovesSomebody(s, op)
  }

  /** Whose permissions a founding changes was not among the rows before. */
  lemma FounderIsNew(w: A.Seeds, s: A.Rows, op: A.Op, rows: map<Subject, set<string>>, u: Subject)
    requires GoesThrough(w, s, op) && Shows(rows, s) && u in Delta(s, A.Next(w, s, op))
    ensures op.OpFound? ==> u !in rows
  {
    if op.OpFound? { FoundingGives(w, s, op.id, op.org, op.owner); }
  }

  lemma PerformingIsHeard(w: A.Seeds, allow: (A.Rows, A.Op) -> bool, habit: Habit, births: bool)
    requires NobodyRemoved(w, allow)
    requires (!births && habit.LoadsNothingOwn?) || forall s, op | allow(s, op) :: !op.OpFound?
    ensures Heard(Perms(births), Performing(w, allow, habit))
  {
    var d, may := Perms(births), Performing(w, allow, habit);
    forall rows, delta, owes, u, r | may.commits(rows, delta, owes) && r in delta && Concerns(d, habit, u, rows, r) ensures Reaches(d, u, owes) {
      var s, op :| allow(s, op) && Performs(w, s, op, rows, delta, owes);
      assert r == u;
      FounderIsNew(w, s, op, rows, u);
      LoudIff(w, s, op);
      assert u in owes && d.scopes(u)[0] == u;
    }
  }

  /** The exact condition, foundings apart: the permission cache is coherent with the operations allowed,
      over all runs, if and only if none of them removes an active member who can do something. */
  lemma CoherentIffNobodyRemoved(w: A.Seeds, allow: (A.Rows, A.Op) -> bool, habit: Habit)
    requires !habit.Careless? && forall s, op | allow(s, op) :: !op.OpFound?
    ensures Coherent(Perms(true), Performing(w, allow, habit)) <==> NobodyRemoved(w, allow)
  {
    if NobodyRemoved(w, allow) {
      PerformingIsHeard(w, allow, habit, true);
      HeardIsCoherent(Perms(true), Performing(w, allow, habit));
    } else {
      var s, op :| allow(s, op) && GoesThrough(w, s, op) && RemovesSomebody(s, op);
      RemovalGoesStale(w, allow, habit, true, s, op.member);
    }
  }

  /** A stale hit that a reader believes: an empty one is taken for a miss. */
  ghost predicate Misleads(
    w: A.Seeds, allow: (A.Rows, A.Op) -> bool, rows: map<Subject, set<string>>,
    steps: seq<Step<Subject, set<string>, Subject, Subject, set<string>>>, u: Subject, token: seq<nat>)
  {
    var d, may := Perms(false), Performing(w, allow, LoadsNothingOwn);
    GoesStale(d, may, rows, steps, u, token) && After(d, may, Initial(rows), steps).store[(u, token)].body != {}
  }

  /** The exact condition with foundings, which bump nobody: in sessions that load none of their own rows
      no run misleads a reader if and only if no operation allowed removes an active member who can do
      something. */
  lemma NeverMisleadsIff(w: A.Seeds, allow: (A.Rows, A.Op) -> bool)
    ensures (forall rows, steps, u, token :: !Misleads(w, allow, rows, steps, u, token)) <==> NobodyRemoved(w, allow)
  {
    if NobodyRemoved(w, allow) {
      forall rows, steps, u, token ensures !Misleads(w, allow, rows, steps, u, token) { OnlyEmptyGoesStale(w, allow, rows, steps, u, token); }
    } else {
      var s, op :| allow(s, op) && GoesThrough(w, s, op) && RemovesSomebody(s, op);
      RemovalMisleads(w, allow, s, op.member);
    }
  }

  lemma OnlyEmptyGoesStale(
    w: A.Seeds, allow: (A.Rows, A.Op) -> bool, rows: map<Subject, set<string>>,
    steps: seq<Step<Subject, set<string>, Subject, Subject, set<string>>>, u: Subject, token: seq<nat>)
    requires NobodyRemoved(w, allow)
    ensures !Misleads(w, allow, rows, steps, u, token)
  {
    var d, may := Perms(false), Performing(w, allow, LoadsNothingOwn);
    PerformingIsHeard(w, allow, LoadsNothingOwn, false);
    if GoesStale(d, may, rows, steps, u, token) { StaleIsEmpty(may, rows, steps, u, token); }
  }

  lemma StaleIsEmpty(
    may: Policy<Subject, set<string>, Subject>, rows: map<Subject, set<string>>,
    steps: seq<Step<Subject, set<string>, Subject, Subject, set<string>>>, u: Subject, token: seq<nat>)
    requires Heard(Perms(false), may) && may.habit.LoadsNothingOwn? && GoesStale(Perms(false), may, rows, steps, u, token)
    ensures After(Perms(false), may, Initial(rows), steps).store[(u, token)].body == {}
  {
    StoredBodyIsRecent(Perms(false), may, rows, steps, u, token);
    var s := After(Perms(false), may, Initial(rows), steps);
    var full :| Recent(Perms(false), u, full, s.log[|s.log| - 1]) && s.store[(u, token)].body == Perms(false).compute(u, full);
    FreshIsHeld(s, u);
    RecentIsHeldOrEmpty(u, full, s.log[|s.log| - 1]);
  }

  lemma FreshIsHeld(s: State<Subject, set<string>, Subject, Subject, set<string>>, u: Subject)
    requires |s.log| > 0
    ensures forall births :: Fresh(Perms(births), s, u) == Held(s.log[|s.log| - 1], u)
  {
    forall births ensures Fresh(Perms(births), s, u) == Held(s.log[|s.log| - 1], u) {
      assert Snapshot(Perms(births), s.log[|s.log| - 1], u)[u] == RowIn(Perms(births), s.log[|s.log| - 1], u);
    }
  }

  lemma RecentIsHeldOrEmpty(u: Subject, full: map<Subject, set<string>>, rows: map<Subject, set<string>>)
    requires Recent(Perms(false), u, full, rows)
    ensures Perms(false).compute(u, full) in {Held(rows, u), {}}
  {
    MembershipMatters(u);
    assert Matters(Perms(false), u, u);
    assert full[u] == RowIn(Perms(false), rows, u) || full[u] == {};
  }

  /** What a subject may do depends on its membership. */
  lemma MembershipMatters(u: Subject)
    ensures forall births :: Matters(Perms(births), u, u)
  {
    forall births ensures Matters(Perms(births), u, u) {
      var full: map<Subject, set<string>> := map[u := {}];
      assert full[u := {"a"}][u] == {"a"};
      assert Sways(Perms(births), u, full, u, {"a"});
    }
  }

  /** In any state, removing an active member who can do something leaves, in some run from there, that
      member's old permission set as a hit under the current version, with nothing owed. */
  lemma RemovalGoesStale(w: A.Seeds, allow: (A.Rows, A.Op) -> bool, habit: Habit, births: bool, s: A.Rows, m: int)
    requires allow(s, A.OpRemove(m)) && GoesThrough(w, s, A.OpRemove(m)) && RemovesSomebody(s, A.OpRemove(m))
    ensures var u := Subject(s.members[m].user.value, s.members[m].org);
            exists steps, token ::
              && GoesStale(Perms(births), Performing(w, allow, habit), Views(s), steps, u, token)
              && After(Perms(births), Performing(w, allow, habit), Initial(Views(s)), steps).store[(u, token)].body == s.members[m].keys
  {
    var d, u := Perms(births), Subject(s.members[m].user.value, s.members[m].org);
    var rows, delta := Views(s), Delta(s, A.Next(w, s, A.OpRemove(m)));
    RemovalIsPerformed(w, allow, habit, s, m);
    RemovalDelta(w, s, m);
    RemovalAlters(births, u, rows, delta);
    SilentCommitGoesStale(d, Performing(w, allow, habit), u, rows, delta, {});
  }

  lemma RemovalIsPerformed(w: A.Seeds, allow: (A.Rows, A.Op) -> bool, habit: Habit, s: A.Rows, m: int)
    requires allow(s, A.OpRemove(m)) && GoesThrough(w, s, A.OpRemove(m))
    ensures Performing(w, allow, habit).commits(Views(s), Delta(s, A.Next(w, s, A.OpRemove(m))), {})
  {
    ViewsShow(s);
    assert Performs(w, s, A.OpRemove(m), Views(s), Delta(s, A.Next(w, s, A.OpRemove(m))), {});
  }

  /** What a removal commits of the member removed. */
  lemma RemovalDelta(w: A.Seeds, s: A.Rows, m: int)
    requires GoesThrough(w, s, A.OpRemove(m)) && RemovesSomebody(s, A.OpRemove(m))
    ensures var u, delta := Subject(s.members[m].user.value, s.members[m].org), Delta(s, A.Next(w, s, A.OpRemove(m)));
            u in Views(s) && Views(s)[u] == s.members[m].keys && u in delta && delta[u] == {}
  {
    var u := Subject(s.members[m].user.value, s.members[m].org);
    RemovalTakesAway(w, s, m);
    assert IsMine(s, m, u);
    ViewIs(s, m, u);
    NoSubjectNoView(s, u);
  }

  lemma RemovalAlters(births: bool, u: Subject, rows: map<Subject, set<string>>, delta: map<Subject, set<string>>)
    requires u in rows && rows[u] != {} && u in delta && delta[u] == {}
    ensures Alters(Perms(births), u, rows, delta) && !Reaches(Perms(births), u, {})
    ensures Perms(births).compute(u, Snapshot(Perms(births), rows, u)) == rows[u]
  {
    var d := Perms(births);
    assert Snapshot(d, rows, u)[u] == RowIn(d, rows, u) && Snapshot(d, rows + delta, u)[u] == RowIn(d, rows + delta, u);
  }

  lemma RemovalMisleads(w: A.Seeds, allow: (A.Rows, A.Op) -> bool, s: A.Rows, m: int)
    requires allow(s, A.OpRemove(m)) && GoesThrough(w, s, A.OpRemove(m)) && RemovesSomebody(s, A.OpRemove(m))
    ensures exists rows, steps, u, token :: Misleads(w, allow, rows, steps, u, token)
  {
    var u := Subject(s.members[m].user.value, s.members[m].org);
    RemovalGoesStale(w, allow, LoadsNothingOwn, false, s, m);
    var d, may := Perms(false), Performing(w, allow, LoadsNothingOwn);
    var steps, token :| GoesStale(d, may, Views(s), steps, u, token) && After(d, may, Initial(Views(s)), steps).store[(u, token)].body == s.members[m].keys;
    assert Misleads(w, allow, Views(s), steps, u, token);
  }
}
