/**
 Feature flags over the scoped cache: a flag decision depends on the flag row, an org override
 and a user override, and is cached under the versions of three counters.
 */
module FeatureFlags {
  import opened Wrappers
  import opened CacheProtocol
  import opened CacheCoherence
  import opened CacheNecessity

  /** One SELECT's worth of rows. */
  datatype Row = FlagDef(flag: string) | OrgOverride(flag: string, org: string) | UserOverride(flag: string, user: string)

  datatype Val = Absent | Flag(enabled: bool, rollout: Option<int>) | Override(on: bool)

  datatype Key = Key(flag: string, org: Option<string>, user: Option<string>)

  datatype Scope = All | OrgScope(org: Option<string>) | UserScope(user: Option<string>)

  const BUCKETS := 10_000

  /** `bucket` stands for the hash of (flag, identifier); it is any function into 0..BUCKETS-1. */
  function InRollout(bucket: (string, string) -> nat, flag: string, id: string, percentage: int): bool {
    bucket(flag, id) < (BUCKETS * percentage) / 100
  }

  function Guard(r: Row): Scope {
    match r
    case FlagDef(_) => All
    case OrgOverride(_, org) => OrgScope(Some(org))
    case UserOverride(_, user) => UserScope(Some(user))
  }

  function Scopes(k: Key): seq<Scope> {
    [All, OrgScope(k.org), UserScope(k.user)]
  }

  function Needs(k: Key): set<Row> {
    {FlagDef(k.flag)}
    + (if k.user.Some? then {UserOverride(k.flag, k.user.value)} else {})
    + (if k.org.Some? then {OrgOverride(k.flag, k.org.value)} else {})
  }

  function Identifier(k: Key): string {
    if k.user.Some? && k.user.value != "" then k.user.value
    else if k.org.Some? && k.org.value != "" then k.org.value
    else "anonymous"
  }

  /** The declared meaning: unknown flags are off, the user's override beats the org's, which
      beats the rollout, which beats the flag's own switch. */
  function Decide(bucket: (string, string) -> nat, k: Key, rows: map<Row, Val>): bool {
    var get := (r: Row) => if r in rows then rows[r] else Absent;
    if !get(FlagDef(k.flag)).Flag? then false
    else if k.user.Some? && get(UserOverride(k.flag, k.user.value)).Override? then get(UserOverride(k.flag, k.user.value)).on
    else if k.org.Some? && get(OrgOverride(k.flag, k.org.value)).Override? then get(OrgOverride(k.flag, k.org.value)).on
    else match get(FlagDef(k.flag)).rollout
      case Some(p) => InRollout(bucket, k.flag, Identifier(k), p)
      case None => get(FlagDef(k.flag)).enabled
  }

  /** Whether `rows` hold an override at `r`, and which way. */
  predicate Overrides(rows: map<Row, Val>, r: Row, on: bool) { r in rows && rows[r] == Override(on) }

  /** A live flag without an override for the key's user or organization. */
  predicate Plain(k: Key, rows: map<Row, Val>, enabled: bool, rollout: Option<int>) {
    && FlagDef(k.flag) in rows && rows[FlagDef(k.flag)] == Flag(enabled, rollout)
    && (k.user.Some? ==> forall on: bool :: !Overrides(rows, UserOverride(k.flag, k.user.value), on))
    && (k.org.Some? ==> forall on: bool :: !Overrides(rows, OrgOverride(k.flag, k.org.value), on))
  }

  /** Who decides: nobody without a flag row; with one the user's override, whatever else is set; without
      that the organization's; and without either, the rollout if there is one, else the switch. */
  lemma WhoDecides(bucket: (string, string) -> nat, k: Key, rows: map<Row, Val>, enabled: bool, rollout: Option<int>, on: bool)
    ensures (FlagDef(k.flag) in rows ==> !rows[FlagDef(k.flag)].Flag?) ==> !Decide(bucket, k, rows)
    ensures FlagDef(k.flag) in rows && rows[FlagDef(k.flag)].Flag? && k.user.Some? && Overrides(rows, UserOverride(k.flag, k.user.value), on)
            ==> Decide(bucket, k, rows) == on
    ensures FlagDef(k.flag) in rows && rows[FlagDef(k.flag)].Flag? && k.org.Some? && Overrides(rows, OrgOverride(k.flag, k.org.value), on)
            && (k.user.None? || !Overrides(rows, UserOverride(k.flag, k.user.value), !on))
            ==> Decide(bucket, k, rows) == on
    ensures Plain(k, rows, enabled, None) ==> Decide(bucket, k, rows) == enabled
    ensures Plain(k, rows, enabled, rollout) && rollout.Some? ==> Decide(bucket, k, rows) == InRollout(bucket, k.flag, Identifier(k), rollout.value)
  {
    if k.user.Some? {
      var r := UserOverride(k.flag, k.user.value);
      assert forall rs: map<Row, Val> | r in rs && rs[r].Override? :: Overrides(rs, r, rs[r].on);
    }
    if k.org.Some? {
      var r := OrgOverride(k.flag, k.org.value);
      assert forall rs: map<Row, Val> | r in rs && rs[r].Override? :: Overrides(rs, r, rs[r].on);
    }
  }

  /** Raising a rollout takes nobody out; at 0 nobody is in, at 100 everybody, whatever the hash. */
  lemma RolloutGrows(bucket: (string, string) -> nat, flag: string, id: string, lower: int, upper: int)
    requires lower <= upper && bucket(flag, id) < BUCKETS
    ensures InRollout(bucket, flag, id, lower) ==> InRollout(bucket, flag, id, upper)
    ensures !InRollout(bucket, flag, id, 0) && InRollout(bucket, flag, id, 100)
  {
  }

  ghost function Flags(bucket: (string, string) -> nat): Discipline<Row, Val, Key, Scope, bool> {
    Discipline(Scopes, Needs, Absent, (k: Key, rows: map<Row, Val>) => Decide(bucket, k, rows), true)
  }

  lemma FlagsCovered(bucket: (string, string) -> nat)
    ensures forall k, r | r in Needs(k) :: Guard(r) in Scopes(k)
    ensures Covering(Flags(bucket), Guard)
  {
    forall k: Key, r: Row | r in Needs(k) ensures Guard(r) in Scopes(k) {
      match r
      case FlagDef(_) => assert Scopes(k)[0] == Guard(r);
      case OrgOverride(_, _) => assert Scopes(k)[1] == Guard(r);
      case UserOverride(_, _) => assert Scopes(k)[2] == Guard(r);
    }
  }

  /** A counter is queued once, in the order of first request. */
  function Queued(queue: seq<Scope>, scope: Scope): seq<Scope> {
    if scope in queue then queue else queue + [scope]
  }

  /** A session of the flag service: its view of the flag and override rows, and the counters it
      has bumped and queued to bump again after the commit. */
  class FeatureFlagService {
    var rows: map<Row, Val>
    var archived: set<string>
    var queued: seq<Scope>
    ghost var start: map<Row, Val>

    constructor (rows: map<Row, Val>, archived: set<string>)
      ensures this.rows == rows && start == rows && queued == [] && this.archived == archived
    {
      this.rows, start, queued, this.archived := rows, rows, [], archived;
    }

    function Value(r: Row): Val
      reads this
    {
      if r in rows && !(r.FlagDef? && r.flag in archived) then rows[r] else Absent
    }

    /** Every row this session changed has its counter queued, so the session may commit. */
    ghost predicate Disciplined()
      reads this
    {
      forall r :: (r in rows) != (r in start) || (r in rows && rows[r] != start[r]) ==> Guard(r) in queued
    }

    method Invalidate(scope: Scope)
      modifies this`queued
      ensures queued == Queued(old(queued), scope)
    {
      if scope !in queued { queued := queued + [scope]; }
    }

    /** A key that is taken, live or archived, is refused (the key column is unique). */
    method CreateFlag(key: string, enabled: bool, rollout: Option<int>) returns (ok: bool)
      requires Disciplined()
      modifies this`rows, this`queued
      ensures Disciplined()
      ensures ok == (FlagDef(key) !in old(rows))
      ensures !ok ==> rows == old(rows) && queued == old(queued)
      ensures ok ==> rows == old(rows)[FlagDef(key) := Flag(enabled, rollout)] && queued == Queued(old(queued), All)
    {
      ok := FlagDef(key) !in rows;
      if ok {
        rows := rows[FlagDef(key) := Flag(enabled, rollout)];
        Invalidate(All);
      }
    }

    method UpdateFlag(key: string, enabled: Option<bool>, rollout: Option<int>) returns (ok: bool)
      requires Disciplined()
      modifies this`rows, this`queued
      ensures Disciplined()
      ensures ok == old(Value(FlagDef(key))).Flag?
      ensures !ok ==> rows == old(rows) && queued == old(queued)
      ensures ok ==> var f := old(rows)[FlagDef(key)];
                     rows == old(rows)[FlagDef(key) := Flag(if enabled.Some? then enabled.value else f.enabled,
                                                            if rollout.Some? then rollout else f.rollout)]
      ensures ok ==> queued == Queued(old(queued), All)
    {
      ok := Value(FlagDef(key)).Flag?;
      if ok {
        var f := rows[FlagDef(key)];
        if enabled.Some? { f := f.(enabled := enabled.value); }
        if rollout.Some? { f := f.(rollout := rollout); }
        rows := rows[FlagDef(key) := f];
        Invalidate(All);
      }
    }

    method SetOverride(flag: string, org: Option<string>, user: Option<string>, on: bool) returns (ok: bool)
      requires Disciplined()
      modifies this`rows, this`queued
      ensures Disciplined()
      ensures ok == (old(Value(FlagDef(flag))).Flag? && org.Some? != user.Some?)
      ensures !ok ==> rows == old(rows) && queued == old(queued)
      ensures ok && user.Some? ==> rows == old(rows)[UserOverride(flag, user.value) := Override(on)]
      ensures ok && org.Some? ==> rows == old(rows)[OrgOverride(flag, org.value) := Override(on)]
      ensures ok ==> queued == Queued(old(queued), if user.Some? then UserScope(user) else OrgScope(org))
    {
      ok := Value(FlagDef(flag)).Flag? && org.Some? != user.Some?;
      if ok {
        if user.Some? {
          rows := rows[UserOverride(flag, user.value) := Override(on)];
        } else {
          rows := rows[OrgOverride(flag, org.value) := Override(on)];
        }
        BumpScope(org, user);
      }
    }

    method DeleteOverride(r: Row) returns (ok: bool)
      requires Disciplined() && !r.FlagDef?
      modifies this`rows, this`queued
      ensures Disciplined()
      ensures ok == (r in old(rows)) && rows == old(rows) - {r}
      ensures queued == if ok then Queued(old(queued), Guard(r)) else old(queued)
    {
      ok := r in rows;
      if ok {
        rows := rows - {r};
        BumpScope(if r.OrgOverride? then Some(r.org) else None, if r.UserOverride? then Some(r.user) else None);
      } else {
        assert rows == rows - {r};
      }
    }

    method BumpScope(org: Option<string>, user: Option<string>)
      modifies this`queued
      ensures queued == (var first := if org.Some? then Queued(old(queued), OrgScope(org)) else old(queued);
                         if user.Some? then Queued(first, UserScope(user)) else first)
    {
      if org.Some? { Invalidate(OrgScope(org)); }
      if user.Some? { Invalidate(UserScope(user)); }
    }

    /** The load after a miss: one SELECT at a time, stopping as soon as the answer is known.
        What it read forces the answer whatever the unread rows hold. */
    method Evaluate(bucket: (string, string) -> nat, k: Key) returns (on: bool, ghost seen: map<Row, Seen<Val>>)
      ensures on == Decide(bucket, k, map r | r in Needs(k) :: Value(r))
      ensures seen.Keys <= Needs(k) && forall r | r in seen :: seen[r].val == Value(r)
      ensures Determined(Flags(bucket), k, seen, on)
    {
      var flag := Value(FlagDef(k.flag));
      seen := map[FlagDef(k.flag) := Seen(flag, 0, false)];
      if !flag.Flag? { return false, seen; }
      if k.user.Some? {
        var o := Value(UserOverride(k.flag, k.user.value));
        seen := seen[UserOverride(k.flag, k.user.value) := Seen(o, 0, false)];
        if o.Override? { return o.on, seen; }
      }
      if k.org.Some? {
        var o := Value(OrgOverride(k.flag, k.org.value));
        seen := seen[OrgOverride(k.flag, k.org.value) := Seen(o, 0, false)];
        if o.Override? { return o.on, seen; }
      }
      match flag.rollout {
        case Some(p) => on := InRollout(bucket, k.flag, Identifier(k), p);
        case None => on := flag.enabled;
      }
    }
  }

  /** A session that kept `Disciplined` may take the protocol's commit step. */
  lemma DisciplinedSessionsMayCommit(
    bucket: (string, string) -> nat, habit: Habit, s: State<Row, Val, Key, Scope, bool>, wid: nat, svc: FeatureFlagService)
    requires Enabled(Flags(bucket), s, Commit(wid))
    requires svc.Disciplined() && s.writers[wid].owes == svc.queued
    requires forall r | r in s.writers[wid].delta :: (r in svc.rows) != (r in svc.start) || (r in svc.rows && svc.rows[r] != svc.start[r])
    ensures Kept(Flags(bucket), Guarding(Guard, habit), s, Commit(wid))
  {
    assert forall r | r in s.writers[wid].delta :: Guard(r) in svc.queued;
  }

  /** Once no bump is owed and no session is open, a hit under the current versions of the three
      counters is the decision the committed rows give. */
  lemma FlagHitIsTheDecision(
    bucket: (string, string) -> nat, habit: Habit, rows: map<Row, Val>, steps: seq<Step<Row, Val, Key, Scope, bool>>, k: Key, token: seq<nat>)
    requires !habit.Careless? && Run(Flags(bucket), Guarding(Guard, habit), Initial(rows), steps)
    requires var s := After(Flags(bucket), Guarding(Guard, habit), Initial(rows), steps);
             && (k, token) in s.store && Current(Flags(bucket), s, k, token) && s.writers == map[]
    ensures var s := After(Flags(bucket), Guarding(Guard, habit), Initial(rows), steps);
            |s.log| > 0 && s.store[(k, token)].body == Decide(bucket, k, s.log[|s.log| - 1])
  {
    var d, may := Flags(bucket), Guarding<Row, Val, Scope>(Guard, habit);
    FlagsCovered(bucket);
    CoveringIsHeard(d, Guard, habit);
    StoredBodyIsFresh(d, may, rows, steps, k, token);
    DecideReadsOnlyNeeds(bucket, k, After(d, may, Initial(rows), steps).log[|After(d, may, Initial(rows), steps).log| - 1]);
  }

  lemma DecideReadsOnlyNeeds(bucket: (string, string) -> nat, k: Key, rows: map<Row, Val>)
    ensures Decide(bucket, k, Snapshot(Flags(bucket), rows, k)) == Decide(bucket, k, rows)
  {
    var snap := Snapshot(Flags(bucket), rows, k);
    assert forall r | r in Needs(k) :: r in snap && snap[r] == RowIn(Flags(bucket), rows, r);
  }
}
