/** What the version-counter protocol guarantees over whole runs. */
module CacheCoherence {
  import opened Wrappers
  import opened CacheProtocol

  // ---------------------------------------------------------------- runs

  ghost predicate Run<R(!new), V(!new), K(!new), S(!new), B(!new)>(
    d: Discipline<R, V, K, S, B>, may: Policy<R, V, S>, s: State<R, V, K, S, B>, steps: seq<Step<R, V, K, S, B>>)
    decreases |steps|
  {
    steps == [] || (Enabled(d, s, steps[0]) && Kept(d, may, s, steps[0]) && Run(d, may, Next(d, s, steps[0]), steps[1..]))
  }

  ghost function After<R(!new), V(!new), K(!new), S(!new), B(!new)>(
    d: Discipline<R, V, K, S, B>, may: Policy<R, V, S>, s: State<R, V, K, S, B>, steps: seq<Step<R, V, K, S, B>>): State<R, V, K, S, B>
    requires Run(d, may, s, steps)
    decreases |steps|
  {
    if steps == [] then s else After(d, may, Next(d, s, steps[0]), steps[1..])
  }

  lemma {:induction false} RunKeeps<R(!new), V(!new), K(!new), S(!new), B(!new)>(
    d: Discipline<R, V, K, S, B>, may: Policy<R, V, S>, s: State<R, V, K, S, B>, steps: seq<Step<R, V, K, S, B>>)
    requires Heard(d, may) && !may.habit.Careless? && Good(d, may, s) && Run(d, may, s, steps)
    ensures Good(d, may, After(d, may, s, steps))
    decreases |steps|
  {
    if steps != [] {
      StepKeeps(d, may, s, steps[0]);
      RunKeeps(d, may, Next(d, s, steps[0]), steps[1..]);
    }
  }

  lemma InitialIsGood<R(!new), V(!new), K(!new), S(!new), B(!new)>(d: Discipline<R, V, K, S, B>, may: Policy<R, V, S>, rows: map<R, V>)
    ensures Good(d, may, Initial<R, V, K, S, B>(rows))
  {
  }

  // ---------------------------------------------------------------- coherence

  /** No committed transaction still has to bump a counter that `k` reads. */
  ghost predicate NoDebt<R(!new), V, K, S(!new), B>(d: Discipline<R, V, K, S, B>, s: State<R, V, K, S, B>, k: K) {
    forall wid, c | wid in s.writers && s.writers[wid].committedAt.Some? && c in s.writers[wid].owes :: c !in d.scopes(k)
  }

  lemma {:induction false} UnchangedSince<R(!new), V, K, S, B>(
    d: Discipline<R, V, K, S, B>, log: seq<map<R, V>>, i: nat, j: nat, r: R)
    requires i <= j < |log|
    requires forall c: nat | i < c <= j :: !Changed(d, log, c, r)
    ensures RowIn(d, log[i], r) == RowIn(d, log[j], r)
    decreases j
  {
    if i < j {
      assert !Changed(d, log, j, r);
      UnchangedSince(d, log, i, j - 1, r);
    }
  }

  /** A commit settled with a counter of the key is behind every row read under its current versions. */
  lemma SettledIsSeen<R(!new), V(!new), K(!new), S(!new), B(!new)>(
    d: Discipline<R, V, K, S, B>, s: State<R, V, K, S, B>, k: K, token: seq<nat>, r: R, x: Seen<V>, c: nat)
    requires KeySettled(d, s, c, k) && NoDebt(d, s, k)
    requires Current(d, s, k, token) && SeenRowOk(d, s, k, token, r, x) && !x.own
    ensures c <= x.at
  {
    var scope :| scope in d.scopes(k) && Settled(s, c, scope);
    assert !Owes(s, c, scope);
    var i :| 0 <= i < |d.scopes(k)| && d.scopes(k)[i] == scope;
    assert FloorOf(Floors(s, d.scopes(k)[i]), token[i]) <= x.at;
  }

  /** The key depends on `r`, and no commit since `at` that its readers had to hear of changed it. */
  lemma QuietSince<R(!new), V(!new), K(!new), S(!new), B(!new)>(
    d: Discipline<R, V, K, S, B>, log: seq<map<R, V>>, k: K, r: R, at: nat)
    requires at < |log| && LogGrows(log) && Matters(d, k, r)
    requires forall c: nat | News(d, log, c, k, r) :: c <= at
    ensures RowIn(d, log[at], r) == RowIn(d, log[|log| - 1], r) || (!d.births && r !in log[at])
  {
    if d.births || r in log[at] {
      forall c: nat | at < c <= |log| - 1 ensures !Changed(d, log, c, r) {
        assert log[at].Keys <= log[c - 1].Keys;
        assert !News(d, log, c, k, r);
      }
      UnchangedSince(d, log, at, |log| - 1, r);
    }
  }

  /** A row the key depends on, read under the current versions, is still the committed row, or was
      not there yet and readers need not hear of its birth. */
  lemma SeenIsCommitted<R(!new), V(!new), K(!new), S(!new), B(!new)>(
    d: Discipline<R, V, K, S, B>, s: State<R, V, K, S, B>, k: K, token: seq<nat>, r: R, x: Seen<V>)
    requires CountersOk(s) && LogGrows(s.log) && ChangesOk(d, s) && NoDebt(d, s, k)
    requires Current(d, s, k, token) && Matters(d, k, r) && SeenRowOk(d, s, k, token, r, x) && !x.own
    ensures x.val == RowIn(d, s.log[|s.log| - 1], r) || (!d.births && x.val == d.absent)
  {
    forall c: nat | News(d, s.log, c, k, r) ensures c <= x.at {
      assert KeySettled(d, s, c, k);
      SettledIsSeen(d, s, k, token, r, x, c);
    }
    QuietSince(d, s.log, k, r, x.at);
  }

  /** Rows a key does not depend on may be anything. */
  lemma {:induction false} OnlyWhatMatters<R(!new), V(!new), K(!new), S(!new), B(!new)>(d: Discipline<R, V, K, S, B>, k: K, a: map<R, V>, b: map<R, V>)
    requires a.Keys == d.needs(k) && b.Keys == d.needs(k)
    requires forall r | Matters(d, k, r) :: a[r] == b[r]
    ensures d.compute(k, a) == d.compute(k, b)
    decreases set r | r in d.needs(k) && a[r] != b[r]
  {
    if r :| r in d.needs(k) && a[r] != b[r] {
      assert !Sways(d, k, a, r, b[r]);
      var a' := a[r := b[r]];
      assert (set q | q in d.needs(k) && a'[q] != b[q]) == (set q | q in d.needs(k) && a[q] != b[q]) - {r};
      OnlyWhatMatters(d, k, a', b);
    } else {
      assert a == b;
    }
  }

  /** `full` is the committed rows, but for rows that were not there yet. */
  ghost predicate Recent<R(!new), V(!new), K, S, B>(d: Discipline<R, V, K, S, B>, k: K, full: map<R, V>, rows: map<R, V>) {
    && full.Keys == d.needs(k)
    && forall r | Matters(d, k, r) :: full[r] == RowIn(d, rows, r) || (!d.births && full[r] == d.absent)
  }

  /** The rows behind a body, the committed ones for those that were not read. */
  ghost function Filled<R(!new), V, K, S, B>(d: Discipline<R, V, K, S, B>, k: K, seen: map<R, Seen<V>>, rows: map<R, V>): map<R, V> {
    map r | r in d.needs(k) :: if r in seen then seen[r].val else RowIn(d, rows, r)
  }

  lemma ForcedIsRecent<R(!new), V(!new), K(!new), S(!new), B(!new)>(
    d: Discipline<R, V, K, S, B>, s: State<R, V, K, S, B>, k: K, token: seq<nat>, seen: map<R, Seen<V>>, body: B)
    requires CountersOk(s) && LogGrows(s.log) && ChangesOk(d, s) && NoDebt(d, s, k)
    requires Current(d, s, k, token) && SeenOk(d, s, k, token, seen) && Determined(d, k, seen, body)
    requires forall r | r in seen && Matters(d, k, r) :: !seen[r].own
    ensures var full := Filled(d, k, seen, s.log[|s.log| - 1]);
            Recent(d, k, full, s.log[|s.log| - 1]) && body == d.compute(k, full)
    ensures d.births ==> body == Fresh(d, s, k)
  {
    var rows := s.log[|s.log| - 1];
    var full := Filled(d, k, seen, rows);
    assert Extends(full, seen);
    forall r | Matters(d, k, r) ensures full[r] == RowIn(d, rows, r) || (!d.births && full[r] == d.absent) {
      if r in seen { SeenIsCommitted(d, s, k, token, r, seen[r]); }
    }
    if d.births { OnlyWhatMatters(d, k, full, Snapshot(d, rows, k)); }
  }

  /** Body `e` was cached by a session whose transaction is still open. */
  ghost predicate StillOwn<R, V, K, S, B>(s: State<R, V, K, S, B>, e: Entry<R, V, B>) {
    e.own.Some? && e.own.value in s.writers && s.writers[e.own.value].committedAt.None?
  }

  /** A body stored under the current token is what recent rows give, unless a committed writer still
      owes a bump of a counter the key reads, or the body was cached by a session whose transaction is
      not settled yet and that loads its own rows. */
  lemma StoredBodyIsRecent<R(!new), V(!new), K(!new), S(!new), B(!new)>(
    d: Discipline<R, V, K, S, B>, may: Policy<R, V, S>, rows: map<R, V>, steps: seq<Step<R, V, K, S, B>>, k: K, token: seq<nat>)
    requires Heard(d, may) && !may.habit.Careless? && Run(d, may, Initial(rows), steps)
    requires (k, token) in After(d, may, Initial(rows), steps).store
    requires Current(d, After(d, may, Initial(rows), steps), k, token) && NoDebt(d, After(d, may, Initial(rows), steps), k)
    ensures var s := After(d, may, Initial(rows), steps);
            var e := s.store[(k, token)];
            && |s.log| > 0 && (may.habit.LoadsNothingOwn? ==> !StillOwn(s, e))
            && (StillOwn(s, e) || exists full :: Recent(d, k, full, s.log[|s.log| - 1]) && e.body == d.compute(k, full))
            && (StillOwn(s, e) || !d.births || e.body == Fresh(d, s, k))
  {
    InitialIsGood(d, may, rows);
    RunKeeps(d, may, Initial(rows), steps);
    var s := After(d, may, Initial(rows), steps);
    var e := s.store[(k, token)];
    assert EntryOk(d, s, k, token, e);
    if e.own.None? { ForcedIsRecent(d, s, k, token, e.seen, e.body); }
  }

  /** When readers hear of every change, that is a fresh computation from the committed rows. */
  lemma StoredBodyIsFresh<R(!new), V(!new), K(!new), S(!new), B(!new)>(
    d: Discipline<R, V, K, S, B>, may: Policy<R, V, S>, rows: map<R, V>, steps: seq<Step<R, V, K, S, B>>, k: K, token: seq<nat>)
    requires d.births && Heard(d, may) && !may.habit.Careless? && Run(d, may, Initial(rows), steps)
    requires (k, token) in After(d, may, Initial(rows), steps).store
    requires Current(d, After(d, may, Initial(rows), steps), k, token) && NoDebt(d, After(d, may, Initial(rows), steps), k)
    ensures var s := After(d, may, Initial(rows), steps);
            var e := s.store[(k, token)];
            |s.log| > 0 && (e.body == Fresh(d, s, k) || (may.habit.SparesHits? && StillOwn(s, e)))
  {
    StoredBodyIsRecent(d, may, rows, steps, k, token);
  }

  /** The same for the value a reader still holds: under the current token it can only store
      (and return) a fresh body. */
  lemma HeldBodyIsFresh<R(!new), V(!new), K(!new), S(!new), B(!new)>(
    d: Discipline<R, V, K, S, B>, may: Policy<R, V, S>, rows: map<R, V>, steps: seq<Step<R, V, K, S, B>>, rid: nat, body: B)
    requires d.births && Heard(d, may) && !may.habit.Careless? && Run(d, may, Initial(rows), steps)
    requires rid in After(d, may, Initial(rows), steps).readers
    requires Enabled(d, After(d, may, Initial(rows), steps), Store(rid, body))
    requires may.habit.LoadsNothingOwn? || After(d, may, Initial(rows), steps).readers[rid].session.None?
    requires var s := After(d, may, Initial(rows), steps);
             var x := s.readers[rid];
             Current(d, s, x.key, x.token) && NoDebt(d, s, x.key)
    ensures var s := After(d, may, Initial(rows), steps); |s.log| > 0 && body == Fresh(d, s, s.readers[rid].key)
  {
    InitialIsGood(d, may, rows);
    RunKeeps(d, may, Initial(rows), steps);
    var s := After(d, may, Initial(rows), steps);
    var x := s.readers[rid];
    assert ReaderOk(d, s, x);
    ForcedIsRecent(d, s, x.key, x.token, x.seen, body);
  }

  // ---------------------------------------------------------------- a read is never older than the bumps before it

  /** Reader `rid` is neither started nor finished by `t`. */
  predicate Spares<R, V, K, S, B>(t: Step<R, V, K, S, B>, rid: nat) {
    match t
    case Begin(o, _, _) => o != rid
    case Hit(o) => o != rid
    case Store(o, _) => o != rid
    case Drop(o) => o != rid
    case _ => true
  }

  lemma {:induction false} ReaderPersists<R(!new), V(!new), K(!new), S(!new), B(!new)>(
    d: Discipline<R, V, K, S, B>, may: Policy<R, V, S>, s: State<R, V, K, S, B>, steps: seq<Step<R, V, K, S, B>>, rid: nat)
    requires Run(d, may, s, steps) && rid in s.readers && forall t | t in steps :: Spares(t, rid)
    ensures var x, s' := s.readers[rid], After(d, may, s, steps);
            rid in s'.readers && s'.readers[rid].key == x.key && s'.readers[rid].base == x.base && s'.readers[rid].session == x.session
    decreases |steps|
  {
    if steps != [] {
      var s1 := Next(d, s, steps[0]);
      assert Spares(steps[0], rid);
      assert rid in s1.readers && s1.readers[rid].base == s.readers[rid].base && s1.readers[rid].key == s.readers[rid].key
             && s1.readers[rid].session == s.readers[rid].session;
      ReaderPersists(d, may, s1, steps[1..], rid);
    }
  }

  /** The rows behind the body a reader is about to return. */
  ghost function Evidence<R(!new), V(!new), K(!new), S(!new), B(!new)>(
    d: Discipline<R, V, K, S, B>, s: State<R, V, K, S, B>, t: Step<R, V, K, S, B>): (seen: map<R, Seen<V>>)
    requires Enabled(d, s, t) && (t.Hit? || t.Store?)
  {
    var x := s.readers[t.rid];
    if t.Hit? then s.store[(x.key, x.token)].seen else x.seen
  }

  ghost function Returned<R(!new), V(!new), K(!new), S(!new), B(!new)>(
    d: Discipline<R, V, K, S, B>, s: State<R, V, K, S, B>, t: Step<R, V, K, S, B>): B
    requires Enabled(d, s, t) && (t.Hit? || t.Store?)
  {
    if t.Hit? then s.store[(s.readers[t.rid].key, s.readers[t.rid].token)].body else t.body
  }

  /** Take a commit `c` that is news to `k`. If no bump of it is owed to a counter of `k` when a
      read of `k` begins, then however the read interleaves with everything else, the value it returns
      is forced by rows none of which predates `c`: each is the committed one at some commit
      `at >= c` (or an uncommitted row of a session still holding it). */
  lemma NeverOlderThanTheBump<R(!new), V(!new), K(!new), S(!new), B(!new)>(
    d: Discipline<R, V, K, S, B>, may: Policy<R, V, S>, rows: map<R, V>, before: seq<Step<R, V, K, S, B>>,
    rid: nat, k: K, session: Option<nat>, during: seq<Step<R, V, K, S, B>>, last: Step<R, V, K, S, B>, c: nat, r: R)
    requires Heard(d, may) && !may.habit.Careless? && Run(d, may, Initial(rows), before)
    requires Run(d, may, After(d, may, Initial(rows), before), [Begin(rid, k, session)])
    requires Run(d, may, Next(d, After(d, may, Initial(rows), before), Begin(rid, k, session)), during)
    requires forall t | t in during :: Spares(t, rid)
    requires (last.Hit? || last.Store?) && last.rid == rid
    requires Enabled(d, After(d, may, Next(d, After(d, may, Initial(rows), before), Begin(rid, k, session)), during), last)
    requires var s0 := After(d, may, Initial(rows), before);
             News(d, s0.log, c, k, r) && forall scope | scope in d.scopes(k) :: !Owes(s0, c, scope)
    ensures var s := After(d, may, Next(d, After(d, may, Initial(rows), before), Begin(rid, k, session)), during);
            var seen := Evidence(d, s, last);
            && Determined(d, k, seen, Returned(d, s, last))
            && forall q | q in seen && !seen[q].own :: c <= seen[q].at < |s.log| && seen[q].val == RowIn(d, s.log[seen[q].at], q)
  {
    InitialIsGood(d, may, rows);
    RunKeeps(d, may, Initial(rows), before);
    var s0 := After(d, may, Initial(rows), before);
    var s1 := Next(d, s0, Begin(rid, k, session));
    StepKeeps(d, may, s0, Begin(rid, k, session));
    assert KeySettled(d, s0, c, k);
    var scope :| scope in d.scopes(k) && Settled(s0, c, scope);
    var i :| 0 <= i < |d.scopes(k)| && d.scopes(k)[i] == scope;
    assert c <= s1.readers[rid].base[i];
    RunKeeps(d, may, s1, during);
    ReaderPersists(d, may, s1, during, rid);
    ReturnsAfter(d, After(d, may, s1, during), last, i, c);
  }

  /** A reader whose `i`-th counter had passed commit `c` when it began returns nothing older. */
  lemma ReturnsAfter<R(!new), V(!new), K(!new), S(!new), B(!new)>(
    d: Discipline<R, V, K, S, B>, s: State<R, V, K, S, B>, last: Step<R, V, K, S, B>, i: nat, c: nat)
    requires Inv(d, s) && (last.Hit? || last.Store?) && Enabled(d, s, last)
    requires i < |d.scopes(s.readers[last.rid].key)| && i < |s.readers[last.rid].base| && c <= s.readers[last.rid].base[i]
    ensures var k, seen := s.readers[last.rid].key, Evidence(d, s, last);
            && Determined(d, k, seen, Returned(d, s, last))
            && forall q | q in seen && !seen[q].own :: c <= seen[q].at < |s.log| && seen[q].val == RowIn(d, s.log[seen[q].at], q)
  {
    var x, seen := s.readers[last.rid], Evidence(d, s, last);
    assert ReaderOk(d, s, x);
    assert x.base[i] <= FloorOf(Floors(s, d.scopes(x.key)[i]), x.token[i]);
    if last.Hit? { assert EntryOk(d, s, x.key, x.token, s.store[(x.key, x.token)]); }
    assert SeenOk(d, s, x.key, x.token, seen);
    forall q | q in seen && !seen[q].own ensures c <= seen[q].at < |s.log| && seen[q].val == RowIn(d, s.log[seen[q].at], q) {
      assert SeenRowOk(d, s, x.key, x.token, q, seen[q]);
    }
  }
}
