/** What the cache protocol asks of its callers is not only enough but needed. */
module CacheNecessity {
  import opened Wrappers
  import opened CacheProtocol
  import opened CacheCoherence

  /** After the run, with no transaction open and no bump owed, a hit under the current versions
      would return something else than the committed rows give. */
  ghost predicate GoesStale<R(!new), V(!new), K(!new), S(!new), B(!new)>(
    d: Discipline<R, V, K, S, B>, may: Policy<R, V, S>, rows: map<R, V>, steps: seq<Step<R, V, K, S, B>>, k: K, token: seq<nat>)
  {
    Run(d, may, Initial(rows), steps) && HitIsStale(d, After(d, may, Initial(rows), steps), k, token)
  }

  ghost predicate HitIsStale<R(!new), V(!new), K(!new), S(!new), B(!new)>(
    d: Discipline<R, V, K, S, B>, s: State<R, V, K, S, B>, k: K, token: seq<nat>)
  {
    && |s.log| > 0 && s.writers == map[]
    && (k, token) in s.store && Current(d, s, k, token)
    && s.store[(k, token)].body != Fresh(d, s, k)
  }

  /** Committing `delta` over `rows` changes what `k` computes to. */
  ghost predicate Alters<R(!new), V, K, S, B>(d: Discipline<R, V, K, S, B>, k: K, rows: map<R, V>, delta: map<R, V>) {
    d.compute(k, Snapshot(d, rows, k)) != d.compute(k, Snapshot(d, rows + delta, k))
  }

  /** Committing `delta` can change what `k` computes to. */
  ghost predicate CanAlter<R(!new), V(!new), K, S, B>(d: Discipline<R, V, K, S, B>, k: K, delta: map<R, V>) {
    exists rows: map<R, V> :: Alters(d, k, rows, delta)
  }

  /** One more step at the front. */
  lemma RunCons<R(!new), V(!new), K(!new), S(!new), B(!new)>(
    d: Discipline<R, V, K, S, B>, may: Policy<R, V, S>, s: State<R, V, K, S, B>, t: Step<R, V, K, S, B>, rest: seq<Step<R, V, K, S, B>>)
    requires Enabled(d, s, t) && Kept(d, may, s, t) && Run(d, may, Next(d, s, t), rest)
    ensures Run(d, may, s, [t] + rest) && After(d, may, s, [t] + rest) == After(d, may, Next(d, s, t), rest)
  {
    assert ([t] + rest)[1..] == rest;
  }

  lemma {:induction false} RunConcat<R(!new), V(!new), K(!new), S(!new), B(!new)>(
    d: Discipline<R, V, K, S, B>, may: Policy<R, V, S>, s: State<R, V, K, S, B>, a: seq<Step<R, V, K, S, B>>, b: seq<Step<R, V, K, S, B>>)
    requires Run(d, may, s, a) && Run(d, may, After(d, may, s, a), b)
    ensures Run(d, may, s, a + b) && After(d, may, s, a + b) == After(d, may, After(d, may, s, a), b)
    decreases |a|
  {
    if a == [] {
      assert a + b == b;
    } else {
      RunConcat(d, may, Next(d, s, a[0]), a[1..], b);
      RunCons(d, may, s, a[0], a[1..] + b);
      assert a + b == [a[0]] + (a[1..] + b);
    }
  }

  // ---------------------------------------------------------------- a reader that fills the cache

  /** The versions a reader of `k` sees if nothing else moves. */
  ghost function Versions<R, V, K, S, B>(d: Discipline<R, V, K, S, B>, s: State<R, V, K, S, B>, k: K): seq<nat> {
    seq(|d.scopes(k)|, i requires 0 <= i < |d.scopes(k)| => Version(s, d.scopes(k)[i]))
  }

  lemma {:induction false} ReadVersions<R(!new), V(!new), K(!new), S(!new), B(!new)>(
    d: Discipline<R, V, K, S, B>, may: Policy<R, V, S>, s: State<R, V, K, S, B>, x: Reader<R, V, K>) returns (steps: seq<Step<R, V, K, S, B>>)
    requires |s.log| > 0 && 0 in s.readers && s.readers[0] == x && x.token <= Versions(d, s, x.key)
    ensures Run(d, may, s, steps)
    ensures After(d, may, s, steps) == s.(readers := s.readers[0 := x.(token := Versions(d, s, x.key))])
    decreases |d.scopes(x.key)| - |x.token|
  {
    var all := Versions(d, s, x.key);
    if |x.token| == |all| {
      steps := [];
      assert x.token == all;
      assert s.readers == s.readers[0 := x];
    } else {
      var t: Step<R, V, K, S, B> := ReadVersion(0);
      var s1 := Next(d, s, t);
      assert s1.readers[0].token == all[..|x.token| + 1];
      assert Versions(d, s1, x.key) == all;
      var rest := ReadVersions(d, may, s1, s1.readers[0]);
      RunCons(d, may, s, t, rest);
      steps := [t] + rest;
    }
  }

  ghost function AllSeen<R(!new), V, K, S, B>(d: Discipline<R, V, K, S, B>, s: State<R, V, K, S, B>, session: Option<nat>, k: K): map<R, Seen<V>>
    requires |s.log| > 0
  {
    map r | r in d.needs(k) :: Look(d, s, session, r)
  }

  /** What the reader computes: the committed rows, its own session's uncommitted ones over them. */
  ghost function Viewed<R(!new), V, K, S, B>(d: Discipline<R, V, K, S, B>, s: State<R, V, K, S, B>, session: Option<nat>, k: K): map<R, V>
    requires |s.log| > 0
  {
    map r | r in d.needs(k) :: Look(d, s, session, r).val
  }

  /** A reader outside any session, or in one that may load its own rows. */
  ghost predicate MayLoad<R, V, S>(may: Policy<R, V, S>, session: Option<nat>) {
    session.None? || !may.habit.LoadsNothingOwn?
  }

  lemma LoadOne<R(!new), V(!new), K(!new), S(!new), B(!new)>(
    d: Discipline<R, V, K, S, B>, may: Policy<R, V, S>, s: State<R, V, K, S, B>, x: Reader<R, V, K>, r: R)
    requires |s.log| > 0 && 0 in s.readers && s.readers[0] == x && x.loading && r in d.needs(x.key) && r !in x.seen
    requires MayLoad(may, x.session)
    ensures Enabled(d, s, Load(0, r)) && Kept(d, may, s, Load(0, r))
    ensures Next(d, s, Load(0, r)) == s.(readers := s.readers[0 := x.(seen := x.seen[r := Look(d, s, x.session, r)])])
  {
  }

  lemma OneRowLess<R(!new), V>(needs: set<R>, seen: map<R, V>, r: R, v: V)
    requires r in needs && r !in seen && seen.Keys <= needs
    ensures needs - seen[r := v].Keys < needs - seen.Keys && seen[r := v].Keys <= needs
  {
    assert needs - seen[r := v].Keys == (needs - seen.Keys) - {r};
  }

  /** What is read does not depend on who is reading. */
  lemma LooksTheSame<R(!new), V(!new), K(!new), S(!new), B(!new)>(
    d: Discipline<R, V, K, S, B>, s: State<R, V, K, S, B>, readers: map<nat, Reader<R, V, K>>, session: Option<nat>, k: K)
    requires |s.log| > 0
    ensures forall r :: Look(d, s.(readers := readers), session, r) == Look(d, s, session, r)
    ensures AllSeen(d, s.(readers := readers), session, k) == AllSeen(d, s, session, k)
  {
  }

  lemma {:induction false} LoadRows<R(!new), V(!new), K(!new), S(!new), B(!new)>(
    d: Discipline<R, V, K, S, B>, may: Policy<R, V, S>, s: State<R, V, K, S, B>, x: Reader<R, V, K>) returns (steps: seq<Step<R, V, K, S, B>>)
    requires |s.log| > 0 && 0 in s.readers && s.readers[0] == x && x.loading && MayLoad(may, x.session)
    requires x.seen.Keys <= d.needs(x.key) && forall r | r in x.seen :: x.seen[r] == Look(d, s, x.session, r)
    ensures Run(d, may, s, steps)
    ensures After(d, may, s, steps) == s.(readers := s.readers[0 := x.(seen := AllSeen(d, s, x.session, x.key))])
    decreases d.needs(x.key) - x.seen.Keys
  {
    if x.seen.Keys == d.needs(x.key) {
      steps := [];
      assert x.seen == AllSeen(d, s, x.session, x.key);
      assert s.readers == s.readers[0 := x];
    } else {
      var r :| r in d.needs(x.key) && r !in x.seen;
      var t: Step<R, V, K, S, B> := Load(0, r);
      LoadOne(d, may, s, x, r);
      var x1 := x.(seen := x.seen[r := Look(d, s, x.session, r)]);
      var s1 := s.(readers := s.readers[0 := x1]);
      OneRowLess(d.needs(x.key), x.seen, r, Look(d, s, x.session, r));
      LooksTheSame(d, s, s.readers[0 := x1], x.session, x.key);
      var rest := LoadRows(d, may, s1, x1);
      RunCons(d, may, s, t, rest);
      steps := [t] + rest;
    }
  }

  /** From the lookup on: miss, load every row, store. */
  lemma MissAndStore<R(!new), V(!new), K(!new), S(!new), B(!new)>(
    d: Discipline<R, V, K, S, B>, may: Policy<R, V, S>, s: State<R, V, K, S, B>, x: Reader<R, V, K>) returns (steps: seq<Step<R, V, K, S, B>>)
    requires |s.log| > 0 && s.readers == map[0 := x] && AtLookup(d, s, 0) && x.seen == map[] && s.store == map[] && MayLoad(may, x.session)
    ensures Run(d, may, s, steps)
    ensures var s' := After(d, may, s, steps);
            && s'.log == s.log && s'.floors == s.floors && s'.writers == s.writers && s'.readers == map[]
            && (x.key, x.token) in s'.store && s'.store[(x.key, x.token)].body == d.compute(x.key, Viewed(d, s, x.session, x.key))
  {
    var miss: Step<R, V, K, S, B> := Miss(0);
    var s3 := Next(d, s, miss);
    var loads := LoadRows(d, may, s3, s3.readers[0]);
    var s4 := After(d, may, s3, loads);
    var body := d.compute(x.key, Viewed(d, s, x.session, x.key));
    var store: Step<R, V, K, S, B> := Store(0, body);
    assert AllSeen(d, s3, x.session, x.key) == AllSeen(d, s, x.session, x.key);
    ForcedByAll(d, s, x.session, x.key);
    var s5 := Next(d, s4, store);
    assert s5.readers == map[];
    assert Run(d, may, s5, []);
    RunCons(d, may, s4, store, []);
    RunConcat(d, may, s3, loads, [store] + []);
    RunCons(d, may, s, miss, loads + ([store] + []));
    steps := [miss] + (loads + ([store] + []));
  }

  /** From its first version read to the store. */
  lemma ReadAndStore<R(!new), V(!new), K(!new), S(!new), B(!new)>(
    d: Discipline<R, V, K, S, B>, may: Policy<R, V, S>, s: State<R, V, K, S, B>, x: Reader<R, V, K>) returns (steps: seq<Step<R, V, K, S, B>>)
    requires |s.log| > 0 && s.readers == map[0 := x] && x.token == [] && !x.loading && x.seen == map[] && s.store == map[] && MayLoad(may, x.session)
    ensures Run(d, may, s, steps)
    ensures var s' := After(d, may, s, steps); var token := Versions(d, s, x.key);
            && s'.log == s.log && s'.floors == s.floors && s'.writers == s.writers && s'.readers == map[]
            && (x.key, token) in s'.store && s'.store[(x.key, token)].body == d.compute(x.key, Viewed(d, s, x.session, x.key))
  {
    var versions := ReadVersions(d, may, s, x);
    var x2 := x.(token := Versions(d, s, x.key));
    var s2 := s.(readers := s.readers[0 := x2]);
    assert s2.readers == map[0 := x2];
    var rest := MissAndStore(d, may, s2, x2);
    assert Viewed(d, s2, x.session, x.key) == Viewed(d, s, x.session, x.key);
    RunConcat(d, may, s, versions, rest);
    steps := versions + rest;
  }

  /** A reader that misses leaves the body it computed under the versions it read. */
  lemma Fill<R(!new), V(!new), K(!new), S(!new), B(!new)>(
    d: Discipline<R, V, K, S, B>, may: Policy<R, V, S>, s: State<R, V, K, S, B>, session: Option<nat>, k: K) returns (steps: seq<Step<R, V, K, S, B>>)
    requires |s.log| > 0 && s.readers == map[] && s.store == map[] && MayLoad(may, session)
    requires session.Some? ==> session.value in s.writers && s.writers[session.value].committedAt.None?
    ensures Run(d, may, s, steps)
    ensures var s' := After(d, may, s, steps); var token := Versions(d, s, k);
            && s'.log == s.log && s'.floors == s.floors && s'.writers == s.writers && s'.readers == map[]
            && (k, token) in s'.store && s'.store[(k, token)].body == d.compute(k, Viewed(d, s, session, k))
  {
    var begin: Step<R, V, K, S, B> := Begin(0, k, session);
    var s1 := Next(d, s, begin);
    var x := s1.readers[0];
    assert s1.readers == map[0 := x];
    assert Versions(d, s1, k) == Versions(d, s, k) && Viewed(d, s1, session, k) == Viewed(d, s, session, k);
    var rest := ReadAndStore(d, may, s1, x);
    RunCons(d, may, s, begin, rest);
    steps := [begin] + rest;
  }

  lemma ForcedByAll<R(!new), V(!new), K(!new), S(!new), B(!new)>(
    d: Discipline<R, V, K, S, B>, s: State<R, V, K, S, B>, session: Option<nat>, k: K)
    requires |s.log| > 0
    ensures Determined(d, k, AllSeen(d, s, session, k), d.compute(k, Viewed(d, s, session, k)))
  {
    var seen := AllSeen(d, s, session, k);
    forall full: map<R, V> | full.Keys == d.needs(k) && Extends(full, seen) ensures d.compute(k, full) == d.compute(k, Viewed(d, s, session, k)) {
      assert forall r | r in d.needs(k) :: full[r] == seen[r].val;
      assert full == Viewed(d, s, session, k);
    }
  }

  // ---------------------------------------------------------------- a writer

  /** One session stages `delta` row by row. */
  lemma {:induction false} StageRows<R(!new), V(!new), K(!new), S(!new), B(!new)>(
    d: Discipline<R, V, K, S, B>, may: Policy<R, V, S>, s: State<R, V, K, S, B>, delta: map<R, V>, todo: set<R>) returns (steps: seq<Step<R, V, K, S, B>>)
    requires |s.log| > 0 && todo <= delta.Keys && s.writers == map[0 := Writer(delta - todo, [], None)]
    ensures Run(d, may, s, steps) && After(d, may, s, steps) == s.(writers := map[0 := Writer(delta, [], None)])
    decreases todo
  {
    if todo == {} {
      steps := [];
      assert delta - todo == delta;
    } else {
      var r :| r in todo;
      var t: Step<R, V, K, S, B> := Write(0, r, delta[r]);
      var s1 := Next(d, s, t);
      assert s1.writers == map[0 := Writer(delta - (todo - {r}), [], None)] by {
        assert (delta - todo)[r := delta[r]] == delta - (todo - {r});
      }
      var rest := StageRows(d, may, s1, delta, todo - {r});
      RunCons(d, may, s, t, rest);
      steps := [t] + rest;
    }
  }

  /** Only the counters of `owes` moved. */
  ghost predicate OnlyBumped<R(!new), V, K, S(!new), B>(s: State<R, V, K, S, B>, s': State<R, V, K, S, B>, owes: set<S>) {
    && s'.store == s.store && s'.readers == s.readers
    && forall c | c !in owes :: Floors(s', c) == Floors(s, c)
  }

  lemma BumpOne<R(!new), V(!new), K(!new), S(!new), B(!new)>(
    d: Discipline<R, V, K, S, B>, s: State<R, V, K, S, B>, delta: map<R, V>, done: seq<S>, c: S)
    requires |s.log| > 0 && s.writers == map[0 := Writer(delta, done, None)] && c !in done
    ensures Enabled(d, s, Invalidate(0, c)) && Elements(done + [c]) == Elements(done) + {c}
    ensures var s1 := Next(d, s, Invalidate(0, c));
            s1.log == s.log && s1.writers == map[0 := Writer(delta, done + [c], None)] && OnlyBumped(s, s1, {c})
  {
  }

  /** Then it bumps the counters of `todo` on top of those of `done`. */
  lemma {:induction false} BumpAll<R(!new), V(!new), K(!new), S(!new), B(!new)>(
    d: Discipline<R, V, K, S, B>, may: Policy<R, V, S>, s: State<R, V, K, S, B>, delta: map<R, V>, done: seq<S>, todo: set<S>)
    returns (steps: seq<Step<R, V, K, S, B>>, owes: seq<S>)
    requires |s.log| > 0 && s.writers == map[0 := Writer(delta, done, None)] && Elements(done) !! todo
    ensures Run(d, may, s, steps) && Elements(owes) == Elements(done) + todo
    ensures var s' := After(d, may, s, steps);
            s'.log == s.log && s'.writers == map[0 := Writer(delta, owes, None)] && OnlyBumped(s, s', todo)
    decreases todo
  {
    if todo == {} {
      steps, owes := [], done;
    } else {
      var c :| c in todo;
      var t: Step<R, V, K, S, B> := Invalidate(0, c);
      assert c !in done by { assert c !in Elements(done); }
      BumpOne(d, s, delta, done, c);
      var s1 := Next(d, s, t);
      var rest;
      rest, owes := BumpAll(d, may, s1, delta, done + [c], todo - {c});
      RunCons(d, may, s, t, rest);
      steps := [t] + rest;
    }
  }

  /** A session that has changed the rows of `delta` and bumped the counters of `owes`. */
  lemma Stage<R(!new), V(!new), K(!new), S(!new), B(!new)>(
    d: Discipline<R, V, K, S, B>, may: Policy<R, V, S>, s: State<R, V, K, S, B>, delta: map<R, V>, bumps: set<S>)
    returns (steps: seq<Step<R, V, K, S, B>>, owes: seq<S>)
    requires |s.log| > 0 && s.writers == map[]
    ensures Run(d, may, s, steps) && Elements(owes) == bumps
    ensures var s' := After(d, may, s, steps);
            s'.log == s.log && s'.writers == map[0 := Writer(delta, owes, None)] && OnlyBumped(s, s', bumps)
  {
    var open: Step<R, V, K, S, B> := Open(0);
    var s1 := Next(d, s, open);
    assert delta - delta.Keys == map[];
    var writes := StageRows(d, may, s1, delta, delta.Keys);
    var s2 := After(d, may, s1, writes);
    var bumping;
    bumping, owes := BumpAll(d, may, s2, delta, [], bumps);
    RunConcat(d, may, s1, writes, bumping);
    RunCons(d, may, s, open, writes + bumping);
    steps := [open] + (writes + bumping);
    assert forall c: S :: Floors(s2, c) == Floors(s, c);
  }

  /** The queued bumps of a committed session run one after the other. */
  lemma {:induction false} FlushAll<R(!new), V(!new), K(!new), S(!new), B(!new)>(
    d: Discipline<R, V, K, S, B>, may: Policy<R, V, S>, s: State<R, V, K, S, B>, w: Writer<R, V, S>) returns (steps: seq<Step<R, V, K, S, B>>)
    requires |s.log| > 0 && s.writers == map[0 := w] && w.committedAt.Some?
    ensures Run(d, may, s, steps)
    ensures var s' := After(d, may, s, steps); s'.log == s.log && s'.writers == map[] && OnlyBumped(s, s', Elements(w.owes))
    decreases |w.owes|
  {
    var t: Step<R, V, K, S, B> := Flush(0);
    var s1 := Next(d, s, t);
    if w.owes == [] {
      assert s1.writers == map[];
      assert Run(d, may, s1, []);
      RunCons(d, may, s, t, []);
      steps := [t] + [];
    } else {
      var w1 := w.(owes := w.owes[1..]);
      assert s1.writers == map[0 := w1];
      var rest := FlushAll(d, may, s1, w1);
      RunCons(d, may, s, t, rest);
      steps := [t] + rest;
      assert forall c | c !in Elements(w.owes) :: c !in Elements(w1.owes) && c != w.owes[0];
    }
  }

  /** A whole transaction that does all the policy asks: stage, bump, commit, bump again. */
  lemma WriteThrough<R(!new), V(!new), K(!new), S(!new), B(!new)>(
    d: Discipline<R, V, K, S, B>, may: Policy<R, V, S>, s: State<R, V, K, S, B>, delta: map<R, V>, bumps: set<S>) returns (steps: seq<Step<R, V, K, S, B>>)
    requires |s.log| > 0 && s.writers == map[] && s.readers == map[] && may.commits(s.log[|s.log| - 1], delta, bumps)
    ensures Run(d, may, s, steps)
    ensures var s' := After(d, may, s, steps);
            s'.log == s.log + [s.log[|s.log| - 1] + delta] && s'.writers == map[] && OnlyBumped(s, s', bumps)
  {
    var stage, owes := Stage(d, may, s, delta, bumps);
    var s1 := After(d, may, s, stage);
    var commit: Step<R, V, K, S, B> := Commit(0);
    var s2 := Next(d, s1, commit);
    var w := Writer(delta, owes, Some(|s1.log|));
    assert s2.writers == map[0 := w];
    var flush := FlushAll(d, may, s2, w);
    RunCons(d, may, s1, commit, flush);
    RunConcat(d, may, s, stage, [commit] + flush);
    steps := stage + ([commit] + flush);
  }

  // ---------------------------------------------------------------- the commit habit is needed

  /** A commit that changes what `k` computes to and bumps no counter `k` reads: once all its bumps
      have run, a body cached before it is still hit. */
  lemma SilentCommitGoesStale<R(!new), V(!new), K(!new), S(!new), B(!new)>(
    d: Discipline<R, V, K, S, B>, may: Policy<R, V, S>, k: K, rows: map<R, V>, delta: map<R, V>, bumps: set<S>)
    requires may.commits(rows, delta, bumps) && Alters(d, k, rows, delta) && !Reaches(d, k, bumps)
    ensures exists steps, token ::
              && GoesStale(d, may, rows, steps, k, token)
              && After(d, may, Initial(rows), steps).store[(k, token)].body == d.compute(k, Snapshot(d, rows, k))
              && After(d, may, Initial(rows), steps).log == [rows, rows + delta]
  {
    var s0 := Initial<R, V, K, S, B>(rows);
    var fill := Fill(d, may, s0, None, k);
    var s := After(d, may, s0, fill);
    assert Viewed(d, s0, None, k) == Snapshot(d, rows, k);
    var through := WriteThrough(d, may, s, delta, bumps);
    RunConcat(d, may, s0, fill, through);
    var steps := fill + through;
    var s' := After(d, may, s0, steps);
    var token := Versions(d, s0, k);
    assert Current(d, s', k, token) by {
      forall i | 0 <= i < |token| ensures token[i] == Version(s', d.scopes(k)[i]) {
        assert d.scopes(k)[i] in d.scopes(k) && d.scopes(k)[i] !in bumps;
      }
    }
    assert GoesStale(d, may, rows, steps, k, token);
  }

  /** No run, whatever its interleaving, leaves a stale hit behind. */
  ghost predicate Coherent<R(!new), V(!new), K(!new), S(!new), B(!new)>(d: Discipline<R, V, K, S, B>, may: Policy<R, V, S>) {
    forall rows: map<R, V>, steps: seq<Step<R, V, K, S, B>>, k: K, token: seq<nat> :: !GoesStale(d, may, rows, steps, k, token)
  }

  lemma HeardIsCoherent<R(!new), V(!new), K(!new), S(!new), B(!new)>(d: Discipline<R, V, K, S, B>, may: Policy<R, V, S>)
    requires d.births && Heard(d, may) && !may.habit.Careless?
    ensures Coherent(d, may)
  {
    forall rows: map<R, V>, steps: seq<Step<R, V, K, S, B>>, k: K, token: seq<nat> ensures !GoesStale(d, may, rows, steps, k, token) {
      if Run(d, may, Initial(rows), steps) && HitIsStale(d, After(d, may, Initial(rows), steps), k, token) {
        StoredBodyIsFresh(d, may, rows, steps, k, token);
      }
    }
  }

  // ---------------------------------------------------------------- what a commit can alter

  /** The committed rows `full` are what a load of `k` reads. */
  lemma SnapshotIs<R(!new), V(!new), K(!new), S(!new), B(!new)>(d: Discipline<R, V, K, S, B>, k: K, full: map<R, V>)
    requires full.Keys == d.needs(k)
    ensures Snapshot(d, full, k) == full
  {
  }

  lemma SwayAlters<R(!new), V(!new), K(!new), S(!new), B(!new)>(d: Discipline<R, V, K, S, B>, k: K, full: map<R, V>, r: R, v: V, delta: map<R, V>)
    requires Sways(d, k, full, r, v) && r in d.needs(k) && r in delta
    ensures Alters(d, k, full, delta) || Alters(d, k, full[r := v], delta)
  {
    var other := full[r := v];
    assert other.Keys == d.needs(k);
    SnapshotIs(d, k, full);
    SnapshotIs(d, k, other);
    assert Snapshot(d, other + delta, k) == Snapshot(d, full + delta, k);
  }

  /** A commit can change what `k` computes to exactly if it writes a row `k` depends on. */
  lemma TouchesIffCanAlter<R(!new), V(!new), K(!new), S(!new), B(!new)>(d: Discipline<R, V, K, S, B>, k: K, delta: map<R, V>)
    ensures Touches(d, k, delta) <==> CanAlter(d, k, delta)
  {
    if r :| r in delta && Matters(d, k, r) {
      var full: map<R, V>, v: V :| Sways(d, k, full, r, v);
      SwayAlters(d, k, full, r, v, delta);
    } else {
      forall rows: map<R, V> ensures !Alters(d, k, rows, delta) {
        OnlyWhatMatters(d, k, Snapshot(d, rows, k), Snapshot(d, rows + delta, k));
      }
    }
  }

  // ---------------------------------------------------------------- the exact condition on commits

  /** Writers that commit the same whatever the committed rows are. */
  ghost function Anywhere<R(!new), V(!new), S(!new)>(writes: (map<R, V>, set<S>) -> bool, habit: Habit): Policy<R, V, S> {
    Policy((rows: map<R, V>, delta: map<R, V>, bumps: set<S>) => writes(delta, bumps), habit)
  }

  /** The exact condition on commits, as long as sessions are not careless: no run, whatever its
      interleaving and its rollbacks, leaves a stale hit behind if and only if each commit bumps, for
      each key whose value it can change, a counter that key reads. */
  lemma CoherentIffHeard<R(!new), V(!new), K(!new), S(!new), B(!new)>(d: Discipline<R, V, K, S, B>, writes: (map<R, V>, set<S>) -> bool, habit: Habit)
    requires d.births && !habit.Careless?
    ensures Coherent(d, Anywhere(writes, habit)) <==> forall delta, bumps, k | writes(delta, bumps) && CanAlter(d, k, delta) :: Reaches(d, k, bumps)
  {
    var may := Anywhere(writes, habit);
    if Coherent(d, may) {
      forall delta, bumps, k | writes(delta, bumps) && CanAlter(d, k, delta) ensures Reaches(d, k, bumps) {
        var rows: map<R, V> :| Alters(d, k, rows, delta);
        if !Reaches(d, k, bumps) { SilentCommitGoesStale(d, may, k, rows, delta, bumps); }
      }
    }
    if forall delta, bumps, k | writes(delta, bumps) && CanAlter(d, k, delta) :: Reaches(d, k, bumps) {
      AlteringIsHeard(d, writes, habit);
      HeardIsCoherent(d, may);
    }
  }

  lemma AlteringIsHeard<R(!new), V(!new), K(!new), S(!new), B(!new)>(d: Discipline<R, V, K, S, B>, writes: (map<R, V>, set<S>) -> bool, habit: Habit)
    requires forall delta, bumps, k | writes(delta, bumps) && CanAlter(d, k, delta) :: Reaches(d, k, bumps)
    ensures Heard(d, Anywhere(writes, habit))
  {
    var may := Anywhere(writes, habit);
    forall rows, delta, owes, k, r | may.commits(rows, delta, owes) && r in delta && Concerns(d, habit, k, rows, r) ensures Reaches(d, k, owes) {
      TouchesIffCanAlter(d, k, delta);
    }
  }

  /** Writers that bump, for every row they change, the one counter guarding it. */
  ghost function GuardsBumped<R(!new), V(!new), S(!new)>(guard: R -> S): (map<R, V>, set<S>) -> bool {
    (delta: map<R, V>, bumps: set<S>) => forall r | r in delta :: guard(r) in bumps
  }

  ghost function Guarding<R(!new), V(!new), S(!new)>(guard: R -> S, habit: Habit): Policy<R, V, S> {
    Anywhere(GuardsBumped(guard), habit)
  }

  ghost predicate Covering<R(!new), V(!new), K(!new), S, B>(d: Discipline<R, V, K, S, B>, guard: R -> S) {
    forall k, r | Matters(d, k, r) :: guard(r) in d.scopes(k)
  }

  lemma CoveringIsHeard<R(!new), V(!new), K(!new), S(!new), B(!new)>(d: Discipline<R, V, K, S, B>, guard: R -> S, habit: Habit)
    requires Covering(d, guard)
    ensures Heard(d, Guarding(guard, habit))
  {
    var may := Guarding<R, V, S>(guard, habit);
    forall rows, delta, owes, k, r | may.commits(rows, delta, owes) && r in delta && Concerns(d, habit, k, rows, r) ensures Reaches(d, k, owes) {
      assert guard(r) in owes && guard(r) in d.scopes(k);
    }
  }

  lemma UncoveredIsIncoherent<R(!new), V(!new), K(!new), S(!new), B(!new)>(d: Discipline<R, V, K, S, B>, guard: R -> S, habit: Habit, k: K, r: R)
    requires Matters(d, k, r) && guard(r) !in d.scopes(k)
    ensures !Coherent(d, Guarding(guard, habit))
  {
    var full: map<R, V>, v: V :| Sways(d, k, full, r, v);
    var delta: map<R, V> := map[r := v];
    assert Touches(d, k, delta);
    TouchesIffCanAlter(d, k, delta);
    var rows: map<R, V> :| Alters(d, k, rows, delta);
    assert Guarding<R, V, S>(guard, habit).commits(rows, delta, {guard(r)});
    SilentCommitGoesStale(d, Guarding(guard, habit), k, rows, delta, {guard(r)});
  }

  /** For writers that bump one guard a row: coherent if and only if each row a key depends on is guarded
      by a counter the key reads. */
  lemma CoherentIffCovering<R(!new), V(!new), K(!new), S(!new), B(!new)>(d: Discipline<R, V, K, S, B>, guard: R -> S, habit: Habit)
    requires d.births && !habit.Careless?
    ensures Coherent(d, Guarding(guard, habit)) <==> Covering(d, guard)
  {
    if Covering(d, guard) {
      CoveringIsHeard(d, guard, habit);
      HeardIsCoherent(d, Guarding(guard, habit));
    } else {
      var k, r :| Matters(d, k, r) && guard(r) !in d.scopes(k);
      UncoveredIsIncoherent(d, guard, habit, k, r);
    }
  }

  // ---------------------------------------------------------------- careless sessions

  /** A session that changes rows of a key, reloads the key through the cache and is rolled back leaves
      a body that was never committed under the current versions, whatever it bumped, as its queued
      bumps are discarded. */
  lemma RollbackLeavesGhost<R(!new), V(!new), K(!new), S(!new), B(!new)>(
    d: Discipline<R, V, K, S, B>, may: Policy<R, V, S>, k: K, rows: map<R, V>, delta: map<R, V>, bumps: set<S>)
    requires may.habit.Careless? && Alters(d, k, rows, delta)
    ensures exists steps, token ::
              && GoesStale(d, may, rows, steps, k, token)
              && After(d, may, Initial(rows), steps).log == [rows]
              && After(d, may, Initial(rows), steps).store[(k, token)].body == d.compute(k, Snapshot(d, rows + delta, k))
  {
    var s0 := Initial<R, V, K, S, B>(rows);
    var stage, owes := Stage(d, may, s0, delta, bumps);
    var s := After(d, may, s0, stage);
    var fill := Fill(d, may, s, Some(0), k);
    RunConcat(d, may, s0, stage, fill);
    var staged, token := stage + fill, Versions(d, s, k);
    var s1 := After(d, may, s0, staged);
    assert Viewed(d, s, Some(0), k) == Snapshot(d, rows + delta, k);
    var back: Step<R, V, K, S, B> := Rollback(0);
    var s2 := Next(d, s1, back);
    assert s2.writers == map[];
    RunLast(d, may, s0, staged, back);
    assert Current(d, s2, k, token);
    assert GoesStale(d, may, rows, staged + [back], k, token);
  }

  lemma RunLast<R(!new), V(!new), K(!new), S(!new), B(!new)>(
    d: Discipline<R, V, K, S, B>, may: Policy<R, V, S>, s: State<R, V, K, S, B>, steps: seq<Step<R, V, K, S, B>>, t: Step<R, V, K, S, B>)
    requires Run(d, may, s, steps) && Enabled(d, After(d, may, s, steps), t) && Kept(d, may, After(d, may, s, steps), t)
    ensures Run(d, may, s, steps + [t]) && After(d, may, s, steps + [t]) == Next(d, After(d, may, s, steps), t)
  {
    var s' := After(d, may, s, steps);
    assert Run(d, may, Next(d, s', t), []);
    RunCons(d, may, s', t, []);
    assert [t] + [] == [t];
    RunConcat(d, may, s, steps, [t]);
  }

  /** What every run keeps, careless or not: bodies are made of some rows. */
  ghost predicate Made<R(!new), V(!new), K(!new), S, B>(d: Discipline<R, V, K, S, B>, s: State<R, V, K, S, B>) {
    && |s.log| > 0
    && (forall rid | rid in s.readers :: s.readers[rid].seen.Keys <= d.needs(s.readers[rid].key))
    && (forall k, token | (k, token) in s.store :: MadeOfRows(d, k, s.store[(k, token)].body))
  }

  ghost predicate MadeOfRows<R(!new), V(!new), K, S, B>(d: Discipline<R, V, K, S, B>, k: K, body: B) {
    exists full: map<R, V> :: full.Keys == d.needs(k) && d.compute(k, full) == body
  }

  lemma StepKeepsMade<R(!new), V(!new), K(!new), S(!new), B(!new)>(
    d: Discipline<R, V, K, S, B>, s: State<R, V, K, S, B>, t: Step<R, V, K, S, B>)
    requires Made(d, s) && Enabled(d, s, t)
    ensures Made(d, Next(d, s, t))
  {
    if t.Store? {
      var x := s.readers[t.rid];
      var full := Filled(d, x.key, x.seen, map[]);
      assert Extends(full, x.seen);
      assert full.Keys == d.needs(x.key) && d.compute(x.key, full) == t.body;
      assert MadeOfRows(d, x.key, t.body);
    }
  }

  lemma {:induction false} RunKeepsMade<R(!new), V(!new), K(!new), S(!new), B(!new)>(
    d: Discipline<R, V, K, S, B>, may: Policy<R, V, S>, s: State<R, V, K, S, B>, steps: seq<Step<R, V, K, S, B>>)
    requires Made(d, s) && Run(d, may, s, steps)
    ensures Made(d, After(d, may, s, steps))
    decreases |steps|
  {
    if steps != [] {
      StepKeepsMade(d, s, steps[0]);
      RunKeepsMade(d, may, Next(d, s, steps[0]), steps[1..]);
    }
  }

  /** With careless sessions and free rollbacks no family whose bodies can change is safe, however
      little is ever committed and however much is bumped. */
  lemma CarelessIsCoherentIff<R(!new), V(!new), K(!new), S(!new), B(!new)>(d: Discipline<R, V, K, S, B>, may: Policy<R, V, S>)
    requires may.habit.Careless?
    ensures Coherent(d, may) <==> forall k, delta :: !CanAlter(d, k, delta)
  {
    if k, delta :| CanAlter(d, k, delta) {
      var rows: map<R, V> :| Alters(d, k, rows, delta);
      RollbackLeavesGhost(d, may, k, rows, delta, {});
    } else {
      forall rows: map<R, V>, steps: seq<Step<R, V, K, S, B>>, k: K, token: seq<nat> ensures !GoesStale(d, may, rows, steps, k, token) {
        if Run(d, may, Initial(rows), steps) && HitIsStale(d, After(d, may, Initial(rows), steps), k, token) {
          RunKeepsMade(d, may, Initial(rows), steps);
          var s := After(d, may, Initial(rows), steps);
          assert MadeOfRows(d, k, s.store[(k, token)].body);
          NothingAlters(d, k, s.store[(k, token)].body, s.log[|s.log| - 1]);
        }
      }
    }
  }

  lemma NothingAlters<R(!new), V(!new), K(!new), S(!new), B(!new)>(d: Discipline<R, V, K, S, B>, k: K, body: B, rows: map<R, V>)
    requires MadeOfRows(d, k, body) && forall delta :: !CanAlter(d, k, delta)
    ensures body == d.compute(k, Snapshot(d, rows, k))
  {
    var full: map<R, V> :| full.Keys == d.needs(k) && d.compute(k, full) == body;
    var latest := Snapshot(d, rows, k);
    SnapshotIs(d, k, full);
    assert Snapshot(d, full + latest, k) == latest;
    assert !CanAlter(d, k, latest);
    assert !Alters(d, k, full, latest);
  }
}
