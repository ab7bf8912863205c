/**
 The version-counter cache protocol, as interleaved steps of readers, writers and sessions.

 A body is stored under (key, token), where the token lists the versions of every counter
 ("scope") the key depends on, read one counter at a time. A reader that misses loads row
 groups one SELECT at a time and stores the result under the token it started with. It may also pass
 over a body it finds, as one does over an empty text. A writer
 stages rows, bumps the counters guarding them, commits, and bumps them once more after the
 commit. A session may also reload through the cache while its own rows are uncommitted.

 `floors` and the `at`/`base` fields are history: `floors[c][v - 1]` is the index of the last
 commit when counter `c` reached version `v`.
 */
module CacheProtocol {
  import opened Wrappers

  /** A family of cached bodies: `needs(k)` are the row groups a load of `k` may read, `scopes(k)`
      the counters read before `k`, `compute` what the rows make of `k`, `births` whether readers have
      to hear of a row that was never there before. */
  datatype Discipline<!R, !V, !K, !S, B> = Discipline(
    scopes: K -> seq<S>,
    needs: K -> set<R>,
    absent: V,
    compute: (K, map<R, V>) -> B,
    births: bool)

  /** How sessions treat the rows they have changed and not committed: they load none of them through
      the cache; or they load them, and do not roll back while a body made of them can be hit; or
      they do as they please. */
  datatype Habit = LoadsNothingOwn | SparesHits | Careless

  /** What writers may commit over which rows: the rows they changed, with the counters they bumped. */
  datatype Policy<!R, !V, !S> = Policy(commits: (map<R, V>, map<R, V>, set<S>) -> bool, habit: Habit)

  datatype Seen<V> = Seen(val: V, at: nat, own: bool)

  datatype Entry<R, V, B> = Entry(body: B, seen: map<R, Seen<V>>, own: Option<nat>)

  datatype Reader<R, V, K> = Reader(
    key: K, session: Option<nat>, token: seq<nat>, loading: bool, seen: map<R, Seen<V>>, base: seq<nat>)

  datatype Writer<R, V, S> = Writer(delta: map<R, V>, owes: seq<S>, committedAt: Option<nat>)

  datatype State<R, V, K(==), S, B> = State(
    log: seq<map<R, V>>,
    floors: map<S, seq<nat>>,
    store: map<(K, seq<nat>), Entry<R, V, B>>,
    readers: map<nat, Reader<R, V, K>>,
    writers: map<nat, Writer<R, V, S>>)

  datatype Step<R, V, K, S, B> =
    | Begin(rid: nat, key: K, session: Option<nat>)
    | ReadVersion(rid: nat)
    | Hit(rid: nat)
    | Miss(rid: nat)
    | Load(rid: nat, row: R)
    | Store(rid: nat, body: B)
    | Drop(rid: nat)
    | Open(wid: nat)
    | Write(wid: nat, row: R, val: V)
    | Invalidate(wid: nat, scope: S)
    | Commit(wid: nat)
    | Flush(wid: nat)
    | Rollback(wid: nat)
    | Evict(entryKey: K, entryToken: seq<nat>)

  // ---------------------------------------------------------------- vocabulary

  ghost function Initial<R(!new), V(!new), K(!new), S(!new), B(!new)>(rows: map<R, V>): State<R, V, K, S, B> {
    State([rows], map[], map[], map[], map[])
  }

  ghost function Floors<R, V, K, S, B>(s: State<R, V, K, S, B>, c: S): seq<nat> {
    if c in s.floors then s.floors[c] else []
  }

  ghost function Version<R, V, K, S, B>(s: State<R, V, K, S, B>, c: S): nat {
    |Floors(s, c)|
  }

  /** The last commit known to be durable when counter `c` reached version `v`. */
  ghost function FloorOf(floors: seq<nat>, v: nat): nat
  {
    if 0 < v <= |floors| then floors[v - 1] else 0
  }

  ghost function RowIn<R, V, K, S, B>(d: Discipline<R, V, K, S, B>, rows: map<R, V>, r: R): V {
    if r in rows then rows[r] else d.absent
  }

  ghost predicate Current<R, V, K, S, B>(d: Discipline<R, V, K, S, B>, s: State<R, V, K, S, B>, k: K, token: seq<nat>) {
    |token| == |d.scopes(k)| && forall i | 0 <= i < |token| :: token[i] == Version(s, d.scopes(k)[i])
  }

  /** What a fresh computation from the committed rows returns. */
  ghost function Fresh<R(!new), V, K, S, B>(d: Discipline<R, V, K, S, B>, s: State<R, V, K, S, B>, k: K): B
    requires |s.log| > 0
  {
    d.compute(k, Snapshot(d, s.log[|s.log| - 1], k))
  }

  ghost function Snapshot<R(!new), V, K, S, B>(d: Discipline<R, V, K, S, B>, rows: map<R, V>, k: K): map<R, V> {
    map r | r in d.needs(k) :: RowIn(d, rows, r)
  }

  /** The rows read so far already force the result, whatever the unread ones hold. */
  ghost predicate Determined<R(!new), V(!new), K, S, B>(
    d: Discipline<R, V, K, S, B>, k: K, seen: map<R, Seen<V>>, body: B)
  {
    forall full: map<R, V> | full.Keys == d.needs(k) && Extends(full, seen) :: d.compute(k, full) == body
  }

  ghost predicate Extends<R(!new), V>(full: map<R, V>, seen: map<R, Seen<V>>) {
    forall r | r in seen :: r in full && full[r] == seen[r].val
  }

  /** Changing row `r` of `full` to `v` changes what `k` computes to. */
  ghost predicate Sways<R(!new), V, K, S, B>(d: Discipline<R, V, K, S, B>, k: K, full: map<R, V>, r: R, v: V) {
    full.Keys == d.needs(k) && d.compute(k, full[r := v]) != d.compute(k, full)
  }

  /** What `k` computes to depends on row `r`. */
  ghost predicate Matters<R(!new), V(!new), K, S, B>(d: Discipline<R, V, K, S, B>, k: K, r: R) {
    r in d.needs(k) && exists full: map<R, V>, v: V :: Sways(d, k, full, r, v)
  }

  /** A change of the rows of `delta` is a change of something `k` depends on. */
  ghost predicate Touches<R(!new), V(!new), K, S, B>(d: Discipline<R, V, K, S, B>, k: K, delta: map<R, V>) {
    exists r :: r in delta && Matters(d, k, r)
  }

  /** One of the counters bumped is read by `k`. */
  ghost predicate Reaches<R, V, K, S(!new), B>(d: Discipline<R, V, K, S, B>, k: K, owes: set<S>) {
    exists c :: c in owes && c in d.scopes(k)
  }

  /** `k` depends on row `r`, and a commit that changes it over `rows` is of interest to the readers of `k`. */
  ghost predicate Concerns<R(!new), V(!new), K, S, B>(d: Discipline<R, V, K, S, B>, habit: Habit, k: K, rows: map<R, V>, r: R) {
    Matters(d, k, r) && (d.births || habit.SparesHits? || r in rows)
  }

  /** Every commit the policy allows bumps, for every key it concerns, a counter that key reads. */
  ghost predicate Heard<R(!new), V(!new), K(!new), S(!new), B>(d: Discipline<R, V, K, S, B>, may: Policy<R, V, S>) {
    forall rows, delta, owes, k, r | may.commits(rows, delta, owes) && r in delta && Concerns(d, may.habit, k, rows, r) :: Reaches(d, k, owes)
  }

  ghost function Elements<S(!new)>(xs: seq<S>): set<S> { set x | x in xs }

  ghost function Bumped<R, V, K, S, B>(s: State<R, V, K, S, B>, c: S): State<R, V, K, S, B>
    requires |s.log| > 0
  {
    s.(floors := s.floors[c := Floors(s, c) + [|s.log| - 1]])
  }

  ghost predicate SessionIdle<R, V, K, S, B>(s: State<R, V, K, S, B>, wid: nat) {
    forall rid | rid in s.readers :: s.readers[rid].session != Some(wid)
  }

  // ---------------------------------------------------------------- steps

  ghost predicate Enabled<R(!new), V(!new), K, S, B>(
    d: Discipline<R, V, K, S, B>, s: State<R, V, K, S, B>, t: Step<R, V, K, S, B>)
  {
    && |s.log| > 0
    && match t
       case Begin(rid, key, session) =>
         rid !in s.readers && (session.Some? ==> session.value in s.writers && s.writers[session.value].committedAt.None?)
       case ReadVersion(rid) =>
         rid in s.readers && |s.readers[rid].token| < |d.scopes(s.readers[rid].key)|
       case Hit(rid) => AtLookup(d, s, rid) && (s.readers[rid].key, s.readers[rid].token) in s.store
       case Miss(rid) => AtLookup(d, s, rid)
       case Load(rid, row) =>
         rid in s.readers && s.readers[rid].loading && row in d.needs(s.readers[rid].key) && row !in s.readers[rid].seen
       case Store(rid, body) =>
         rid in s.readers && s.readers[rid].loading && Determined(d, s.readers[rid].key, s.readers[rid].seen, body)
       case Drop(rid) => rid in s.readers
       case Open(wid) => wid !in s.writers
       case Write(wid, row, val) => wid in s.writers && s.writers[wid].committedAt.None?
       case Invalidate(wid, scope) => wid in s.writers && s.writers[wid].committedAt.None?
       case Commit(wid) => wid in s.writers && s.writers[wid].committedAt.None? && SessionIdle(s, wid)
       case Flush(wid) => wid in s.writers && s.writers[wid].committedAt.Some?
       case Rollback(wid) => wid in s.writers && s.writers[wid].committedAt.None? && SessionIdle(s, wid)
       case Evict(key, token) => true
  }

  ghost predicate AtLookup<R, V, K, S, B>(d: Discipline<R, V, K, S, B>, s: State<R, V, K, S, B>, rid: nat) {
    rid in s.readers && !s.readers[rid].loading && |s.readers[rid].token| == |d.scopes(s.readers[rid].key)|
  }

  ghost function Next<R(!new), V(!new), K, S, B>(
    d: Discipline<R, V, K, S, B>, s: State<R, V, K, S, B>, t: Step<R, V, K, S, B>): State<R, V, K, S, B>
    requires Enabled(d, s, t)
  {
    match t
    case Begin(rid, key, session) =>
      var base := seq(|d.scopes(key)|, i requires 0 <= i < |d.scopes(key)| =>
          var f := Floors(s, d.scopes(key)[i]); FloorOf(f, |f|));
      s.(readers := s.readers[rid := Reader(key, session, [], false, map[], base)])
    case ReadVersion(rid) =>
      var x := s.readers[rid];
      s.(readers := s.readers[rid := x.(token := x.token + [Version(s, d.scopes(x.key)[|x.token|])])])
    case Hit(rid) => s.(readers := s.readers - {rid})
    case Miss(rid) => s.(readers := s.readers[rid := s.readers[rid].(loading := true)])
    case Load(rid, row) =>
      var x := s.readers[rid];
      s.(readers := s.readers[rid := x.(seen := x.seen[row := Look(d, s, x.session, row)])])
    case Store(rid, body) =>
      var x := s.readers[rid];
      var own := if exists r :: r in x.seen && x.seen[r].own && Matters(d, x.key, r) then x.session else None;
      s.(readers := s.readers - {rid}, store := s.store[(x.key, x.token) := Entry(body, x.seen, own)])
    case Drop(rid) => s.(readers := s.readers - {rid})
    case Open(wid) => s.(writers := s.writers[wid := Writer(map[], [], None)])
    case Write(wid, row, val) =>
      var w := s.writers[wid];
      s.(writers := s.writers[wid := w.(delta := w.delta[row := val])])
    case Invalidate(wid, scope) =>
      var w := s.writers[wid];
      Bumped(s, scope).(writers := s.writers[wid := w.(owes := if scope in w.owes then w.owes else w.owes + [scope])])
    case Commit(wid) =>
      var w := s.writers[wid];
      s.(log := s.log + [s.log[|s.log| - 1] + w.delta], writers := s.writers[wid := w.(committedAt := Some(|s.log|))])
    case Flush(wid) =>
      var w := s.writers[wid];
      if w.owes == [] then s.(writers := s.writers - {wid})
      else Bumped(s, w.owes[0]).(writers := s.writers[wid := w.(owes := w.owes[1..])])
    case Rollback(wid) => s.(writers := s.writers - {wid})
    case Evict(key, token) => s.(store := s.store - {(key, token)})
  }

  /** One SELECT: the session's own uncommitted row if it has one, else the committed row. */
  ghost function Look<R, V, K, S, B>(
    d: Discipline<R, V, K, S, B>, s: State<R, V, K, S, B>, session: Option<nat>, row: R): Seen<V>
    requires |s.log| > 0
  {
    if session.Some? && session.value in s.writers && row in s.writers[session.value].delta
    then Seen(s.writers[session.value].delta[row], |s.log| - 1, true)
    else Seen(RowIn(d, s.log[|s.log| - 1], row), |s.log| - 1, false)
  }

  /** No body that session `wid` cached from its own rows can be hit. */
  ghost predicate NoGhost<R(!new), V, K(!new), S, B>(d: Discipline<R, V, K, S, B>, s: State<R, V, K, S, B>, wid: nat) {
    forall k, token | (k, token) in s.store && s.store[(k, token)].own == Some(wid) :: !Current(d, s, k, token)
  }

  /** What the policy asks of a step. */
  ghost predicate Kept<R(!new), V(!new), K(!new), S(!new), B(!new)>(
    d: Discipline<R, V, K, S, B>, may: Policy<R, V, S>, s: State<R, V, K, S, B>, t: Step<R, V, K, S, B>)
    requires Enabled(d, s, t)
  {
    match t
    case Commit(wid) => may.commits(s.log[|s.log| - 1], s.writers[wid].delta, Elements(s.writers[wid].owes))
    case Load(rid, row) => may.habit.LoadsNothingOwn? ==> !Look(d, s, s.readers[rid].session, row).own
    case Rollback(wid) => may.habit.SparesHits? ==> NoGhost(d, s, wid)
    case _ => true
  }

  // ---------------------------------------------------------------- invariant

  ghost predicate CountersOk<R, V, K, S(!new), B>(s: State<R, V, K, S, B>) {
    && |s.log| > 0
    && (forall c, i | c in s.floors && 0 <= i < |s.floors[c]| :: s.floors[c][i] < |s.log|)
    && (forall c, i, j | c in s.floors && 0 <= i <= j < |s.floors[c]| :: s.floors[c][i] <= s.floors[c][j])
  }

  /** Every row in `seen` was the committed one at some commit no older than any version of the token. */
  ghost predicate SeenOk<R(!new), V, K, S, B>(
    d: Discipline<R, V, K, S, B>, s: State<R, V, K, S, B>, k: K, token: seq<nat>, seen: map<R, Seen<V>>)
  {
    && |token| <= |d.scopes(k)|
    && (forall i | 0 <= i < |token| :: token[i] <= Version(s, d.scopes(k)[i]))
    && (forall r | r in seen :: r in d.needs(k) && SeenRowOk(d, s, k, token, r, seen[r]))
  }

  ghost predicate SeenRowOk<R, V, K, S, B>(
    d: Discipline<R, V, K, S, B>, s: State<R, V, K, S, B>, k: K, token: seq<nat>, r: R, x: Seen<V>)
    requires |token| <= |d.scopes(k)|
  {
    !x.own ==>
      && x.at < |s.log|
      && x.val == RowIn(d, s.log[x.at], r)
      && forall i | 0 <= i < |token| :: FloorOf(Floors(s, d.scopes(k)[i]), token[i]) <= x.at
  }

  /** A body cached from a session's own rows is only reachable while that session still has
      its post-commit bump ahead of it. */
  ghost predicate Pending<R(!new), V(!new), K, S(!new), B>(d: Discipline<R, V, K, S, B>, s: State<R, V, K, S, B>, wid: nat, k: K) {
    && wid in s.writers && Touches(d, k, s.writers[wid].delta)
    && (s.writers[wid].committedAt.Some? ==> Reaches(d, k, Elements(s.writers[wid].owes)))
  }

  ghost predicate EntryOk<R(!new), V(!new), K, S(!new), B>(
    d: Discipline<R, V, K, S, B>, s: State<R, V, K, S, B>, k: K, token: seq<nat>, e: Entry<R, V, B>)
  {
    && |token| == |d.scopes(k)|
    && SeenOk(d, s, k, token, e.seen)
    && Determined(d, k, e.seen, e.body)
    && (e.own.None? ==> forall r | r in e.seen && Matters(d, k, r) :: !e.seen[r].own)
    && (e.own.Some? && Current(d, s, k, token) ==> Pending(d, s, e.own.value, k))
  }

  ghost predicate ReaderOk<R(!new), V, K, S, B>(d: Discipline<R, V, K, S, B>, s: State<R, V, K, S, B>, x: Reader<R, V, K>) {
    && SeenOk(d, s, x.key, x.token, x.seen)
    && |x.base| == |d.scopes(x.key)|
    && (forall i | 0 <= i < |x.token| :: x.base[i] <= FloorOf(Floors(s, d.scopes(x.key)[i]), x.token[i]))
    && (forall i | 0 <= i < |x.base| :: var f := Floors(s, d.scopes(x.key)[i]); x.base[i] <= FloorOf(f, |f|))
    && (x.loading ==> |x.token| == |d.scopes(x.key)|)
    && (!x.loading ==> x.seen == map[])
    && (x.session.Some? ==> x.session.value in s.writers && s.writers[x.session.value].committedAt.None?)
    && (forall r | r in x.seen && x.seen[r].own :: x.session.Some? && r in s.writers[x.session.value].delta)
  }

  ghost predicate Changed<R, V, K, S, B>(d: Discipline<R, V, K, S, B>, log: seq<map<R, V>>, c: nat, r: R) {
    0 < c < |log| && RowIn(d, log[c], r) != RowIn(d, log[c - 1], r)
  }

  ghost predicate Owes<R, V, K, S, B>(s: State<R, V, K, S, B>, c: nat, scope: S) {
    exists wid :: wid in s.writers && s.writers[wid].committedAt == Some(c) && scope in s.writers[wid].owes
  }

  /** Commit `c` is behind the latest bump of `scope`, or still owes one. */
  ghost predicate Settled<R, V, K, S, B>(s: State<R, V, K, S, B>, c: nat, scope: S) {
    (var f := Floors(s, scope); c <= FloorOf(f, |f|)) || Owes(s, c, scope)
  }

  /** Commit `c` changed a row `k` depends on, one its readers have to hear of. */
  ghost predicate News<R(!new), V(!new), K, S, B>(d: Discipline<R, V, K, S, B>, log: seq<map<R, V>>, c: nat, k: K, r: R) {
    Changed(d, log, c, r) && Matters(d, k, r) && (d.births || r in log[c - 1])
  }

  /** Every committed change is settled with some counter of every key it is news to. */
  ghost predicate ChangesOk<R(!new), V(!new), K(!new), S(!new), B>(d: Discipline<R, V, K, S, B>, s: State<R, V, K, S, B>) {
    forall c: nat, k, r | News(d, s.log, c, k, r) :: KeySettled(d, s, c, k)
  }

  /** Rows stay. */
  ghost predicate LogGrows<R, V>(log: seq<map<R, V>>) {
    forall i, j | 0 <= i <= j < |log| :: log[i].Keys <= log[j].Keys
  }

  ghost predicate KeySettled<R, V, K, S(!new), B>(d: Discipline<R, V, K, S, B>, s: State<R, V, K, S, B>, c: nat, k: K) {
    exists scope :: scope in d.scopes(k) && Settled(s, c, scope)
  }

  ghost predicate Inv<R(!new), V(!new), K(!new), S(!new), B>(d: Discipline<R, V, K, S, B>, s: State<R, V, K, S, B>) {
    && CountersOk(s) && LogGrows(s.log)
    && ChangesOk(d, s)
    && (forall wid | wid in s.writers && s.writers[wid].committedAt.Some? :: s.writers[wid].committedAt.value < |s.log|)
    && (forall k, token | (k, token) in s.store :: EntryOk(d, s, k, token, s.store[(k, token)]))
    && (forall rid | rid in s.readers :: ReaderOk(d, s, s.readers[rid]))
  }

  /** Nobody has loaded a row of its own. */
  ghost predicate NothingOwn<R(!new), V, K(!new), S, B>(s: State<R, V, K, S, B>) {
    && (forall rid, r | rid in s.readers && r in s.readers[rid].seen :: !s.readers[rid].seen[r].own)
    && (forall k, token | (k, token) in s.store :: s.store[(k, token)].own.None?)
  }

  /** What every run keeps that is not careless and whose commits are heard. */
  ghost predicate Good<R(!new), V(!new), K(!new), S(!new), B(!new)>(
    d: Discipline<R, V, K, S, B>, may: Policy<R, V, S>, s: State<R, V, K, S, B>)
  {
    Inv(d, s) && (may.habit.LoadsNothingOwn? ==> NothingOwn(s))
  }

  // ---------------------------------------------------------------- framing

  /** Logs and counters only grow. */
  ghost predicate Grows<R(!new), V, K, S(!new), B>(s: State<R, V, K, S, B>, s': State<R, V, K, S, B>) {
    s.log <= s'.log && forall c :: Floors(s, c) <= Floors(s', c)
  }

  lemma SeenGrows<R(!new), V, K, S(!new), B>(
    d: Discipline<R, V, K, S, B>, s: State<R, V, K, S, B>, s': State<R, V, K, S, B>,
    k: K, token: seq<nat>, seen: map<R, Seen<V>>)
    requires Grows(s, s') && SeenOk(d, s, k, token, seen)
    ensures SeenOk(d, s', k, token, seen)
  {
    forall r | r in seen ensures SeenRowOk(d, s', k, token, r, seen[r]) {
      assert SeenRowOk(d, s, k, token, r, seen[r]);
      assert forall i | 0 <= i < |token| :: Floors(s, d.scopes(k)[i]) <= Floors(s', d.scopes(k)[i]);
    }
  }

  lemma CurrentShrinks<R(!new), V(!new), K, S(!new), B>(
    d: Discipline<R, V, K, S, B>, s: State<R, V, K, S, B>, s': State<R, V, K, S, B>,
    k: K, token: seq<nat>, e: Entry<R, V, B>)
    requires Grows(s, s') && SeenOk(d, s, k, token, e.seen) && Current(d, s', k, token)
    ensures Current(d, s, k, token)
  {
    forall i | 0 <= i < |token| ensures token[i] == Version(s, d.scopes(k)[i]) {
      assert Floors(s, d.scopes(k)[i]) <= Floors(s', d.scopes(k)[i]);
    }
  }

  lemma EntryGrows<R(!new), V(!new), K, S(!new), B>(
    d: Discipline<R, V, K, S, B>, s: State<R, V, K, S, B>, s': State<R, V, K, S, B>,
    k: K, token: seq<nat>, e: Entry<R, V, B>)
    requires Grows(s, s') && EntryOk(d, s, k, token, e)
    requires e.own.Some? && Current(d, s', k, token) && Pending(d, s, e.own.value, k) ==> Pending(d, s', e.own.value, k)
    ensures EntryOk(d, s', k, token, e)
  {
    SeenGrows(d, s, s', k, token, e.seen);
    if e.own.Some? && Current(d, s', k, token) {
      CurrentShrinks(d, s, s', k, token, e);
    }
  }

  lemma ReaderGrows<R(!new), V(!new), K, S(!new), B>(
    d: Discipline<R, V, K, S, B>, s: State<R, V, K, S, B>, s': State<R, V, K, S, B>, x: Reader<R, V, K>)
    requires Grows(s, s') && CountersOk(s) && CountersOk(s') && ReaderOk(d, s, x)
    requires x.session.Some? ==>
               && x.session.value in s'.writers && s'.writers[x.session.value].committedAt.None?
               && s.writers[x.session.value].delta.Keys <= s'.writers[x.session.value].delta.Keys
    ensures ReaderOk(d, s', x)
  {
    SeenGrows(d, s, s', x.key, x.token, x.seen);
    forall i | 0 <= i < |x.base|
      ensures var f := Floors(s', d.scopes(x.key)[i]); x.base[i] <= FloorOf(f, |f|)
      ensures i < |x.token| ==> x.base[i] <= FloorOf(Floors(s', d.scopes(x.key)[i]), x.token[i])
    {
      var c := d.scopes(x.key)[i];
      var f, f' := Floors(s, c), Floors(s', c);
      assert f <= f';
      assert x.base[i] <= FloorOf(f, |f|);
      if 0 < |f| { assert f'[|f| - 1] <= f'[|f'| - 1]; }
    }
  }

  lemma BumpKeepsCounters<R(!new), V(!new), K(!new), S(!new), B(!new)>(s: State<R, V, K, S, B>, c: S)
    requires CountersOk(s)
    ensures CountersOk(Bumped(s, c)) && Grows(s, Bumped(s, c))
    ensures Version(Bumped(s, c), c) == Version(s, c) + 1
    ensures forall o | o != c :: Floors(Bumped(s, c), o) == Floors(s, o)
    ensures var f := Floors(Bumped(s, c), c); FloorOf(f, |f|) == |s.log| - 1
  {
  }

  // ---------------------------------------------------------------- one step keeps the invariant

  ghost predicate OneReaderStep<R, V, K, S, B>(t: Step<R, V, K, S, B>) {
    t.Begin? || t.ReadVersion? || t.Hit? || t.Miss? || t.Load? || t.Drop?
  }

  lemma ReaderStepOk<R(!new), V(!new), K(!new), S(!new), B(!new)>(
    d: Discipline<R, V, K, S, B>, s: State<R, V, K, S, B>, t: Step<R, V, K, S, B>)
    requires CountersOk(s) && Enabled(d, s, t) && OneReaderStep(t) && (t.rid in s.readers ==> ReaderOk(d, s, s.readers[t.rid]))
    ensures t.rid in Next(d, s, t).readers ==> ReaderOk(d, Next(d, s, t), Next(d, s, t).readers[t.rid])
  {
    match t
    case Begin(rid, key, session) => BeginKeeps(d, s, rid, key, session);
    case ReadVersion(rid) => ReadVersionKeeps(d, s, rid);
    case Load(rid, row) => LoadKeeps(d, s, rid, row);
    case Miss(rid) => MissKeeps(d, s, rid);
    case Hit(rid) =>
    case Drop(rid) =>
  }

  lemma ReaderStepFramed<R(!new), V(!new), K(!new), S(!new), B(!new)>(
    d: Discipline<R, V, K, S, B>, s: State<R, V, K, S, B>, t: Step<R, V, K, S, B>)
    requires Enabled(d, s, t) && OneReaderStep(t)
    ensures ReadersFramed(s, Next(d, s, t), t.rid)
  {
  }

  /** Reader steps that touch one reader only. */
  lemma ReaderStepKeeps<R(!new), V(!new), K(!new), S(!new), B(!new)>(
    d: Discipline<R, V, K, S, B>, s: State<R, V, K, S, B>, t: Step<R, V, K, S, B>)
    requires Inv(d, s) && Enabled(d, s, t) && OneReaderStep(t)
    ensures Inv(d, Next(d, s, t))
  {
    ReaderStepOk(d, s, t);
    ReaderStepFramed(d, s, t);
    ReadersFrame(d, s, Next(d, s, t), t.rid);
  }

  ghost predicate ReadersFramed<R(!new), V, K, S, B>(s: State<R, V, K, S, B>, s': State<R, V, K, S, B>, rid: nat) {
    && s'.log == s.log && s'.floors == s.floors && s'.store == s.store && s'.writers == s.writers
    && (forall o | o in s'.readers && o != rid :: o in s.readers && s'.readers[o] == s.readers[o])
  }

  lemma ReadersFrame<R(!new), V(!new), K(!new), S(!new), B(!new)>(
    d: Discipline<R, V, K, S, B>, s: State<R, V, K, S, B>, s': State<R, V, K, S, B>, rid: nat)
    requires Inv(d, s) && ReadersFramed(s, s', rid)
    requires rid in s'.readers ==> ReaderOk(d, s', s'.readers[rid])
    ensures Inv(d, s')
  {
    assert Grows(s, s');
    forall k, token | (k, token) in s'.store ensures EntryOk(d, s', k, token, s'.store[(k, token)]) {
      EntryGrows(d, s, s', k, token, s.store[(k, token)]);
    }
    forall o | o in s'.readers ensures ReaderOk(d, s', s'.readers[o]) {
      if o != rid { ReaderGrows(d, s, s', s.readers[o]); }
    }
    ChangesFrame(d, s, s');
  }

  /** What was settled stays settled when the log and the commits owed are the same. */
  lemma ChangesFrame<R(!new), V(!new), K(!new), S(!new), B(!new)>(
    d: Discipline<R, V, K, S, B>, s: State<R, V, K, S, B>, s': State<R, V, K, S, B>)
    requires ChangesOk(d, s) && CountersOk(s) && CountersOk(s') && s'.log == s.log && Grows(s, s')
    requires forall w | w in s.writers && s.writers[w].committedAt.Some? :: w in s'.writers && s'.writers[w] == s.writers[w]
    ensures ChangesOk(d, s')
  {
    forall c: nat, scope | Settled(s, c, scope) ensures Settled(s', c, scope) {
      if Owes(s, c, scope) {
        var w :| w in s.writers && s.writers[w].committedAt == Some(c) && scope in s.writers[w].owes;
        assert w in s'.writers && s'.writers[w] == s.writers[w];
      } else {
        FloorsGrow(s, s', scope);
      }
    }
    StaySettled(d, s, s');
  }

  lemma StaySettled<R(!new), V(!new), K(!new), S(!new), B(!new)>(
    d: Discipline<R, V, K, S, B>, s: State<R, V, K, S, B>, s': State<R, V, K, S, B>)
    requires ChangesOk(d, s) && s'.log == s.log
    requires forall c: nat, scope | c < |s.log| && Settled(s, c, scope) :: Settled(s', c, scope)
    ensures ChangesOk(d, s')
  {
    forall c: nat, k, r | News(d, s'.log, c, k, r) ensures KeySettled(d, s', c, k) {
      assert News(d, s.log, c, k, r) && KeySettled(d, s, c, k);
      var scope :| scope in d.scopes(k) && Settled(s, c, scope);
      assert Settled(s', c, scope);
    }
  }

  lemma FloorsGrow<R(!new), V(!new), K(!new), S(!new), B(!new)>(s: State<R, V, K, S, B>, s': State<R, V, K, S, B>, c: S)
    requires CountersOk(s') && Grows(s, s')
    ensures FloorOf(Floors(s, c), Version(s, c)) <= FloorOf(Floors(s', c), Version(s', c))
  {
    var f, f' := Floors(s, c), Floors(s', c);
    assert f <= f';
    if 0 < |f| { assert f'[|f| - 1] <= f'[|f'| - 1]; }
  }

  lemma BeginKeeps<R(!new), V(!new), K(!new), S(!new), B(!new)>(
    d: Discipline<R, V, K, S, B>, s: State<R, V, K, S, B>, rid: nat, key: K, session: Option<nat>)
    requires CountersOk(s) && Enabled(d, s, Begin(rid, key, session))
    ensures ReaderOk(d, Next(d, s, Begin(rid, key, session)), Next(d, s, Begin(rid, key, session)).readers[rid])
  {
  }

  lemma EvictKeeps<R(!new), V(!new), K(!new), S(!new), B(!new)>(
    d: Discipline<R, V, K, S, B>, s: State<R, V, K, S, B>, key: K, at: seq<nat>)
    requires Inv(d, s) && Enabled(d, s, Evict(key, at))
    ensures Inv(d, Next(d, s, Evict(key, at)))
  {
    var s' := Next(d, s, Evict(key, at));
    assert Grows(s, s');
    forall k, token | (k, token) in s'.store ensures EntryOk(d, s', k, token, s'.store[(k, token)]) {
      EntryGrows(d, s, s', k, token, s.store[(k, token)]);
    }
    forall o | o in s'.readers ensures ReaderOk(d, s', s'.readers[o]) {
      ReaderGrows(d, s, s', s.readers[o]);
    }
    ChangesFrame(d, s, s');
  }

  lemma MissKeeps<R(!new), V(!new), K(!new), S(!new), B(!new)>(
    d: Discipline<R, V, K, S, B>, s: State<R, V, K, S, B>, rid: nat)
    requires CountersOk(s) && Enabled(d, s, Miss(rid)) && ReaderOk(d, s, s.readers[rid])
    ensures ReaderOk(d, Next(d, s, Miss(rid)), Next(d, s, Miss(rid)).readers[rid])
  {
  }

  lemma ReadVersionKeeps<R(!new), V(!new), K(!new), S(!new), B(!new)>(
    d: Discipline<R, V, K, S, B>, s: State<R, V, K, S, B>, rid: nat)
    requires CountersOk(s) && Enabled(d, s, ReadVersion(rid)) && ReaderOk(d, s, s.readers[rid])
    ensures ReaderOk(d, Next(d, s, ReadVersion(rid)), Next(d, s, ReadVersion(rid)).readers[rid])
  {
  }

  /** A row is read at the latest commit, which is no older than any floor. */
  lemma LoadedRowOk<R(!new), V(!new), K(!new), S(!new), B(!new)>(
    d: Discipline<R, V, K, S, B>, s: State<R, V, K, S, B>, x: Reader<R, V, K>, row: R)
    requires CountersOk(s) && |x.token| <= |d.scopes(x.key)|
    ensures SeenRowOk(d, s, x.key, x.token, row, Look(d, s, x.session, row))
  {
  }

  lemma LoadKeeps<R(!new), V(!new), K(!new), S(!new), B(!new)>(
    d: Discipline<R, V, K, S, B>, s: State<R, V, K, S, B>, rid: nat, row: R)
    requires CountersOk(s) && Enabled(d, s, Load(rid, row)) && ReaderOk(d, s, s.readers[rid])
    ensures ReaderOk(d, Next(d, s, Load(rid, row)), Next(d, s, Load(rid, row)).readers[rid])
  {
    var s' := Next(d, s, Load(rid, row));
    var x, x' := s.readers[rid], s'.readers[rid];
    LoadedRowOk(d, s, x, row);
    forall r | r in x'.seen ensures r in d.needs(x'.key) && SeenRowOk(d, s', x'.key, x'.token, r, x'.seen[r]) {
      if r != row { assert SeenRowOk(d, s, x.key, x.token, r, x.seen[r]); }
    }
  }

  lemma StoredEntryOk<R(!new), V(!new), K(!new), S(!new), B(!new)>(
    d: Discipline<R, V, K, S, B>, s: State<R, V, K, S, B>, rid: nat, body: B)
    requires CountersOk(s) && Enabled(d, s, Store(rid, body)) && ReaderOk(d, s, s.readers[rid])
    ensures var x, s' := s.readers[rid], Next(d, s, Store(rid, body));
            EntryOk(d, s', x.key, x.token, s'.store[(x.key, x.token)])
  {
    var x := s.readers[rid];
    SeenGrows(d, s, Next(d, s, Store(rid, body)), x.key, x.token, x.seen);
  }

  lemma StoreKeepsEntries<R(!new), V(!new), K(!new), S(!new), B(!new)>(
    d: Discipline<R, V, K, S, B>, s: State<R, V, K, S, B>, rid: nat, body: B)
    requires Inv(d, s) && Enabled(d, s, Store(rid, body))
    ensures var s' := Next(d, s, Store(rid, body));
            forall k, token | (k, token) in s'.store :: EntryOk(d, s', k, token, s'.store[(k, token)])
  {
    var s', x := Next(d, s, Store(rid, body)), s.readers[rid];
    StoredEntryOk(d, s, rid, body);
    forall k, token | (k, token) in s'.store ensures EntryOk(d, s', k, token, s'.store[(k, token)]) {
      if (k, token) != (x.key, x.token) { EntryGrows(d, s, s', k, token, s.store[(k, token)]); }
    }
  }

  lemma StoreKeeps<R(!new), V(!new), K(!new), S(!new), B(!new)>(
    d: Discipline<R, V, K, S, B>, s: State<R, V, K, S, B>, rid: nat, body: B)
    requires Inv(d, s) && Enabled(d, s, Store(rid, body))
    ensures Inv(d, Next(d, s, Store(rid, body)))
  {
    var s' := Next(d, s, Store(rid, body));
    StoreKeepsEntries(d, s, rid, body);
    forall o | o in s'.readers ensures ReaderOk(d, s', s'.readers[o]) {
      ReaderGrows(d, s, s', s.readers[o]);
    }
    ChangesFrame(d, s, s');
  }

  /** Steps of session `wid` leave the log, the store and the readers alone. */
  ghost predicate SessionFramed<R(!new), V, K, S(!new), B>(s: State<R, V, K, S, B>, s': State<R, V, K, S, B>, wid: nat) {
    && s'.log == s.log && s'.store == s.store && s'.readers == s.readers
    && Grows(s, s')
    && (forall o | o in s.writers && o != wid :: o in s'.writers && s'.writers[o] == s.writers[o])
    && (forall o | o in s'.writers && o != wid :: o in s.writers)
  }

  lemma SessionFrame<R(!new), V(!new), K(!new), S(!new), B(!new)>(
    d: Discipline<R, V, K, S, B>, s: State<R, V, K, S, B>, s': State<R, V, K, S, B>, wid: nat)
    requires Inv(d, s) && CountersOk(s') && SessionFramed(s, s', wid)
    requires wid in s'.writers && s'.writers[wid].committedAt.Some? ==> s'.writers[wid].committedAt.value < |s'.log|
    requires ChangesOk(d, s')
    requires forall k, token | (k, token) in s.store && s.store[(k, token)].own == Some(wid) && Current(d, s', k, token) && Pending(d, s, wid, k)
               :: Pending(d, s', wid, k)
    requires !SessionIdle(s, wid) ==>
               wid in s.writers && wid in s'.writers && s'.writers[wid].committedAt.None? && s.writers[wid].delta.Keys <= s'.writers[wid].delta.Keys
    ensures Inv(d, s')
  {
    forall k, token | (k, token) in s'.store ensures EntryOk(d, s', k, token, s'.store[(k, token)]) {
      var e := s.store[(k, token)];
      if e.own.Some? && e.own != Some(wid) && Pending(d, s, e.own.value, k) {
        assert s'.writers[e.own.value] == s.writers[e.own.value];
        assert Pending(d, s', e.own.value, k);
      }
      EntryGrows(d, s, s', k, token, e);
    }
    forall o | o in s'.readers ensures ReaderOk(d, s', s'.readers[o]) {
      assert ReaderOk(d, s, s.readers[o]);
      ReaderGrows(d, s, s', s.readers[o]);
    }
  }

  ghost predicate StagingStep<R, V, K, S, B>(t: Step<R, V, K, S, B>) { t.Open? || t.Write? || t.Invalidate? }

  lemma StagingFramed<R(!new), V(!new), K(!new), S(!new), B(!new)>(
    d: Discipline<R, V, K, S, B>, s: State<R, V, K, S, B>, t: Step<R, V, K, S, B>)
    requires CountersOk(s) && Enabled(d, s, t) && StagingStep(t)
    ensures CountersOk(Next(d, s, t)) && SessionFramed(s, Next(d, s, t), t.wid)
    ensures t.wid in s.writers && s.writers[t.wid].committedAt.None? ==>
              Next(d, s, t).writers[t.wid].committedAt.None? && s.writers[t.wid].delta.Keys <= Next(d, s, t).writers[t.wid].delta.Keys
    ensures t.wid in s.writers ==> s.writers[t.wid].committedAt.None?
    ensures Next(d, s, t).writers[t.wid].committedAt.None?
  {
    if t.Invalidate? { BumpKeepsCounters(s, t.scope); }
  }

  lemma StagingStaysPending<R(!new), V(!new), K(!new), S(!new), B(!new)>(
    d: Discipline<R, V, K, S, B>, s: State<R, V, K, S, B>, t: Step<R, V, K, S, B>, k: K)
    requires Enabled(d, s, t) && StagingStep(t) && Pending(d, s, t.wid, k)
    ensures Pending(d, Next(d, s, t), t.wid, k)
  {
    var s' := Next(d, s, t);
    var r :| r in s.writers[t.wid].delta && Matters(d, k, r);
    assert r in s'.writers[t.wid].delta;
    assert Touches(d, k, s'.writers[t.wid].delta);
  }

  /** Opening, staging and invalidating: the session's rows and debts only grow. */
  lemma StagingStepKeeps<R(!new), V(!new), K(!new), S(!new), B(!new)>(
    d: Discipline<R, V, K, S, B>, s: State<R, V, K, S, B>, t: Step<R, V, K, S, B>)
    requires Inv(d, s) && Enabled(d, s, t) && StagingStep(t)
    ensures Inv(d, Next(d, s, t))
  {
    var s' := Next(d, s, t);
    StagingFramed(d, s, t);
    ChangesFrame(d, s, s');
    forall k | Pending(d, s, t.wid, k) ensures Pending(d, s', t.wid, k) { StagingStaysPending(d, s, t, k); }
    if !SessionIdle(s, t.wid) { IdleOrOpen(d, s, t.wid); }
    SessionFrame(d, s, s', t.wid);
  }

  lemma IdleOrOpen<R(!new), V(!new), K(!new), S(!new), B(!new)>(d: Discipline<R, V, K, S, B>, s: State<R, V, K, S, B>, wid: nat)
    requires Inv(d, s) && !SessionIdle(s, wid)
    ensures wid in s.writers && s.writers[wid].committedAt.None?
  {
    var rid :| rid in s.readers && s.readers[rid].session == Some(wid);
    assert ReaderOk(d, s, s.readers[rid]);
  }

  lemma RollbackKeeps<R(!new), V(!new), K(!new), S(!new), B(!new)>(
    d: Discipline<R, V, K, S, B>, s: State<R, V, K, S, B>, wid: nat)
    requires Inv(d, s) && Enabled(d, s, Rollback(wid)) && NoGhost(d, s, wid)
    ensures Inv(d, Next(d, s, Rollback(wid)))
  {
    var s' := Next(d, s, Rollback(wid));
    assert Grows(s, s');
    ChangesFrame(d, s, s');
    forall k, token | (k, token) in s.store && s.store[(k, token)].own == Some(wid)
      ensures !Current(d, s', k, token)
    {
      assert !Current(d, s, k, token);
    }
    SessionFrame(d, s, s', wid);
  }

  /** A body of the session's own rows has its bump ahead of it, as sessions that load such rows have
      to be heard by all keys they touch. */
  lemma CommitKeepsEntries<R(!new), V(!new), K(!new), S(!new), B(!new)>(
    d: Discipline<R, V, K, S, B>, may: Policy<R, V, S>, s: State<R, V, K, S, B>, wid: nat)
    requires Heard(d, may) && !may.habit.Careless? && Good(d, may, s) && Enabled(d, s, Commit(wid)) && Kept(d, may, s, Commit(wid))
    ensures var s' := Next(d, s, Commit(wid)); forall k, token | (k, token) in s'.store :: EntryOk(d, s', k, token, s'.store[(k, token)])
  {
    var s', w := Next(d, s, Commit(wid)), s.writers[wid];
    assert Grows(s, s');
    forall k, token | (k, token) in s'.store ensures EntryOk(d, s', k, token, s'.store[(k, token)]) {
      var e := s.store[(k, token)];
      if e.own.Some? && Pending(d, s, e.own.value, k) {
        if e.own == Some(wid) {
          var r :| r in w.delta && Matters(d, k, r);
          assert Concerns(d, may.habit, k, s.log[|s.log| - 1], r);
        }
        assert Pending(d, s', e.own.value, k);
      }
      EntryGrows(d, s, s', k, token, e);
    }
  }

  lemma CommitGrowsLog<R(!new), V(!new), K(!new), S(!new), B(!new)>(d: Discipline<R, V, K, S, B>, s: State<R, V, K, S, B>, wid: nat)
    requires CountersOk(s) && LogGrows(s.log) && Enabled(d, s, Commit(wid))
    ensures LogGrows(Next(d, s, Commit(wid)).log)
  {
  }

  lemma CommitKeeps<R(!new), V(!new), K(!new), S(!new), B(!new)>(
    d: Discipline<R, V, K, S, B>, may: Policy<R, V, S>, s: State<R, V, K, S, B>, wid: nat)
    requires Heard(d, may) && !may.habit.Careless? && Good(d, may, s) && Enabled(d, s, Commit(wid)) && Kept(d, may, s, Commit(wid))
    ensures Inv(d, Next(d, s, Commit(wid)))
  {
    var s' := Next(d, s, Commit(wid));
    assert Grows(s, s');
    CommitKeepsEntries(d, may, s, wid);
    forall o | o in s'.readers ensures ReaderOk(d, s', s'.readers[o]) {
      ReaderGrows(d, s, s', s.readers[o]);
    }
    CommitGrowsLog(d, s, wid);
    CommitSettles(d, may, s, wid);
  }

  /** The new commit owes a bump to every key it is news to; older ones are as settled as before. */
  lemma CommitSettles<R(!new), V(!new), K(!new), S(!new), B(!new)>(
    d: Discipline<R, V, K, S, B>, may: Policy<R, V, S>, s: State<R, V, K, S, B>, wid: nat)
    requires Heard(d, may) && CountersOk(s) && ChangesOk(d, s) && Enabled(d, s, Commit(wid)) && Kept(d, may, s, Commit(wid))
    ensures ChangesOk(d, Next(d, s, Commit(wid)))
  {
    var s', w := Next(d, s, Commit(wid)), s.writers[wid];
    forall c: nat, k, r | News(d, s'.log, c, k, r) ensures KeySettled(d, s', c, k) {
      if c == |s.log| {
        assert r in w.delta;
        assert Concerns(d, may.habit, k, s.log[|s.log| - 1], r);
        var scope :| scope in Elements(w.owes) && scope in d.scopes(k);
        assert s'.writers[wid].committedAt == Some(c) && scope in s'.writers[wid].owes;
        assert Settled(s', c, scope);
      } else {
        assert News(d, s.log, c, k, r) && KeySettled(d, s, c, k);
        var scope :| scope in d.scopes(k) && Settled(s, c, scope);
        if Owes(s, c, scope) { DebtStays(s, s', c, scope, wid); }
        assert Settled(s', c, scope);
      }
    }
  }

  lemma FlushKeeps<R(!new), V(!new), K(!new), S(!new), B(!new)>(
    d: Discipline<R, V, K, S, B>, s: State<R, V, K, S, B>, wid: nat)
    requires Inv(d, s) && Enabled(d, s, Flush(wid))
    ensures Inv(d, Next(d, s, Flush(wid)))
  {
    var s' := Next(d, s, Flush(wid));
    if s.writers[wid].owes != [] { BumpKeepsCounters(s, s.writers[wid].owes[0]); }
    FlushSettles(d, s, wid);
    forall k, token | (k, token) in s.store && s.store[(k, token)].own == Some(wid) && Current(d, s', k, token) && Pending(d, s, wid, k)
      ensures Pending(d, s', wid, k)
    {
      FlushEndsPending(d, s, wid, k, token, s.store[(k, token)]);
    }
    if !SessionIdle(s, wid) { IdleOrOpen(d, s, wid); }
    SessionFrame(d, s, s', wid);
  }

  /** The bump that leaves the debt list is the one that lifts the counter past the commit. */
  lemma FlushSettles<R(!new), V(!new), K(!new), S(!new), B(!new)>(
    d: Discipline<R, V, K, S, B>, s: State<R, V, K, S, B>, wid: nat)
    requires CountersOk(s) && ChangesOk(d, s) && Enabled(d, s, Flush(wid))
    ensures ChangesOk(d, Next(d, s, Flush(wid)))
  {
    var s' := Next(d, s, Flush(wid));
    forall c: nat, scope | c < |s.log| && Settled(s, c, scope) ensures Settled(s', c, scope) {
      FlushSettlesOne(d, s, wid, c, scope);
    }
    StaySettled(d, s, s');
  }

  lemma FlushSettlesOne<R(!new), V(!new), K(!new), S(!new), B(!new)>(
    d: Discipline<R, V, K, S, B>, s: State<R, V, K, S, B>, wid: nat, c: nat, scope: S)
    requires CountersOk(s) && Enabled(d, s, Flush(wid)) && c < |s.log| && Settled(s, c, scope)
    ensures Settled(Next(d, s, Flush(wid)), c, scope)
  {
    var s', w := Next(d, s, Flush(wid)), s.writers[wid];
    if w.owes == [] {
      assert Floors(s', scope) == Floors(s, scope);
      if Owes(s, c, scope) { DebtStays(s, s', c, scope, wid); }
    } else {
      BumpKeepsCounters(s, w.owes[0]);
      if scope == w.owes[0] {
        FlushLifts(d, s, wid);
      } else {
        assert Floors(s', scope) == Floors(s, scope);
        if Owes(s, c, scope) { DebtStays(s, s', c, scope, wid); }
      }
    }
  }

  /** Every writer but `wid` is as it was, and `wid` still owes `scope` if it did. */
  lemma DebtStays<R(!new), V(!new), K(!new), S(!new), B(!new)>(
    s: State<R, V, K, S, B>, s': State<R, V, K, S, B>, c: nat, scope: S, wid: nat)
    requires wid in s.writers && Owes(s, c, scope)
    requires forall o | o in s.writers && o != wid :: o in s'.writers && s'.writers[o] == s.writers[o]
    requires s.writers[wid].committedAt.Some? && scope in s.writers[wid].owes ==>
               wid in s'.writers && s'.writers[wid].committedAt == s.writers[wid].committedAt && scope in s'.writers[wid].owes
    ensures Owes(s', c, scope)
  {
    var o :| o in s.writers && s.writers[o].committedAt == Some(c) && scope in s.writers[o].owes;
    assert o in s'.writers && s'.writers[o].committedAt == Some(c) && scope in s'.writers[o].owes;
  }

  lemma FlushLifts<R(!new), V(!new), K(!new), S(!new), B(!new)>(
    d: Discipline<R, V, K, S, B>, s: State<R, V, K, S, B>, wid: nat)
    requires CountersOk(s) && Enabled(d, s, Flush(wid)) && s.writers[wid].owes != []
    ensures var f := Floors(Next(d, s, Flush(wid)), s.writers[wid].owes[0]); FloorOf(f, |f|) == |s.log| - 1
  {
    BumpKeepsCounters(s, s.writers[wid].owes[0]);
  }

  /** A post-commit bump of a counter the key reads moves the key off every token taken before. */
  lemma FlushMovesKey<R(!new), V(!new), K(!new), S(!new), B(!new)>(
    d: Discipline<R, V, K, S, B>, s: State<R, V, K, S, B>, wid: nat, k: K, token: seq<nat>)
    requires Enabled(d, s, Flush(wid)) && s.writers[wid].owes != [] && s.writers[wid].owes[0] in d.scopes(k)
    requires |token| == |d.scopes(k)| && forall i | 0 <= i < |token| :: token[i] <= Version(s, d.scopes(k)[i])
    ensures !Current(d, Next(d, s, Flush(wid)), k, token)
  {
    var c := s.writers[wid].owes[0];
    var i :| 0 <= i < |d.scopes(k)| && d.scopes(k)[i] == c;
    assert token[i] < Version(Next(d, s, Flush(wid)), c);
  }

  lemma FlushEndsPending<R(!new), V(!new), K(!new), S(!new), B(!new)>(
    d: Discipline<R, V, K, S, B>, s: State<R, V, K, S, B>, wid: nat, k: K, token: seq<nat>, e: Entry<R, V, B>)
    requires Inv(d, s) && Enabled(d, s, Flush(wid))
    requires EntryOk(d, s, k, token, e) && e.own == Some(wid) && Pending(d, s, wid, k)
    requires Current(d, Next(d, s, Flush(wid)), k, token)
    ensures Pending(d, Next(d, s, Flush(wid)), wid, k)
  {
    var s', owes := Next(d, s, Flush(wid)), s.writers[wid].owes;
    var c :| c in Elements(owes) && c in d.scopes(k);
    if owes[0] in d.scopes(k) { FlushMovesKey(d, s, wid, k, token); }
    assert c in owes[1..];
    assert c in Elements(s'.writers[wid].owes);
  }

  lemma StepKeepsInv<R(!new), V(!new), K(!new), S(!new), B(!new)>(
    d: Discipline<R, V, K, S, B>, may: Policy<R, V, S>, s: State<R, V, K, S, B>, t: Step<R, V, K, S, B>)
    requires Heard(d, may) && !may.habit.Careless? && Good(d, may, s) && Enabled(d, s, t) && Kept(d, may, s, t)
    ensures Inv(d, Next(d, s, t))
  {
    match t
    case Store(rid, body) => StoreKeeps(d, s, rid, body);
    case Rollback(wid) => RollbackKeeps(d, s, wid);
    case Commit(wid) => CommitKeeps(d, may, s, wid);
    case Flush(wid) => FlushKeeps(d, s, wid);
    case Evict(key, token) => EvictKeeps(d, s, key, token);
    case _ =>
      if t.Open? || t.Write? || t.Invalidate? { StagingStepKeeps(d, s, t); } else { ReaderStepKeeps(d, s, t); }
  }

  lemma StepLoadsNothingOwn<R(!new), V(!new), K(!new), S(!new), B(!new)>(
    d: Discipline<R, V, K, S, B>, may: Policy<R, V, S>, s: State<R, V, K, S, B>, t: Step<R, V, K, S, B>)
    requires may.habit.LoadsNothingOwn? && NothingOwn(s) && Enabled(d, s, t) && Kept(d, may, s, t)
    ensures NothingOwn(Next(d, s, t))
  {
  }

  lemma StepKeeps<R(!new), V(!new), K(!new), S(!new), B(!new)>(
    d: Discipline<R, V, K, S, B>, may: Policy<R, V, S>, s: State<R, V, K, S, B>, t: Step<R, V, K, S, B>)
    requires Heard(d, may) && !may.habit.Careless? && Good(d, may, s) && Enabled(d, s, t) && Kept(d, may, s, t)
    ensures Good(d, may, Next(d, s, t))
  {
    StepKeepsInv(d, may, s, t);
    if may.habit.LoadsNothingOwn? { StepLoadsNothingOwn(d, may, s, t); }
  }
}
