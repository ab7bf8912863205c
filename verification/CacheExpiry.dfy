/**
 What the lifetime of a version counter does to the cache: until a counter expires no bump brings an
 old body back, afterwards one may.
 */
module CacheExpiry {
  import opened Wrappers
  import opened Cache

  /** No body of `key` is alive under a version its counter has yet to reach. */
  ghost predicate NoneAhead(store: map<string, Cell>, ns: string, key: string, now: int) {
    forall v: nat | v > VersionIn(store, ns, key, now) :: BodyIn(store, ns, key, v, now).None?
  }

  function BumpedTimes(store: map<string, Cell>, ns: string, key: string, now: int, n: nat): map<string, Cell> {
    if n == 0 then store else Bumped(BumpedTimes(store, ns, key, now, n - 1), ns, key, now)
  }

  lemma {:induction false} BumpedTimesShows(store: map<string, Cell>, ns: string, key: string, now: int, n: nat)
    ensures var store' := BumpedTimes(store, ns, key, now, n);
            && VersionIn(store', ns, key, now) == VersionIn(store, ns, key, now) + n
            && (n > 0 ==> forall t :: VersionIn(store', ns, key, t) == if t <= now + VERSION_TTL_SECONDS then VersionIn(store, ns, key, now) + n else 0)
            && (forall v: nat, t :: BodyIn(store', ns, key, v, t) == BodyIn(store, ns, key, v, t))
  {
    if n > 0 {
      BumpedTimesShows(store, ns, key, now, n - 1);
      BumpedShows(BumpedTimes(store, ns, key, now, n - 1), ns, key, now);
    }
  }

  /** The body a reader would hit. */
  function Hit(store: map<string, Cell>, ns: string, key: string, now: int): Option<string> {
    BodyIn(store, ns, key, VersionIn(store, ns, key, now), now)
  }

  /** Right after bumps, however many, there is nothing to hit. */
  ghost predicate BumpsLeaveNothing(store: map<string, Cell>, ns: string, key: string, now: int) {
    forall n: nat :: n > 0 ==> Hit(BumpedTimes(store, ns, key, now, n), ns, key, now).None?
  }

  /** The exact condition for that: no body is alive above the counter. */
  lemma BumpsLeaveNothingIff(store: map<string, Cell>, ns: string, key: string, now: int)
    ensures BumpsLeaveNothing(store, ns, key, now) <==> NoneAhead(store, ns, key, now)
  {
    if NoneAhead(store, ns, key, now) {
      forall n: nat | n > 0 ensures Hit(BumpedTimes(store, ns, key, now, n), ns, key, now).None? { HitAfter(store, ns, key, now, n); }
    }
    if BumpsLeaveNothing(store, ns, key, now) {
      forall v: nat | v > VersionIn(store, ns, key, now) ensures BodyIn(store, ns, key, v, now).None? {
        var n: nat := v - VersionIn(store, ns, key, now);
        HitAfter(store, ns, key, now, n);
        assert Hit(BumpedTimes(store, ns, key, now, n), ns, key, now).None?;
      }
    }
  }

  lemma HitAfter(store: map<string, Cell>, ns: string, key: string, now: int, n: nat)
    ensures Hit(BumpedTimes(store, ns, key, now, n), ns, key, now) == BodyIn(store, ns, key, VersionIn(store, ns, key, now) + n, now)
  {
    BumpedTimesShows(store, ns, key, now, n);
  }

  // ---------------------------------------------------------------- what keeps it and what does not

  /** The counter was never started or has not expired. */
  predicate Alive(store: map<string, Cell>, ns: string, key: string, now: int) {
    VersionKey(ns, key) in store ==> now <= store[VersionKey(ns, key)].expires
  }

  lemma AliveShowsTheSame(store: map<string, Cell>, ns: string, key: string, now: int, later: int)
    requires now <= later
    ensures Alive(store, ns, key, later) ==> VersionIn(store, ns, key, later) == VersionIn(store, ns, key, now)
    ensures VersionIn(store, ns, key, later) in {VersionIn(store, ns, key, now), 0}
    ensures forall v: nat | BodyIn(store, ns, key, v, now).None? :: BodyIn(store, ns, key, v, later).None?
  {
  }

  /** Time alone breaks it only where the counter expires, and there exactly if a body is alive under any
      version but the first. */
  lemma TimeKeepsIff(store: map<string, Cell>, ns: string, key: string, now: int, later: int)
    requires now <= later && NoneAhead(store, ns, key, now)
    ensures NoneAhead(store, ns, key, later) <==>
              VersionIn(store, ns, key, later) == VersionIn(store, ns, key, now) || forall v: nat | v > 0 :: BodyIn(store, ns, key, v, later).None?
    ensures Alive(store, ns, key, later) ==> NoneAhead(store, ns, key, later)
  {
    AliveShowsTheSame(store, ns, key, now, later);
  }

  /** Storing keeps it exactly when the version is not ahead of the counter. */
  lemma StoringKeepsIff(store: map<string, Cell>, ns: string, key: string, version: nat, value: string, ttl: nat, now: int)
    requires NoneAhead(store, ns, key, now)
    ensures NoneAhead(WithBody(store, ns, key, version, value, ttl, now), ns, key, now) <==> version <= VersionIn(store, ns, key, now)
  {
    WithBodyShows(store, ns, key, version, value, ttl, now);
    var store' := WithBody(store, ns, key, version, value, ttl, now);
    assert BodyIn(store', ns, key, version, now) == Some(value);
  }

  lemma BumpingKeeps(store: map<string, Cell>, ns: string, key: string, now: int)
    requires NoneAhead(store, ns, key, now)
    ensures NoneAhead(Bumped(store, ns, key, now), ns, key, now) && Hit(Bumped(store, ns, key, now), ns, key, now).None?
  {
    BumpedShows(store, ns, key, now);
  }

  // ---------------------------------------------------------------- whole runs

  /** Versions handed out to readers may come back with a body at any later time. */
  datatype State = State(store: map<string, Cell>, handed: set<(string, nat)>)

  datatype Event =
    | Read(key: string, now: int)
    | Put(key: string, now: int, version: nat, value: string)
    | Bump(key: string, now: int)

  predicate Allowed(s: State, e: Event) {
    e.Put? ==> (e.key, e.version) in s.handed
  }

  function Do(ns: string, ttl: nat, s: State, e: Event): State {
    match e
    case Read(key, now) => s.(handed := s.handed + {(key, VersionIn(s.store, ns, key, now))})
    case Put(key, now, version, value) => s.(store := WithBody(s.store, ns, key, version, value, ttl, now))
    case Bump(key, now) => s.(store := Bumped(s.store, ns, key, now))
  }

  /** Time does not run backwards, and the counter of `key` does not expire before `until`. */
  predicate Run(ns: string, ttl: nat, s: State, key: string, from: int, run: seq<Event>, until: int)
    decreases |run|
  {
    if run == [] then from <= until && Alive(s.store, ns, key, until)
    else from <= run[0].now && Alive(s.store, ns, key, run[0].now) && Allowed(s, run[0])
         && Run(ns, ttl, Do(ns, ttl, s, run[0]), key, run[0].now, run[1..], until)
  }

  function After(ns: string, ttl: nat, s: State, run: seq<Event>): State
    decreases |run|
  {
    if run == [] then s else After(ns, ttl, Do(ns, ttl, s, run[0]), run[1..])
  }

  /** No body of `key` is ahead of its counter, and no reader holds a version that is. */
  ghost predicate Sound(ns: string, s: State, key: string, now: int) {
    NoneAhead(s.store, ns, key, now) && forall v: nat | (key, v) in s.handed :: v <= VersionIn(s.store, ns, key, now)
  }

  lemma StepKeepsSound(ns: string, ttl: nat, s: State, key: string, e: Event)
    requires Sound(ns, s, key, e.now) && Allowed(s, e)
    ensures Sound(ns, Do(ns, ttl, s, e), key, e.now)
  {
    match e
    case Read(_, _) =>
    case Put(k, now, version, value) =>
      WithBodyShows(s.store, ns, k, version, value, ttl, now);
      if k == key { StoringKeepsIff(s.store, ns, key, version, value, ttl, now); }
    case Bump(k, now) =>
      BumpedShows(s.store, ns, k, now);
      if k == key { BumpingKeeps(s.store, ns, key, now); }
  }

  lemma WaitKeepsSound(ns: string, s: State, key: string, now: int, later: int)
    requires now <= later && Sound(ns, s, key, now) && Alive(s.store, ns, key, later)
    ensures Sound(ns, s, key, later)
  {
    TimeKeepsIff(s.store, ns, key, now, later);
    AliveShowsTheSame(s.store, ns, key, now, later);
  }

  /** While the counter of a key lives, no run of reads, stores and bumps of any keys brings a body of
      that key back: whatever is bumped next finds nothing. */
  lemma {:induction false} RunKeepsSound(ns: string, ttl: nat, s: State, key: string, from: int, run: seq<Event>, until: int)
    requires Sound(ns, s, key, from) && Run(ns, ttl, s, key, from, run, until)
    ensures var s' := After(ns, ttl, s, run);
            Sound(ns, s', key, until) && BumpsLeaveNothing(s'.store, ns, key, until)
    decreases |run|
  {
    if run == [] {
      WaitKeepsSound(ns, s, key, from, until);
      BumpsLeaveNothingIff(s.store, ns, key, until);
    } else {
      WaitKeepsSound(ns, s, key, from, run[0].now);
      StepKeepsSound(ns, ttl, s, key, run[0]);
      RunKeepsSound(ns, ttl, Do(ns, ttl, s, run[0]), key, run[0].now, run[1..], until);
    }
  }

  // ---------------------------------------------------------------- after the counter has expired

  /** A body stored under version `n` so late that it outlives the counter is a hit again once the
      counter, which starts anew, has been bumped `n` times. */
  lemma OldVersionComesBack(ns: string, key: string, n: nat, value: string, ttl: nat, start: int, stored: int, again: int, hit: int)
    requires n > 0 && start <= stored <= start + VERSION_TTL_SECONDS < again <= hit <= stored + ttl
    requires hit <= again + VERSION_TTL_SECONDS
    ensures var counted := BumpedTimes(map[], ns, key, start, n);
            var kept := WithBody(counted, ns, key, n, value, ttl, stored);
            && VersionIn(counted, ns, key, stored) == n
            && Hit(BumpedTimes(kept, ns, key, again, n), ns, key, hit) == Some(value)
  {
    var counted := BumpedTimes(map[], ns, key, start, n);
    var kept := WithBody(counted, ns, key, n, value, ttl, stored);
    BumpedTimesShows(map[], ns, key, start, n);
    WithBodyShows(counted, ns, key, n, value, ttl, stored);
    assert VersionIn(kept, ns, key, again) == 0;
    BumpedTimesShows(kept, ns, key, again, n);
  }

  /** With the lifetimes of the code: a counter at 2 that expires at 3600, a body stored at 3599 for a
      minute, and the two bumps of one write at 3601; the old body is a hit at 3602. */
  lemma BackAfterAnHour(ns: string, key: string, value: string)
    ensures var kept := WithBody(BumpedTimes(map[], ns, key, 0, 2), ns, key, 2, value, 60, 3599);
            Hit(BumpedTimes(kept, ns, key, 3601, 2), ns, key, 3602) == Some(value)
  {
    OldVersionComesBack(ns, key, 2, value, 60, 0, 3599, 3601, 3602);
  }
}
