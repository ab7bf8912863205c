/**
 The in-process fixed-window limiter: per key, a counter and the window it belongs to.
 */
module RateLimiter {

  datatype Policy = Policy(limit: nat, window: int) {
    predicate Valid() { window > 0 }
  }

  // ---------------------------------------------------------------- histories of one key

  predicate Ordered(ts: seq<int>) {
    forall i, j | 0 <= i < j < |ts| :: ts[i] <= ts[j]
  }

  function WindowOf(p: Policy, t: int): int
    requires p.Valid()
  {
    t / p.window
  }

  /** Calls of a history that fall in window `q`. */
  function CallsIn(p: Policy, ts: seq<int>, q: int): nat
    requires p.Valid()
  {
    if ts == [] then 0
    else CallsIn(p, ts[..|ts| - 1], q) + if WindowOf(p, ts[|ts| - 1]) == q then 1 else 0
  }

  /** The specification: a call is let through while its window has had fewer than `limit` calls. */
  predicate Admits(p: Policy, earlier: seq<int>, now: int)
    requires p.Valid()
  {
    CallsIn(p, earlier, WindowOf(p, now)) < p.limit
  }

  /** Calls let through in `[from, until)`. */
  function AdmittedBetween(p: Policy, ts: seq<int>, from: int, until: int): nat
    requires p.Valid()
  {
    if ts == [] then 0
    else
      var init, last := ts[..|ts| - 1], ts[|ts| - 1];
      AdmittedBetween(p, init, from, until) + if from <= last < until && Admits(p, init, last) then 1 else 0
  }

  function Min(a: nat, b: nat): nat { if a <= b then a else b }

  lemma WindowBounds(p: Policy, t: int, q: int)
    requires p.Valid()
    ensures WindowOf(p, t) == q <==> q * p.window <= t < (q + 1) * p.window
  {
    var w := WindowOf(p, t);
    assert t == w * p.window + t % p.window;
    assert (w + 1) * p.window == w * p.window + p.window && (q + 1) * p.window == q * p.window + p.window;
    if q < w { Scaled(q + 1, w, p.window); }
    if w < q { Scaled(w + 1, q, p.window); }
  }

  lemma Scaled(a: int, b: int, w: int)
    requires a <= b && w > 0
    ensures a * w <= b * w
  {
    assert (b - a) * w >= 0;
    assert b * w == a * w + (b - a) * w;
  }

  /** In every aligned window exactly min(calls, limit) calls go through. */
  lemma {:induction false} WindowAdmitsMin(p: Policy, ts: seq<int>, q: int)
    requires p.Valid()
    ensures AdmittedBetween(p, ts, q * p.window, (q + 1) * p.window) == Min(CallsIn(p, ts, q), p.limit)
    decreases |ts|
  {
    if ts != [] {
      WindowAdmitsMin(p, ts[..|ts| - 1], q);
      WindowBounds(p, ts[|ts| - 1], q);
    }
  }

  lemma {:induction false} IntervalSplits(p: Policy, ts: seq<int>, from: int, mid: int, until: int)
    requires p.Valid() && from <= mid <= until
    ensures AdmittedBetween(p, ts, from, until) == AdmittedBetween(p, ts, from, mid) + AdmittedBetween(p, ts, mid, until)
    decreases |ts|
  {
    if ts != [] { IntervalSplits(p, ts[..|ts| - 1], from, mid, until); }
  }

  lemma {:induction false} WiderAdmitsMore(p: Policy, ts: seq<int>, from: int, until: int, from': int, until': int)
    requires p.Valid() && from' <= from && until <= until'
    ensures AdmittedBetween(p, ts, from, until) <= AdmittedBetween(p, ts, from', until')
    decreases |ts|
  {
    if ts != [] { WiderAdmitsMore(p, ts[..|ts| - 1], from, until, from', until'); }
  }

  /** Any interval one window long, aligned or not, lets at most twice the limit through. */
  lemma AtMostTwiceTheLimit(p: Policy, ts: seq<int>, from: int)
    requires p.Valid()
    ensures AdmittedBetween(p, ts, from, from + p.window) <= 2 * p.limit
  {
    var q := WindowOf(p, from);
    var w := p.window;
    WindowBounds(p, from, q);
    assert (q + 2) * w == (q + 1) * w + w && (q + 1) * w == q * w + w;
    WiderAdmitsMore(p, ts, from, from + w, q * w, (q + 2) * w);
    IntervalSplits(p, ts, q * w, (q + 1) * w, (q + 2) * w);
    WindowAdmitsMin(p, ts, q);
    WindowAdmitsMin(p, ts, q + 1);
  }

  function Copies(t: int, k: nat): seq<int> {
    if k == 0 then [] else Copies(t, k - 1) + [t]
  }

  lemma OneCallMore(p: Policy, ts: seq<int>, t: int, q: int)
    requires p.Valid()
    ensures CallsIn(p, ts + [t], q) == CallsIn(p, ts, q) + if WindowOf(p, t) == q then 1 else 0
  {
    assert (ts + [t])[..|ts|] == ts;
  }

  lemma OneCallIsAdmitted(p: Policy, ts: seq<int>, t: int, from: int, until: int)
    requires p.Valid() && from <= t < until && Admits(p, ts, t)
    ensures AdmittedBetween(p, ts + [t], from, until) == AdmittedBetween(p, ts, from, until) + 1
  {
    assert (ts + [t])[..|ts|] == ts;
  }

  lemma OneCopyMore(ts: seq<int>, t: int, k: nat)
    ensures ts + Copies(t, 0) == ts
    ensures k > 0 ==> ts + Copies(t, k) == ts + Copies(t, k - 1) + [t]
  {
  }

  lemma {:induction false} CallsInBurst(p: Policy, ts: seq<int>, t: int, k: nat, q: int)
    requires p.Valid()
    ensures CallsIn(p, ts + Copies(t, k), q) == CallsIn(p, ts, q) + if WindowOf(p, t) == q then k else 0
    decreases k
  {
    OneCopyMore(ts, t, k);
    if k > 0 {
      CallsInBurst(p, ts, t, k - 1, q);
      OneCallMore(p, ts + Copies(t, k - 1), t, q);
    }
  }

  lemma RoomForOneMore(p: Policy, ts: seq<int>, t: int, k: nat)
    requires p.Valid() && k > 0 && CallsIn(p, ts, WindowOf(p, t)) + k <= p.limit
    ensures Admits(p, ts + Copies(t, k - 1), t)
  {
    CallsInBurst(p, ts, t, k - 1, WindowOf(p, t));
  }

  /** A burst of calls at one moment, while its window has room, goes through to the last one. */
  lemma {:induction false} BurstIsAdmitted(p: Policy, ts: seq<int>, t: int, k: nat, from: int, until: int)
    requires p.Valid() && from <= t < until && CallsIn(p, ts, WindowOf(p, t)) + k <= p.limit
    ensures AdmittedBetween(p, ts + Copies(t, k), from, until) == AdmittedBetween(p, ts, from, until) + k
    decreases k
  {
    OneCopyMore(ts, t, k);
    if k > 0 {
      BurstIsAdmitted(p, ts, t, k - 1, from, until);
      RoomForOneMore(p, ts, t, k);
      OneCallIsAdmitted(p, ts + Copies(t, k - 1), t, from, until);
    }
  }

  lemma {:induction false} CopiesAre(t: int, k: nat)
    ensures |Copies(t, k)| == k && forall i | 0 <= i < k :: Copies(t, k)[i] == t
  {
    if k > 0 { CopiesAre(t, k - 1); }
  }

  /** As many calls as the limit in the moment before `edge`, as many at it. */
  function Straddle(p: Policy, edge: int): seq<int> {
    Copies(edge - 1, p.limit) + Copies(edge, p.limit)
  }

  lemma TwoBursts(p: Policy, edge: int)
    requires p.Valid() && p.window >= 2 && WindowOf(p, edge - 1) != WindowOf(p, edge)
    ensures AdmittedFrom(p, Straddle(p, edge), edge - 1) == 2 * p.limit
  {
    var early := Copies(edge - 1, p.limit);
    assert [] + early == early;
    CallsInBurst(p, [], edge - 1, p.limit, WindowOf(p, edge));
    BurstIsAdmitted(p, [], edge - 1, p.limit, edge - 1, edge - 1 + p.window);
    BurstIsAdmitted(p, early, edge, p.limit, edge - 1, edge - 1 + p.window);
  }

  /** At the edge of any window, both bursts go through. */
  lemma StraddleGoesThrough(p: Policy, q: int)
    requires p.Valid() && p.window >= 2
    ensures Ordered(Straddle(p, q * p.window))
    ensures AdmittedFrom(p, Straddle(p, q * p.window), q * p.window - 1) == 2 * p.limit
  {
    var edge := q * p.window;
    CopiesAre(edge - 1, p.limit);
    CopiesAre(edge, p.limit);
    EdgeOfWindow(p, q);
    TwoBursts(p, edge);
  }

  lemma EdgeOfWindow(p: Policy, q: int)
    requires p.Valid()
    ensures WindowOf(p, q * p.window) == q && WindowOf(p, q * p.window - 1) == q - 1
  {
    WindowBounds(p, q * p.window - 1, q - 1);
    WindowBounds(p, q * p.window, q);
    assert (q - 1) * p.window == q * p.window - p.window && (q + 1) * p.window == q * p.window + p.window;
  }

  /** Calls let through in the interval one window long that starts at `from`. */
  function AdmittedFrom(p: Policy, ts: seq<int>, from: int): nat
    requires p.Valid()
  {
    AdmittedBetween(p, ts, from, from + p.window)
  }

  /** Some interval one window long lets twice the limit through: always, unless a window is a single
      moment. */
  lemma TwiceIsReached(p: Policy)
    requires p.Valid()
    ensures (exists ts, from :: Ordered(ts) && AdmittedFrom(p, ts, from) == 2 * p.limit) <==> p.window >= 2 || p.limit == 0
  {
    if p.window >= 2 {
      StraddleGoesThrough(p, 0);
    } else if p.limit == 0 {
      assert Ordered([]) && AdmittedFrom(p, [], 0) == 0;
    } else {
      forall ts, from ensures AdmittedFrom(p, ts, from) <= p.limit {
        assert from * p.window == from && (from + 1) * p.window == from + p.window;
        WindowAdmitsMin(p, ts, from);
      }
    }
  }

  // ---------------------------------------------------------------- the limiter

  /** What the limiter keeps of one key's calls. */
  predicate Follows(p: Policy, ts: seq<int>, count: nat, window: int)
    requires p.Valid()
  {
    ts != [] && Ordered(ts) && window == WindowOf(p, ts[|ts| - 1]) && count == CallsIn(p, ts, window)
  }

  lemma Counted(p: Policy, ts: seq<int>, now: int)
    requires p.Valid() && Ordered(ts) && (ts != [] ==> ts[|ts| - 1] <= now)
    ensures Follows(p, ts + [now], CallsIn(p, ts, WindowOf(p, now)) + 1, WindowOf(p, now))
  {
    var all := ts + [now];
    assert all[..|all| - 1] == ts;
    assert forall i | 0 <= i < |ts| :: ts[i] <= ts[|ts| - 1];
  }

  class Limiter {
    const policy: Policy
    var local: map<string, nat>
    var localWindows: map<string, int>
    /** Every call made so far, per key. */
    ghost var history: map<string, seq<int>>

    ghost predicate Valid() reads this {
      && policy.Valid() && local.Keys == localWindows.Keys == history.Keys
      && forall key | key in history :: Follows(policy, history[key], local[key], localWindows[key])
    }

    ghost function Calls(key: string): seq<int> reads this {
      if key in history then history[key] else []
    }

    constructor (p: Policy)
      requires p.Valid()
      ensures Valid() && policy == p && history == map[]
    {
      policy := p;
      local, localWindows, history := map[], map[], map[];
    }

    /** The counter of this call within its window. */
    method Count(key: string, now: int) returns (count: nat)
      requires Valid() && (Calls(key) != [] ==> Calls(key)[|Calls(key)| - 1] <= now)
      modifies this
      ensures Valid() && history == old(history)[key := old(Calls(key)) + [now]]
      ensures count == CallsIn(policy, old(Calls(key)), WindowOf(policy, now)) + 1
    {
      var window := now / policy.window;
      ghost var before := Calls(key);
      Counted(policy, before, now);
      if key !in localWindows || localWindows[key] != window {
        EarlierWindow(policy, before, now);
        local := local - {key};
        localWindows := localWindows[key := window];
      }
      count := (if key in local then local[key] else 0) + 1;
      local := local[key := count];
      history := history[key := before + [now]];
    }

    /** Counts the call; a refused one is told when to come back. Other keys do not notice. */
    method CheckLocal(key: string, now: int) returns (retryAfter: int)
      requires Valid() && (Calls(key) != [] ==> Calls(key)[|Calls(key)| - 1] <= now)
      modifies this
      ensures Valid() && history == old(history)[key := old(Calls(key)) + [now]]
      ensures retryAfter == 0 <==> Admits(policy, old(Calls(key)), now)
      ensures retryAfter != 0 ==> 1 <= retryAfter <= policy.window
                                  && now + retryAfter == (WindowOf(policy, now) + 1) * policy.window
    {
      var count := Count(key, now);
      retryAfter := 0;
      if count > policy.limit {
        retryAfter := policy.window - now % policy.window;
        NextWindow(policy, now);
        if retryAfter < 1 { retryAfter := 1; }
      }
    }
  }

  lemma NextWindow(p: Policy, now: int)
    requires p.Valid()
    ensures now + (p.window - now % p.window) == (WindowOf(p, now) + 1) * p.window
  {
    assert now == WindowOf(p, now) * p.window + now % p.window;
    assert (WindowOf(p, now) + 1) * p.window == WindowOf(p, now) * p.window + p.window;
  }

  lemma EarlierWindow(p: Policy, ts: seq<int>, now: int)
    requires p.Valid() && Ordered(ts) && (ts == [] || (ts[|ts| - 1] <= now && WindowOf(p, ts[|ts| - 1]) != WindowOf(p, now)))
    ensures CallsIn(p, ts, WindowOf(p, now)) == 0
  {
    if ts != [] { LaterWindow(p, ts[|ts| - 1], now); }
    NoneYet(p, ts, WindowOf(p, now));
  }

  lemma LaterWindow(p: Policy, a: int, b: int)
    requires p.Valid() && a <= b
    ensures WindowOf(p, a) <= WindowOf(p, b)
  {
    if WindowOf(p, b) < WindowOf(p, a) {
      WindowBounds(p, a, WindowOf(p, a));
      WindowBounds(p, b, WindowOf(p, b));
      Scaled(WindowOf(p, b) + 1, WindowOf(p, a), p.window);
    }
  }

  lemma {:induction false} NoneYet(p: Policy, ts: seq<int>, q: int)
    requires p.Valid() && Ordered(ts) && (ts != [] ==> WindowOf(p, ts[|ts| - 1]) < q)
    ensures CallsIn(p, ts, q) == 0
    decreases |ts|
  {
    if |ts| > 1 {
      LaterWindow(p, ts[|ts| - 2], ts[|ts| - 1]);
      NoneYet(p, ts[..|ts| - 1], q);
    }
  }
}
