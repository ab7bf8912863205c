/** The metering service over one session, statement by statement. */
module UsageService {
  import opened Wrappers
  import opened Metering

  const GAUGE_PERIOD := 0

  /** `int(value * ratio)`: the truncation of a non-negative product. */
  function SoftThreshold(limit: int, ratio: real): (r: int)
    ensures limit as real * ratio >= 0.0 ==> r as real <= limit as real * ratio < r as real + 1.0
    ensures limit as real * ratio <= 0.0 ==> r as real - 1.0 < limit as real * ratio <= r as real
  {
    var x := limit as real * ratio;
    if x >= 0.0 then x.Floor else -((-x).Floor)
  }

  /** What the entitlement resolver says about a metric. */
  datatype Cap = Cap(value: Option<int>, softRatio: Option<real>)

  datatype Check = Check(used: int, limit: Option<int>, remaining: Option<int>, withinLimit: bool, soft: Option<int>, softBreached: bool)

  /** The pre-flight check agrees with the consume it foretells. */
  function CheckAgainst(cap: Cap, used: int, quantity: int): (c: Check)
    ensures c.remaining.Some? <==> cap.value.Some?
    ensures c.withinLimit <==> c.remaining.None? || quantity <= c.remaining.value
  {
    var soft := if cap.value.Some? && cap.value.value != 0 && cap.softRatio.Some? && cap.softRatio.value != 0.0
                then Some(SoftThreshold(cap.value.value, cap.softRatio.value)) else None;
    Check(used, cap.value, if cap.value.Some? then Some(cap.value.value - used) else None,
          cap.value.None? || used + quantity <= cap.value.value, soft, soft.Some? && used >= soft.value)
  }

  /** Pre-flight and enforcement agree: a consume of a new key is served iff the check said it fits. */
  lemma CheckForetellsConsume(kinds: Kinds, t: Tables, r: Request, cap: Cap)
    requires MetricError(kinds, r.metric).None? && !Known(t, r) && r.enforced && r.limit == cap.value
    ensures CheckAgainst(cap, Total(t, Bucket(r.org, r.metric, r.month)), r.quantity).withinLimit <==> Serve(kinds, t, r).Ok?
  {
  }

  class UsageService {
    const kinds: Kinds
    var events: seq<Event>
    var counters: map<Bucket, int>
    var ledger: map<LedgerKey, LedgerRow>
    var notified: set<Bucket>
    var announced: seq<Bucket>

    constructor (kinds: Kinds, t: Tables)
      ensures this.kinds == kinds && T() == t && notified == {} && announced == []
    {
      this.kinds := kinds;
      events, counters, ledger := t.events, t.counters, t.ledger;
      notified, announced := {}, [];
    }

    /** The tables as this session sees them. */
    function T(): Tables
      reads this
    {
      Tables(events, counters, ledger)
    }

    /** Each bucket was announced at most once, and exactly when its row was stamped. */
    ghost predicate AnnouncedOnce()
      reads this
    {
      && (forall i, j | 0 <= i < j < |announced| :: announced[i] != announced[j])
      && (forall b :: b in announced <==> b in notified)
    }

    method ReserveIdempotency(r: Request) returns (first: bool)
      requires r.key.Some?
      modifies this`ledger
      ensures first == (LedgerKey(r.org, r.key.value) !in old(ledger))
      ensures ledger == if first then old(ledger)[LedgerKey(r.org, r.key.value) := LedgerRow(r.metric, r.quantity, None)] else old(ledger)
    {
      var lk := LedgerKey(r.org, r.key.value);
      first := lk !in ledger;
      if first { ledger := ledger[lk := LedgerRow(r.metric, r.quantity, None)]; }
    }

    method IncrementCounter(b: Bucket, quantity: int) returns (total: int)
      modifies this`counters
      ensures total == Total(old(T()), b) + quantity && counters == old(counters)[b := total]
    {
      if b in counters {
        counters := counters[b := counters[b] + quantity];
      } else {
        counters := counters[b := quantity];
      }
      total := counters[b];
    }

    method SettleIdempotency(r: Request, total: int)
      requires r.key.Some? && LedgerKey(r.org, r.key.value) in ledger
      modifies this`ledger
      ensures ledger == old(ledger)[LedgerKey(r.org, r.key.value) := old(ledger)[LedgerKey(r.org, r.key.value)].(total := Some(total))]
    {
      var lk := LedgerKey(r.org, r.key.value);
      ledger := ledger[lk := ledger[lk].(total := Some(total))];
    }

    /** Stamps the current month's row the first time the total is past the threshold; the stamp is
        what lets exactly one caller announce it. */
    method MaybeEmitSoftLimit(cap: Cap, total: int, now: Bucket) returns (emitted: bool)
      requires AnnouncedOnce()
      modifies this`notified, this`announced
      ensures AnnouncedOnce()
      ensures emitted == (&& cap.value.Some? && cap.softRatio.Some? && cap.softRatio.value != 0.0
                          && total >= SoftThreshold(cap.value.value, cap.softRatio.value)
                          && now in counters && now !in old(notified))
      ensures announced == if emitted then old(announced) + [now] else old(announced)
    {
      if cap.value.None? || cap.softRatio.None? || cap.softRatio.value == 0.0 { return false; }
      if total < SoftThreshold(cap.value.value, cap.softRatio.value) { return false; }
      emitted := now in counters && now !in notified;
      if emitted {
        notified := notified + {now};
        announced := announced + [now];
      }
    }

    /** Record (`enforced` false) or consume one event. On a refusal the session is left dirty and
        the caller rolls it back. */
    method Meter(r: Request, cap: Cap, now: Bucket) returns (answer: Result<Response>)
      requires AnnouncedOnce() && r.limit == cap.value
      modifies this
      ensures AnnouncedOnce()
      ensures match Serve(kinds, old(T()), r)
              case Err(e) => answer == Err(e)
              case Ok(v) => answer == Ok(v.1) && T() == v.0
      ensures answer.Ok? ==> forall b :: Total(T(), b) == Total(old(T()), b)
                                         + if b == Bucket(r.org, r.metric, r.month) && !Known(old(T()), r) then r.quantity else 0
      ensures answer.Ok? && !Known(old(T()), r) ==> answer.value.total == Total(T(), Bucket(r.org, r.metric, r.month))
    {
      if Serve(kinds, T(), r).Ok? { ServeCountsItsMonth(kinds, T(), r); }
      var bad := MetricError(kinds, r.metric);
      if bad.Some? { return Err(bad.value); }
      if r.key.Some? {
        var first := ReserveIdempotency(r);
        if !first { return Ok(Replayed(ledger[LedgerKey(r.org, r.key.value)])); }
      }
      events := events + [r.Ev()];
      var total := IncrementCounter(r.B(), r.quantity);
      if r.Breaks(total) { return Err(LimitExceeded(total - r.quantity, r.quantity)); }
      var _ := MaybeEmitSoftLimit(cap, total, now);
      if r.key.Some? { SettleIdempotency(r, total); }
      answer := Ok(Response(r.metric, r.quantity, total, false));
    }

    /** A batch in one transaction: every event counts, or the rollback leaves every table as it was. */
    method ConsumeMany(rs: seq<Request>, caps: seq<Cap>, now: seq<Bucket>) returns (answers: Result<seq<Response>>)
      requires AnnouncedOnce() && |caps| == |rs| == |now| && forall i | 0 <= i < |rs| :: rs[i].limit == caps[i].value
      modifies this
      ensures AnnouncedOnce()
      ensures match ServeAll(kinds, old(T()), rs)
              case Err(e) => answers == Err(e) && T() == old(T()) && announced == old(announced) && notified == old(notified)
              case Ok(v) => answers == Ok(v.1) && T() == v.0
    {
      var saved, stamps, outbox := T(), notified, announced;
      var done: seq<Response> := [];
      var i := 0;
      assert rs[0..] == rs;
      ghost var all := ServeAll(kinds, saved, rs);
      if all.Ok? { assert [] + all.value.1 == all.value.1; }
      while i < |rs|
        invariant 0 <= i <= |rs| && AnnouncedOnce()
        invariant ServeAll(kinds, saved, rs)
                  == match ServeAll(kinds, T(), rs[i..])
                     case Err(e) => Err(e)
                     case Ok(v) => Ok((v.0, done + v.1))
      {
        assert rs[i..][0] == rs[i] && rs[i..][1..] == rs[i + 1..];
        ghost var t := T();
        var answer := Meter(rs[i], caps[i], now[i]);
        if answer.Err? {
          events, counters, ledger := saved.events, saved.counters, saved.ledger;
          notified, announced := stamps, outbox;
          return Err(answer.error);
        }
        ghost var rest := ServeAll(kinds, T(), rs[i + 1..]);
        if rest.Ok? { assert done + ([answer.value] + rest.value.1) == (done + [answer.value]) + rest.value.1; }
        done := done + [answer.value];
        i := i + 1;
      }
      assert done + [] == done;
      answers := Ok(done);
    }

    // ---------------------------------------------------------------- gauges

    function Level(org: string, metric: string): int
      reads this
    {
      Total(T(), Bucket(org, metric, GAUGE_PERIOD))
    }

    /** A level never goes below zero and never resets with the month. */
    method SetGauge(org: string, metric: string, value: int) returns (ok: bool)
      modifies this`counters
      ensures ok == (metric in kinds && kinds[metric].Gauge?)
      ensures counters == if ok then old(counters)[Bucket(org, metric, GAUGE_PERIOD) := if value > 0 then value else 0] else old(counters)
    {
      ok := metric in kinds && kinds[metric].Gauge?;
      if ok { counters := counters[Bucket(org, metric, GAUGE_PERIOD) := if value > 0 then value else 0]; }
    }

    /** One upsert moves the level by `delta`, clamped at zero; with enforcement a positive move
        past the cap is refused and nothing changes. */
    method AdjustGauge(org: string, metric: string, delta: int, enforce: bool, cap: Cap) returns (ok: bool)
      requires Level(org, metric) >= 0
      modifies this`counters
      ensures ok == (metric in kinds && kinds[metric].Gauge?
                     && !(enforce && delta > 0 && cap.value.Some? && old(Level(org, metric)) + delta > cap.value.value))
      ensures !ok ==> counters == old(counters)
      ensures ok ==> Level(org, metric) == if old(Level(org, metric)) + delta > 0 then old(Level(org, metric)) + delta else 0
      ensures forall b | b != Bucket(org, metric, GAUGE_PERIOD) :: Total(T(), b) == Total(old(T()), b)
    {
      ok := metric in kinds && kinds[metric].Gauge?;
      if !ok { return; }
      var b := Bucket(org, metric, GAUGE_PERIOD);
      var current := Level(org, metric);
      if enforce && delta > 0 && cap.value.Some? && current + delta > cap.value.value { return false; }
      var excluded := if delta > 0 then delta else 0;
      if b in counters {
        var moved := counters[b] + excluded - (if delta > 0 then delta else 0) + delta;
        counters := counters[b := if moved > 0 then moved else 0];
      } else {
        counters := counters[b := excluded];
      }
    }
  }
}
