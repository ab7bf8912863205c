/**
 Usage metering. `Serve` is what one request does to the tables when it runs alone; `Micro` is
 the same work cut into the statements the service sends, each of which may interleave with the
 statements of other transactions.
 */
module Metering {
  import opened Wrappers

  datatype Kind = Counter | Gauge

  datatype Bucket = Bucket(org: string, metric: string, month: int)

  datatype Event = Event(bucket: Bucket, quantity: int, key: Option<string>, enforced: bool)

  datatype LedgerKey = LedgerKey(org: string, key: string)

  datatype LedgerRow = LedgerRow(metric: string, quantity: int, total: Option<int>)

  datatype Tables = Tables(events: seq<Event>, counters: map<Bucket, int>, ledger: map<LedgerKey, LedgerRow>)

  /** `enforced` is a consume; `limit` is the cap resolved for it. */
  datatype Request = Request(enforced: bool, org: string, metric: string, quantity: int, month: int, key: Option<string>, limit: Option<int>)
  {
    function B(): Bucket { Bucket(org, metric, month) }
    function Ev(): Event { Event(B(), quantity, key, enforced) }
    function Breaks(total: int): bool { enforced && limit.Some? && total > limit.value }
  }

  datatype Response = Response(metric: string, quantity: int, total: int, deduplicated: bool)

  datatype Error = UnknownMetric | GaugeMetric | LimitExceeded(used: int, attempted: int)

  datatype Result<+T> = Ok(value: T) | Err(error: Error)

  const EMPTY := Tables([], map[], map[])

  type Kinds = map<string, Kind>

  function Total(t: Tables, b: Bucket): int {
    if b in t.counters then t.counters[b] else 0
  }

  function MetricError(kinds: Kinds, metric: string): Option<Error> {
    if metric !in kinds then Some(UnknownMetric) else if kinds[metric].Gauge? then Some(GaugeMetric) else None
  }

  predicate Known(t: Tables, r: Request) {
    r.key.Some? && LedgerKey(r.org, r.key.value) in t.ledger
  }

  function Replayed(row: LedgerRow): Response {
    Response(row.metric, row.quantity, if row.total.Some? then row.total.value else 0, true)
  }

  /** One request alone: replay a known key, else log the event, count it, and settle the key. */
  function Serve(kinds: Kinds, t: Tables, r: Request): Result<(Tables, Response)> {
    if MetricError(kinds, r.metric).Some? then Err(MetricError(kinds, r.metric).value)
    else if Known(t, r) then Ok((t, Replayed(t.ledger[LedgerKey(r.org, r.key.value)])))
    else
      var total := Total(t, r.B()) + r.quantity;
      if r.Breaks(total) then Err(LimitExceeded(total - r.quantity, r.quantity))
      else
        var ledger := if r.key.Some? then t.ledger[LedgerKey(r.org, r.key.value) := LedgerRow(r.metric, r.quantity, Some(total))] else t.ledger;
        Ok((Tables(t.events + [r.Ev()], t.counters[r.B() := total], ledger), Response(r.metric, r.quantity, total, false)))
  }

  /** A batch: all of it or nothing. */
  function ServeAll(kinds: Kinds, t: Tables, rs: seq<Request>): Result<(Tables, seq<Response>)>
    decreases |rs|
  {
    if rs == [] then Ok((t, []))
    else match Serve(kinds, t, rs[0])
      case Err(e) => Err(e)
      case Ok(first) =>
        match ServeAll(kinds, first.0, rs[1..])
        case Err(e) => Err(e)
        case Ok(rest) => Ok((rest.0, [first.1] + rest.1))
  }

  // ---------------------------------------------------------------- what the tables mean

  function Sum(events: seq<Event>, b: Bucket): int {
    if events == [] then 0
    else Sum(events[..|events| - 1], b) + (if events[|events| - 1].bucket == b then events[|events| - 1].quantity else 0)
  }

  /** Quantities that entered without enforcement. */
  function Recorded(events: seq<Event>, b: Bucket): int {
    if events == [] then 0
    else
      var e := events[|events| - 1];
      Recorded(events[..|events| - 1], b) + (if e.bucket == b && !e.enforced then e.quantity else 0)
  }

  function Uses(events: seq<Event>, lk: LedgerKey): nat {
    if events == [] then 0
    else
      var e := events[|events| - 1];
      Uses(events[..|events| - 1], lk) + (if e.bucket.org == lk.org && e.key == Some(lk.key) then 1 else 0)
  }

  /** The event a ledger row stands for. */
  ghost predicate Backed(events: seq<Event>, lk: LedgerKey, row: LedgerRow) {
    exists i :: 0 <= i < |events| && events[i].bucket.org == lk.org && events[i].key == Some(lk.key)
                && events[i].bucket.metric == row.metric && events[i].quantity == row.quantity
  }

  /** Counters are the sums of their events; a key has one settled row and one event, or neither. */
  ghost predicate Sound(t: Tables) {
    && (forall b :: Total(t, b) == Sum(t.events, b))
    && (forall lk | lk in t.ledger :: t.ledger[lk].total.Some? && Uses(t.events, lk) == 1 && Backed(t.events, lk, t.ledger[lk]))
    && (forall lk | lk !in t.ledger :: Uses(t.events, lk) == 0)
  }

  lemma ServeIsSound(kinds: Kinds, t: Tables, r: Request)
    requires Sound(t) && Serve(kinds, t, r).Ok?
    ensures Sound(Serve(kinds, t, r).value.0)
  {
    var t' := Serve(kinds, t, r).value.0;
    if !Known(t, r) {
      assert t'.events[..|t'.events| - 1] == t.events;
      forall lk | lk in t'.ledger ensures t'.ledger[lk].total.Some? && Uses(t'.events, lk) == 1 && Backed(t'.events, lk, t'.ledger[lk]) {
        if lk in t.ledger {
          var i :| 0 <= i < |t.events| && t.events[i].bucket.org == lk.org && t.events[i].key == Some(lk.key)
                   && t.events[i].bucket.metric == t.ledger[lk].metric && t.events[i].quantity == t.ledger[lk].quantity;
          assert t'.events[i] == t.events[i];
        } else {
          assert t'.events[|t.events|] == r.Ev();
        }
      }
    }
  }

  lemma {:induction false} ServeAllIsSound(kinds: Kinds, t: Tables, rs: seq<Request>)
    requires Sound(t) && ServeAll(kinds, t, rs).Ok?
    ensures Sound(ServeAll(kinds, t, rs).value.0)
    decreases |rs|
  {
    if rs != [] {
      ServeIsSound(kinds, t, rs[0]);
      ServeAllIsSound(kinds, Serve(kinds, t, rs[0]).value.0, rs[1..]);
    }
  }

  /** Every consume of bucket `b` is held to a cap of at most `cap`. */
  ghost predicate HeldTo(rs: seq<Request>, b: Bucket, cap: int) {
    forall i | 0 <= i < |rs| && rs[i].enforced && Bucket(rs[i].org, rs[i].metric, rs[i].month) == b :: rs[i].limit.Some? && rs[i].limit.value <= cap
  }

  ghost predicate Within(t: Tables, b: Bucket, cap: int) {
    Total(t, b) <= cap + Recorded(t.events, b) && Recorded(t.events, b) >= 0
  }

  lemma ServeStaysWithin(kinds: Kinds, t: Tables, r: Request, b: Bucket, cap: int)
    requires Serve(kinds, t, r).Ok? && Within(t, b, cap) && r.quantity >= 1
    requires r.enforced && Bucket(r.org, r.metric, r.month) == b ==> r.limit.Some? && r.limit.value <= cap
    ensures Within(Serve(kinds, t, r).value.0, b, cap)
  {
    var t' := Serve(kinds, t, r).value.0;
    if !Known(t, r) { assert t'.events[..|t'.events| - 1] == t.events; }
  }

  /** Only unenforced recording can push a counter past the cap, and only by what it recorded. */
  lemma {:induction false} ServeAllStaysWithin(kinds: Kinds, t: Tables, rs: seq<Request>, b: Bucket, cap: int)
    requires ServeAll(kinds, t, rs).Ok? && HeldTo(rs, b, cap) && Within(t, b, cap)
    requires forall i | 0 <= i < |rs| :: rs[i].quantity >= 1
    ensures Within(ServeAll(kinds, t, rs).value.0, b, cap)
    decreases |rs|
  {
    if rs != [] {
      ServeStaysWithin(kinds, t, rs[0], b, cap);
      ServeAllStaysWithin(kinds, Serve(kinds, t, rs[0]).value.0, rs[1..], b, cap);
    }
  }

  /** When a request is refused, and with what: its metric is unknown or no counter, or it is a consume
      and counting it into what was logged for its organization, metric and month would overshoot the cap. */
  lemma RefusedIffOvershoots(kinds: Kinds, t: Tables, r: Request)
    requires Sound(t)
    ensures var logged := Sum(t.events, Bucket(r.org, r.metric, r.month)); var o := Serve(kinds, t, r);
            && (o == Err(UnknownMetric) <==> r.metric !in kinds)
            && (o == Err(GaugeMetric) <==> r.metric in kinds && kinds[r.metric].Gauge?)
            && (o == Err(LimitExceeded(logged, r.quantity)) <==>
                  && r.metric in kinds && kinds[r.metric].Counter? && !Known(t, r)
                  && r.enforced && r.limit.Some? && logged + r.quantity > r.limit.value)
            && (o.Err? ==> o.error in {UnknownMetric, GaugeMetric, LimitExceeded(logged, r.quantity)})
  {
    assert Total(t, Bucket(r.org, r.metric, r.month)) == Sum(t.events, Bucket(r.org, r.metric, r.month));
  }

  /** What serving a request does to the rows: its quantity enters the counter of its organization, metric
      and month and no other, once; the event says so; and the answer names that counter's new total. */
  lemma ServeCountsItsMonth(kinds: Kinds, t: Tables, r: Request)
    requires Serve(kinds, t, r).Ok?
    ensures var (t', answer) := Serve(kinds, t, r).value; var bucket := Bucket(r.org, r.metric, r.month);
            && (forall b :: Total(t', b) == Total(t, b) + if b == bucket && !Known(t, r) then r.quantity else 0)
            && t'.events == t.events + (if Known(t, r) then [] else [Event(bucket, r.quantity, r.key, r.enforced)])
            && (!Known(t, r) ==> answer == Response(r.metric, r.quantity, Total(t', bucket), false))
            && (forall lk | lk in t'.ledger && !(r.key == Some(lk.key) && r.org == lk.org) :: lk in t.ledger && t'.ledger[lk] == t.ledger[lk])
            && (!Known(t, r) && r.key.Some? ==>
                  && LedgerKey(r.org, r.key.value) in t'.ledger
                  && t'.ledger[LedgerKey(r.org, r.key.value)] == LedgerRow(r.metric, r.quantity, Some(Total(t', bucket))))
  {
    if Known(t, r) { assert t.events + [] == t.events; }
  }

  /** What is counted in `b` when these requests are served one after the other, replays left out. */
  function Counted(kinds: Kinds, t: Tables, rs: seq<Request>, b: Bucket): int
    requires ServeAll(kinds, t, rs).Ok?
    decreases |rs|
  {
    if rs == [] then 0
    else (if Bucket(rs[0].org, rs[0].metric, rs[0].month) == b && !Known(t, rs[0]) then rs[0].quantity else 0)
         + Counted(kinds, Serve(kinds, t, rs[0]).value.0, rs[1..], b)
  }

  lemma {:induction false} ServeAllCounts(kinds: Kinds, t: Tables, rs: seq<Request>, b: Bucket)
    requires ServeAll(kinds, t, rs).Ok?
    ensures Total(ServeAll(kinds, t, rs).value.0, b) == Total(t, b) + Counted(kinds, t, rs, b)
    decreases |rs|
  {
    if rs != [] {
      ServeCountsItsMonth(kinds, t, rs[0]);
      ServeAllCounts(kinds, Serve(kinds, t, rs[0]).value.0, rs[1..], b);
    }
  }

  /** Request `q` counts elsewhere than `r` and does not use its key. */
  predicate Apart(q: Request, r: Request) {
    && (q.org != r.org || q.metric != r.metric || q.month != r.month)
    && (r.key.None? || q.key != r.key || q.org != r.org)
  }

  lemma ServeLeavesOthers(kinds: Kinds, t: Tables, q: Request, r: Request)
    requires Serve(kinds, t, q).Ok? && Apart(q, r)
    ensures var t' := Serve(kinds, t, q).value.0;
            && Total(t', Bucket(r.org, r.metric, r.month)) == Total(t, Bucket(r.org, r.metric, r.month))
            && (Known(t', r) <==> Known(t, r))
            && (Known(t, r) ==> t'.ledger[LedgerKey(r.org, r.key.value)] == t.ledger[LedgerKey(r.org, r.key.value)])
  {
  }

  /** Requests of other months, metrics or organizations, however many, change neither what a request
      finds counted nor whether it is refused nor what it is answered. */
  lemma {:induction false} MonthsAreApart(kinds: Kinds, t: Tables, rs: seq<Request>, r: Request)
    requires ServeAll(kinds, t, rs).Ok? && forall i | 0 <= i < |rs| :: Apart(rs[i], r)
    ensures var t' := ServeAll(kinds, t, rs).value.0;
            && Total(t', Bucket(r.org, r.metric, r.month)) == Total(t, Bucket(r.org, r.metric, r.month))
            && (Known(t', r) <==> Known(t, r))
            && (match Serve(kinds, t, r)
                case Err(e) => Serve(kinds, t', r) == Err(e)
                case Ok(v) => Serve(kinds, t', r).Ok? && Serve(kinds, t', r).value.1 == v.1)
    decreases |rs|
  {
    if rs != [] {
      ServeLeavesOthers(kinds, t, rs[0], r);
      MonthsAreApart(kinds, Serve(kinds, t, rs[0]).value.0, rs[1..], r);
    }
  }

  /** A new month starts at nothing: the first request of a metric in it is held to the cap alone. */
  lemma MonthStartsAtZero(kinds: Kinds, t: Tables, r: Request)
    requires Sound(t) && MetricError(kinds, r.metric).None? && !Known(t, r)
    requires forall e | e in t.events :: e.bucket != Bucket(r.org, r.metric, r.month)
    ensures Serve(kinds, t, r).Err? <==> r.enforced && r.limit.Some? && r.quantity > r.limit.value
    ensures Serve(kinds, t, r).Ok? ==> Serve(kinds, t, r).value.1 == Response(r.metric, r.quantity, r.quantity, false)
  {
    NothingLogged(t.events, Bucket(r.org, r.metric, r.month));
    RefusedIffOvershoots(kinds, t, r);
    if Serve(kinds, t, r).Ok? { ServeCountsItsMonth(kinds, t, r); }
  }

  lemma {:induction false} NothingLogged(events: seq<Event>, b: Bucket)
    requires forall e | e in events :: e.bucket != b
    ensures Sum(events, b) == 0
    decreases |events|
  {
    if events != [] { NothingLogged(events[..|events| - 1], b); }
  }

  // ---------------------------------------------------------------- retries

  lemma {:induction false} LedgerIsForever(kinds: Kinds, t: Tables, rs: seq<Request>, lk: LedgerKey)
    requires ServeAll(kinds, t, rs).Ok? && lk in t.ledger
    ensures lk in ServeAll(kinds, t, rs).value.0.ledger && ServeAll(kinds, t, rs).value.0.ledger[lk] == t.ledger[lk]
    decreases |rs|
  {
    if rs != [] { LedgerIsForever(kinds, Serve(kinds, t, rs[0]).value.0, rs[1..], lk); }
  }

  /** Whatever is served in between, a second request with the same key in the same organization
      changes no table and gets the first one's metric, quantity and total back. */
  lemma RetryReplays(kinds: Kinds, t: Tables, first: Request, between: seq<Request>, retry: Request)
    requires Sound(t) && Serve(kinds, t, first).Ok?
    requires ServeAll(kinds, Serve(kinds, t, first).value.0, between).Ok?
    requires first.key.Some? && retry.key == first.key && retry.org == first.org
    requires MetricError(kinds, retry.metric).None?
    ensures var t2 := ServeAll(kinds, Serve(kinds, t, first).value.0, between).value.0;
            var answer := Serve(kinds, t, first).value.1;
            Serve(kinds, t2, retry) == Ok((t2, answer.(deduplicated := true)))
  {
    var t1 := Serve(kinds, t, first).value.0;
    ServeIsSound(kinds, t, first);
    LedgerIsForever(kinds, t1, between, LedgerKey(first.org, first.key.value));
  }

  // ---------------------------------------------------------------- the statements of a transaction

  datatype Pc = Idle | Reserved | Inserted | Incremented(total: int)

  datatype Local = Local(todo: seq<Request>, pc: Pc, out: seq<Response>, failed: Option<Error>)

  datatype Write = Nothing | AddEvent(e: Event) | SetCounter(b: Bucket, v: int) | SetLedger(lk: LedgerKey, row: LedgerRow)

  predicate Running(l: Local) {
    l.failed.None? && l.todo != []
  }

  function Begun(script: seq<Request>): Local {
    Local(script, Idle, [], None)
  }

  function Finish(l: Local, answer: Response): Local
    requires l.todo != []
  {
    Local(l.todo[1..], Idle, l.out + [answer], None)
  }

  /** What the next statement writes, given what the transaction sees. */
  function MicroWrite(kinds: Kinds, view: Tables, l: Local): Write
    requires Running(l)
  {
    var r := l.todo[0];
    match l.pc
    case Idle =>
      if MetricError(kinds, r.metric).Some? || r.key.None? || Known(view, r) then Nothing
      else SetLedger(LedgerKey(r.org, r.key.value), LedgerRow(r.metric, r.quantity, None))
    case Reserved => AddEvent(r.Ev())
    case Inserted => SetCounter(r.B(), Total(view, r.B()) + r.quantity)
    case Incremented(total) =>
      if r.key.None? then Nothing
      else SetLedger(LedgerKey(r.org, r.key.value), LedgerRow(r.metric, r.quantity, Some(total)))
  }

  function MicroLocal(kinds: Kinds, view: Tables, l: Local): Local
    requires Running(l)
  {
    var r := l.todo[0];
    match l.pc
    case Idle =>
      if MetricError(kinds, r.metric).Some? then l.(failed := MetricError(kinds, r.metric))
      else if Known(view, r) then Finish(l, Replayed(view.ledger[LedgerKey(r.org, r.key.value)]))
      else l.(pc := Reserved)
    case Reserved => l.(pc := Inserted)
    case Inserted =>
      var total := Total(view, r.B()) + r.quantity;
      if r.Breaks(total) then l.(failed := Some(LimitExceeded(total - r.quantity, r.quantity))) else l.(pc := Incremented(total))
    case Incremented(total) => Finish(l, Response(r.metric, r.quantity, total, false))
  }

  function Apply(t: Tables, w: Write): Tables {
    match w
    case Nothing => t
    case AddEvent(e) => t.(events := t.events + [e])
    case SetCounter(b, v) => t.(counters := t.counters[b := v])
    case SetLedger(lk, row) => t.(ledger := t.ledger[lk := row])
  }

  /** A transaction's own writes laid over the committed tables. */
  function Over(base: Tables, own: Tables): Tables {
    Tables(base.events + own.events, base.counters + own.counters, base.ledger + own.ledger)
  }

  lemma OverApply(base: Tables, own: Tables, w: Write)
    ensures Over(base, Apply(own, w)) == Apply(Over(base, own), w)
  {
    assert base.events + (own.events + (if w.AddEvent? then [w.e] else [])) == (base.events + own.events) + (if w.AddEvent? then [w.e] else []);
  }

  /** `n` statements in a row against unchanging committed tables. */
  function Micros(kinds: Kinds, base: Tables, own: Tables, l: Local, n: nat): (Tables, Local)
    decreases n
  {
    if n == 0 || !Running(l) then (own, l)
    else
      var view := Over(base, own);
      Micros(kinds, base, Apply(own, MicroWrite(kinds, view, l)), MicroLocal(kinds, view, l), n - 1)
  }

  lemma {:induction false} MicrosSnoc(kinds: Kinds, base: Tables, own: Tables, l: Local, n: nat)
    ensures var (o, x) := Micros(kinds, base, own, l, n);
            Micros(kinds, base, own, l, n + 1)
            == if Running(x) then (Apply(o, MicroWrite(kinds, Over(base, o), x)), MicroLocal(kinds, Over(base, o), x)) else (o, x)
    decreases n
  {
    if n > 0 && Running(l) {
      var view := Over(base, own);
      MicrosSnoc(kinds, base, Apply(own, MicroWrite(kinds, view, l)), MicroLocal(kinds, view, l), n - 1);
    }
  }

  lemma {:induction false} MicrosGrow(kinds: Kinds, base: Tables, own: Tables, l: Local, n: nat)
    ensures var o := Micros(kinds, base, own, l, n).0;
            own.counters.Keys <= o.counters.Keys && own.ledger.Keys <= o.ledger.Keys
    decreases n
  {
    if n > 0 && Running(l) {
      var view := Over(base, own);
      MicrosGrow(kinds, base, Apply(own, MicroWrite(kinds, view, l)), MicroLocal(kinds, view, l), n - 1);
    }
  }

  /** Another transaction's commit does not disturb statements already run, as long as the two
      never touched the same counter and never reserved the same key. */
  lemma {:induction false} CommitsCommute(kinds: Kinds, base: Tables, other: Tables, own: Tables, l: Local, n: nat)
    requires var o := Micros(kinds, base, own, l, n).0;
             o.counters.Keys !! other.counters.Keys && o.ledger.Keys !! other.ledger.Keys
    requires base.ledger.Keys !! other.ledger.Keys
    ensures Micros(kinds, Over(base, other), own, l, n) == Micros(kinds, base, own, l, n)
    decreases n
  {
    if n > 0 && Running(l) {
      var view, view' := Over(base, own), Over(Over(base, other), own);
      var own1, l1 := Apply(own, MicroWrite(kinds, view, l)), MicroLocal(kinds, view, l);
      MicrosGrow(kinds, base, own, l, n);
      MicrosGrow(kinds, base, own1, l1, n - 1);
      SameStatement(kinds, base, other, own, l);
      CommitsCommute(kinds, base, other, own1, l1, n - 1);
    }
  }

  lemma SameCount(base: Tables, other: Tables, own: Tables, b: Bucket)
    requires b !in other.counters
    ensures Total(Over(Over(base, other), own), b) == Total(Over(base, own), b)
  {
  }

  lemma SameLookup(base: Tables, other: Tables, own: Tables, lk: LedgerKey)
    requires lk !in other.ledger
    ensures var (view, view') := (Over(base, own), Over(Over(base, other), own));
            (lk in view'.ledger <==> lk in view.ledger) && (lk in view.ledger ==> view'.ledger[lk] == view.ledger[lk])
  {
  }

  lemma SameStatement(kinds: Kinds, base: Tables, other: Tables, own: Tables, l: Local)
    requires Running(l) && base.ledger.Keys !! other.ledger.Keys && own.ledger.Keys !! other.ledger.Keys
    requires var own1 := Apply(own, MicroWrite(kinds, Over(base, own), l));
             own1.counters.Keys !! other.counters.Keys && own1.ledger.Keys !! other.ledger.Keys
    ensures MicroWrite(kinds, Over(Over(base, other), own), l) == MicroWrite(kinds, Over(base, own), l)
    ensures MicroLocal(kinds, Over(Over(base, other), own), l) == MicroLocal(kinds, Over(base, own), l)
  {
    var r := l.todo[0];
    if l.pc.Inserted? {
      assert r.B() in Apply(own, MicroWrite(kinds, Over(base, own), l)).counters;
      SameCount(base, other, own, r.B());
    } else if l.pc.Idle? && r.key.Some? && MetricError(kinds, r.metric).None? {
      var lk := LedgerKey(r.org, r.key.value);
      assert Known(Over(base, own), r) || lk in Apply(own, MicroWrite(kinds, Over(base, own), l)).ledger;
      SameLookup(base, other, own, lk);
    }
  }

  // ---------------------------------------------------------------- statements add up to Serve

  lemma {:induction false} MicrosSplit(kinds: Kinds, base: Tables, own: Tables, l: Local, m: nat, n: nat)
    ensures var (o, x) := Micros(kinds, base, own, l, m);
            Micros(kinds, base, own, l, m + n) == Micros(kinds, base, o, x, n)
    decreases m
  {
    if m > 0 && Running(l) {
      var view := Over(base, own);
      MicrosSplit(kinds, base, Apply(own, MicroWrite(kinds, view, l)), MicroLocal(kinds, view, l), m - 1, n);
    }
  }

  /** The tables and the position after the reservation, the insert and the count of a new key. */
  ghost predicate Fresh(kinds: Kinds, base: Tables, own: Tables, l: Local) {
    l.pc.Idle? && Running(l) && MetricError(kinds, l.todo[0].metric).None? && !Known(Over(base, own), l.todo[0])
  }

  function Own1(kinds: Kinds, base: Tables, own: Tables, l: Local): Tables
    requires Running(l)
  {
    Apply(own, MicroWrite(kinds, Over(base, own), l))
  }

  function Own2(kinds: Kinds, base: Tables, own: Tables, l: Local): Tables
    requires Running(l)
  {
    Apply(Own1(kinds, base, own, l), AddEvent(l.todo[0].Ev()))
  }

  lemma AfterInsert(kinds: Kinds, base: Tables, own: Tables, l: Local)
    requires Fresh(kinds, base, own, l)
    ensures Micros(kinds, base, own, l, 1) == (Own1(kinds, base, own, l), l.(pc := Reserved))
    ensures Micros(kinds, base, own, l, 2) == (Own2(kinds, base, own, l), l.(pc := Inserted))
    ensures Over(base, Own2(kinds, base, own, l)) == Apply(Apply(Over(base, own), MicroWrite(kinds, Over(base, own), l)), AddEvent(l.todo[0].Ev()))
  {
    assert Micros(kinds, base, Own1(kinds, base, own, l), l.(pc := Reserved), 0) == (Own1(kinds, base, own, l), l.(pc := Reserved));
    MicrosSnoc(kinds, base, own, l, 1);
    OverApply(base, own, MicroWrite(kinds, Over(base, own), l));
    OverApply(base, Own1(kinds, base, own, l), AddEvent(l.todo[0].Ev()));
  }

  lemma AfterCount(kinds: Kinds, base: Tables, own: Tables, l: Local)
    requires Fresh(kinds, base, own, l)
    ensures var r := l.todo[0];
            var total := Total(Over(base, own), r.B()) + r.quantity;
            var (o, x) := Micros(kinds, base, own, l, 3);
            && o == Apply(Own2(kinds, base, own, l), SetCounter(r.B(), total))
            && Over(base, o) == Apply(Over(base, Own2(kinds, base, own, l)), SetCounter(r.B(), total))
            && x == if r.Breaks(total) then l.(pc := Inserted, failed := Some(LimitExceeded(total - r.quantity, r.quantity)))
                    else l.(pc := Incremented(total))
  {
    var r := l.todo[0];
    AfterInsert(kinds, base, own, l);
    MicrosSnoc(kinds, base, own, l, 2);
    assert Total(Over(base, Own2(kinds, base, own, l)), r.B()) == Total(Over(base, own), r.B());
    OverApply(base, Own2(kinds, base, own, l), SetCounter(r.B(), Total(Over(base, own), r.B()) + r.quantity));
  }

  /** The four writes of a request whose key is new, in a row. */
  lemma FourWrites(kinds: Kinds, t: Tables, l: Local)
    requires l.pc.Idle? && Running(l) && MetricError(kinds, l.todo[0].metric).None? && !Known(t, l.todo[0])
    requires !l.todo[0].Breaks(Total(t, l.todo[0].B()) + l.todo[0].quantity)
    ensures var r := l.todo[0];
            var total := Total(t, r.B()) + r.quantity;
            var t3 := Apply(Apply(Apply(t, MicroWrite(kinds, t, l)), AddEvent(r.Ev())), SetCounter(r.B(), total));
            Serve(kinds, t, r) == Ok((Apply(t3, MicroWrite(kinds, t3, l.(pc := Incremented(total)))), Response(r.metric, r.quantity, total, false)))
  {
    var r := l.todo[0];
    var total := Total(t, r.B()) + r.quantity;
    if r.key.Some? {
      var lk := LedgerKey(r.org, r.key.value);
      assert t.ledger[lk := LedgerRow(r.metric, r.quantity, None)][lk := LedgerRow(r.metric, r.quantity, Some(total))]
             == t.ledger[lk := LedgerRow(r.metric, r.quantity, Some(total))];
    }
  }

  /** The statements of a request whose key is new: all four and the answer, or the refusal. */
  lemma FreshRequest(kinds: Kinds, base: Tables, own: Tables, l: Local)
    requires Fresh(kinds, base, own, l)
    ensures var (o, x) := Micros(kinds, base, own, l, 4);
            match Serve(kinds, Over(base, own), l.todo[0])
            case Err(e) => x.failed == Some(e) && Micros(kinds, base, own, l, 3).1.failed == Some(e)
            case Ok(v) => x == Finish(l, v.1) && Over(base, o) == v.0
  {
    var r, t := l.todo[0], Over(base, own);
    var total := Total(t, r.B()) + r.quantity;
    AfterInsert(kinds, base, own, l);
    AfterCount(kinds, base, own, l);
    MicrosSnoc(kinds, base, own, l, 3);
    var (o3, l3) := Micros(kinds, base, own, l, 3);
    if !r.Breaks(total) {
      FourWrites(kinds, t, l);
      OverApply(base, o3, MicroWrite(kinds, Over(base, o3), l3));
    }
  }

  ghost predicate Terminal(l: Local) {
    l.failed.Some? || (l.todo == [] && l.pc.Idle?)
  }

  /** A script whose next key is new either stops at that request's refusal, or gets past it in
      four statements. */
  lemma FreshThenRest(kinds: Kinds, base: Tables, own: Tables, l: Local, n: nat) returns (o: Tables)
    requires Fresh(kinds, base, own, l) && Terminal(Micros(kinds, base, own, l, n).1)
    ensures match Serve(kinds, Over(base, own), l.todo[0])
            case Err(e) => Micros(kinds, base, own, l, n).1.failed == Some(e)
            case Ok(v) => n >= 4 && Over(base, o) == v.0 && Micros(kinds, base, own, l, n) == Micros(kinds, base, o, Finish(l, v.1), n - 4)
  {
    NeedsFour(kinds, base, own, l, n);
    FreshRequest(kinds, base, own, l);
    o := Micros(kinds, base, own, l, 4).0;
    if Serve(kinds, Over(base, own), l.todo[0]).Ok? {
      MicrosSplit(kinds, base, own, l, 4, n - 4);
    } else {
      MicrosSplit(kinds, base, own, l, 3, n - 3);
    }
  }

  lemma NeedsFour(kinds: Kinds, base: Tables, own: Tables, l: Local, n: nat)
    requires Fresh(kinds, base, own, l) && Terminal(Micros(kinds, base, own, l, n).1)
    ensures n >= 3 && (Serve(kinds, Over(base, own), l.todo[0]).Ok? ==> n >= 4)
  {
    AfterInsert(kinds, base, own, l);
    AfterCount(kinds, base, own, l);
    assert Micros(kinds, base, own, l, 0) == (own, l);
    assert n != 0 && n != 1 && n != 2;
  }

  /** From between two requests to the end of a script, the statements do what `ServeAll` does:
      the same tables and answers, or the same refusal. */
  lemma {:induction false} MicrosServe(kinds: Kinds, base: Tables, own: Tables, l: Local, n: nat)
    requires l.pc.Idle? && l.failed.None? && Terminal(Micros(kinds, base, own, l, n).1)
    ensures var (o, x) := Micros(kinds, base, own, l, n);
            var alone := ServeAll(kinds, Over(base, own), l.todo);
            if x.failed.Some? then alone == Err(x.failed.value)
            else alone.Ok? && alone.value.0 == Over(base, o) && x.out == l.out + alone.value.1
    decreases |l.todo|
  {
    if l.todo != [] {
      var r := l.todo[0];
      if MetricError(kinds, r.metric).Some? {
        StuckOnMetric(kinds, base, own, l, n);
      } else if Known(Over(base, own), r) {
        ReplayStep(kinds, base, own, l, n);
        MicrosServe(kinds, base, own, Finish(l, Replayed(Over(base, own).ledger[LedgerKey(r.org, r.key.value)])), n - 1);
      } else {
        var o := FreshThenRest(kinds, base, own, l, n);
        var served := Serve(kinds, Over(base, own), r);
        if served.Ok? {
          MicrosServe(kinds, base, o, Finish(l, served.value.1), n - 4);
        }
      }
    }
  }

  /** A known key is answered in one statement. */
  lemma ReplayStep(kinds: Kinds, base: Tables, own: Tables, l: Local, n: nat)
    requires l.pc.Idle? && Running(l) && MetricError(kinds, l.todo[0].metric).None? && Known(Over(base, own), l.todo[0])
    requires Terminal(Micros(kinds, base, own, l, n).1)
    ensures n > 0
    ensures var answer := Replayed(Over(base, own).ledger[LedgerKey(l.todo[0].org, l.todo[0].key.value)]);
            && Serve(kinds, Over(base, own), l.todo[0]) == Ok((Over(base, own), answer))
            && Micros(kinds, base, own, l, n) == Micros(kinds, base, own, Finish(l, answer), n - 1)
  {
    assert n > 0;
  }

  lemma StuckOnMetric(kinds: Kinds, base: Tables, own: Tables, l: Local, n: nat)
    requires l.pc.Idle? && Running(l) && MetricError(kinds, l.todo[0].metric).Some? && Terminal(Micros(kinds, base, own, l, n).1)
    ensures Micros(kinds, base, own, l, n).1.failed == MetricError(kinds, l.todo[0].metric)
  {
    assert n > 0;
  }
}
