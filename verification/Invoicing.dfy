/**
 Billing of one organization: plan changes queue prorated corrections on the subscription, period
 drafts turn plan, overage and corrections into an invoice, and invoices move draft, open, paid.
 */
module Invoicing {
  import opened Wrappers
  import opened Proration
  import Resolver
  import Subscriptions

  datatype SubStatus = Trialing | Active | PastDue

  datatype Plan = Plan(key: string, cents: int, yearly: bool)

  datatype Sub = Sub(status: SubStatus, plan: Plan, start: int, end: int, pending: seq<int>)

  datatype LineKind = PlanLine | MeteredLine(metric: string) | CreditLine | CustomLine

  datatype Line = Line(kind: LineKind, quantity: int, unitCents: int, cents: int)

  datatype InvoiceStatus = Draft | Open | Paid | Void | Uncollectible

  datatype Invoice = Invoice(period: int, lines: seq<Line>, subtotal: int, status: InvoiceStatus, number: Option<(int, nat)>)

  /** `closed` are the subscriptions that ended; `invoices` only grows. */
  datatype Account = Account(sub: Option<Sub>, closed: seq<Sub>, invoices: seq<Invoice>)

  // ---------------------------------------------------------------- plan changes

  /** The paid period the switch keeps, if any: an active subscription with a positive price. */
  predicate Keeps(sub: Option<Sub>) {
    sub.Some? && sub.value.status.Active? && sub.value.plan.cents > 0
  }

  function SwitchPlan(sub: Option<Sub>, plan: Plan, keepPeriod: bool, now: int): Sub {
    var length := if plan.yearly then Subscriptions.YEAR else Subscriptions.MONTH;
    match sub
    case None => Sub(Active, plan, now, now + length, [])
    case Some(s) =>
      if keepPeriod && s.end > now then s.(status := Active, plan := plan)
      else s.(status := Active, plan := plan, start := now, end := now + length)
  }

  /** The correction a plan change queues; none when the period was reset or it rounds to zero. */
  function Correction(sub: Option<Sub>, plan: Plan, now: int): int {
    if !Keeps(sub) || SwitchPlan(sub, plan, true, now).end != sub.value.end then 0
    else Arrears(sub.value.plan.cents, plan.cents, sub.value.start, sub.value.end, now)
  }

  function Switched(sub: Option<Sub>, plan: Plan, now: int): Sub {
    var s := SwitchPlan(sub, plan, Keeps(sub), now);
    if Correction(sub, plan, now) == 0 then s else s.(pending := s.pending + [Correction(sub, plan, now)])
  }

  function Sum(xs: seq<int>): int {
    if xs == [] then 0 else Sum(xs[..|xs| - 1]) + xs[|xs| - 1]
  }

  lemma SumSnoc(xs: seq<int>, x: int)
    ensures Sum(xs + [x]) == Sum(xs) + x
  {
    assert (xs + [x])[..|xs|] == xs;
  }

  lemma {:induction false} SumConcat(xs: seq<int>, ys: seq<int>)
    ensures Sum(xs + ys) == Sum(xs) + Sum(ys)
    decreases |ys|
  {
    if ys == [] {
      assert xs + ys == xs;
    } else {
      var y := ys[|ys| - 1];
      SumConcat(xs, ys[..|ys| - 1]);
      assert xs + ys == (xs + ys[..|ys| - 1]) + [y];
      SumSnoc(xs + ys[..|ys| - 1], y);
    }
  }

  datatype PlanChange = PlanChange(plan: Plan, at: int)

  function SwitchAll(sub: Sub, changes: seq<PlanChange>): Sub
    decreases |changes|
  {
    if changes == [] then sub else SwitchAll(Switched(Some(sub), changes[0].plan, changes[0].at), changes[1..])
  }

  function Priced(changes: seq<PlanChange>): seq<Change> {
    seq(|changes|, i requires 0 <= i < |changes| => Change(changes[i].plan.cents, changes[i].at))
  }

  /** Changes inside one live paid period: every price but the last is positive. */
  ghost predicate MidPeriod(sub: Sub, changes: seq<PlanChange>) {
    && sub.status.Active? && sub.start < sub.end
    && (changes != [] ==> sub.plan.cents > 0)
    && (forall i | 0 <= i < |changes| :: sub.start <= changes[i].at < sub.end)
    && (forall i | 0 <= i < |changes| - 1 :: changes[i].plan.cents > 0)
  }

  lemma OneSwitch(sub: Sub, plan: Plan, at: int)
    requires sub.status.Active? && sub.plan.cents > 0 && sub.start <= at < sub.end
    ensures var s := Switched(Some(sub), plan, at);
            && s.start == sub.start && s.end == sub.end && s.status.Active? && s.plan == plan
            && Sum(s.pending) == Sum(sub.pending) + Arrears(sub.plan.cents, plan.cents, sub.start, sub.end, at)
  {
    SumSnoc(sub.pending, Correction(Some(sub), plan, at));
  }

  lemma MidPeriodRest(sub: Sub, changes: seq<PlanChange>, next: Sub)
    requires MidPeriod(sub, changes) && changes != []
    requires next.start == sub.start && next.end == sub.end && next.status.Active? && next.plan == changes[0].plan
    ensures MidPeriod(next, changes[1..])
  {
    forall i | 0 <= i < |changes[1..]| ensures sub.start <= changes[1..][i].at < sub.end { assert changes[1..][i] == changes[i + 1]; }
    forall i | 0 <= i < |changes[1..]| - 1 ensures changes[1..][i].plan.cents > 0 { assert changes[1..][i] == changes[i + 1]; }
  }

  lemma PricedHead(price: int, changes: seq<PlanChange>, start: int, end: int)
    requires changes != []
    ensures Adjustments(price, Priced(changes), start, end)
            == Arrears(price, changes[0].plan.cents, start, end, changes[0].at) + Adjustments(changes[0].plan.cents, Priced(changes[1..]), start, end)
    ensures FinalPrice(price, Priced(changes)) == FinalPrice(changes[0].plan.cents, Priced(changes[1..]))
  {
    assert Priced(changes)[1..] == Priced(changes[1..]);
    assert Priced(changes)[0] == Change(changes[0].plan.cents, changes[0].at);
  }

  lemma {:induction false} SwitchAllQueuesAdjustments(sub: Sub, changes: seq<PlanChange>)
    requires MidPeriod(sub, changes)
    ensures var s := SwitchAll(sub, changes);
            && s.start == sub.start && s.end == sub.end && s.status.Active?
            && s.plan.cents == FinalPrice(sub.plan.cents, Priced(changes))
            && Sum(s.pending) == Sum(sub.pending) + Adjustments(sub.plan.cents, Priced(changes), sub.start, sub.end)
    decreases |changes|
  {
    if changes == [] {
      assert Priced(changes) == [];
    } else {
      OneSwitch(sub, changes[0].plan, changes[0].at);
      SwitchRest(sub, changes, Switched(Some(sub), changes[0].plan, changes[0].at));
    }
  }

  /** The rest of the changes, from the subscription `next` the first one left. */
  lemma SwitchRest(sub: Sub, changes: seq<PlanChange>, next: Sub)
    requires MidPeriod(sub, changes) && changes != []
    requires next.start == sub.start && next.end == sub.end && next.status.Active? && next.plan == changes[0].plan
    requires Sum(next.pending) == Sum(sub.pending) + Arrears(sub.plan.cents, changes[0].plan.cents, sub.start, sub.end, changes[0].at)
    ensures var s := SwitchAll(next, changes[1..]);
            && s.start == sub.start && s.end == sub.end && s.status.Active?
            && s.plan.cents == FinalPrice(sub.plan.cents, Priced(changes))
            && Sum(s.pending) == Sum(sub.pending) + Adjustments(sub.plan.cents, Priced(changes), sub.start, sub.end)
    decreases |changes|, 0
  {
    MidPeriodRest(sub, changes, next);
    SwitchAllQueuesAdjustments(next, changes[1..]);
    PricedHead(sub.plan.cents, changes, sub.start, sub.end);
  }

  lemma MidPeriodInside(sub: Sub, changes: seq<PlanChange>)
    requires MidPeriod(sub, changes)
    ensures Inside(Priced(changes), sub.start, sub.end) && |Priced(changes)| == |changes|
  {
  }

  lemma BoundFor(price: int, priced: seq<Change>, n: nat, start: int, end: int, billed: int)
    requires |priced| == n && start < end && Inside(priced, start, end) && billed == FinalPrice(price, priced) + Adjustments(price, priced, start, end)
    ensures 2 * MICRO * Abs((end - start) * billed - HeldTime(price, start, priced, end)) <= (end - start) * (n * MICRO + Moved(price, priced))
  {
    ChangesBillHeldTime(price, priced, start, end);
  }

  /** What the period will be invoiced at, plus what the switches queued. */
  function PeriodTotal(sub: Sub, changes: seq<PlanChange>): int {
    SwitchAll(sub, changes).plan.cents + (Sum(SwitchAll(sub, changes).pending) - Sum(sub.pending))
  }

  lemma PeriodTotalIs(sub: Sub, changes: seq<PlanChange>)
    requires MidPeriod(sub, changes)
    ensures PeriodTotal(sub, changes)
            == FinalPrice(sub.plan.cents, Priced(changes)) + Adjustments(sub.plan.cents, Priced(changes), sub.start, sub.end)
  {
    SwitchAllQueuesAdjustments(sub, changes);
  }

  /** After any number n of mid-period switches, the price the period will be invoiced at plus the
      corrections queued is what the organization owes for the time it held each plan, within half
      a cent a switch (plus half a millionth of the price moved at each). */
  lemma PeriodBillsTimeHeld(sub: Sub, changes: seq<PlanChange>)
    requires MidPeriod(sub, changes)
    ensures 2 * MICRO * Abs((sub.end - sub.start) * PeriodTotal(sub, changes) - HeldTime(sub.plan.cents, sub.start, Priced(changes), sub.end))
            <= (sub.end - sub.start) * (|changes| * MICRO + Moved(sub.plan.cents, Priced(changes)))
  {
    PeriodTotalIs(sub, changes);
    MidPeriodInside(sub, changes);
    BoundFor(sub.plan.cents, Priced(changes), |changes|, sub.start, sub.end, PeriodTotal(sub, changes));
  }

  // ---------------------------------------------------------------- drafting

  function LineSum(lines: seq<Line>): int {
    if lines == [] then 0 else LineSum(lines[..|lines| - 1]) + lines[|lines| - 1].cents
  }

  lemma {:induction false} LineSumConcat(a: seq<Line>, b: seq<Line>)
    ensures LineSum(a + b) == LineSum(a) + LineSum(b)
    decreases |b|
  {
    if b == [] {
      assert a + b == a;
    } else {
      LineSumConcat(a, b[..|b| - 1]);
      assert (a + b)[..|a + b| - 1] == a + b[..|b| - 1];
    }
  }

  function PlanLines(cents: int): seq<Line> {
    if cents > 0 then [Line(PlanLine, 1, cents, cents)] else []
  }

  /** Pending corrections become lines, credits when negative; zero entries are dropped. */
  function AdjustmentLines(pending: seq<int>): seq<Line> {
    if pending == [] then []
    else
      var x := pending[|pending| - 1];
      AdjustmentLines(pending[..|pending| - 1]) + (if x == 0 then [] else [Line(if x < 0 then CreditLine else CustomLine, 1, x, x)])
  }

  lemma {:induction false} AdjustmentLinesSum(pending: seq<int>)
    ensures LineSum(AdjustmentLines(pending)) == Sum(pending)
    decreases |pending|
  {
    if pending != [] {
      var rest, x := pending[..|pending| - 1], pending[|pending| - 1];
      AdjustmentLinesSum(rest);
      LineSumConcat(AdjustmentLines(rest), if x == 0 then [] else [Line(if x < 0 then CreditLine else CustomLine, 1, x, x)]);
    }
  }

  predicate IsDraft(i: Invoice, period: int) {
    i.status.Draft? && i.period == period
  }

  function Find(invoices: seq<Invoice>, period: int): (r: Option<nat>)
    ensures r.Some? ==> r.value < |invoices| && IsDraft(invoices[r.value], period)
    ensures r.None? ==> forall k | 0 <= k < |invoices| :: !IsDraft(invoices[k], period)
  {
    if invoices == [] then None
    else if IsDraft(invoices[|invoices| - 1], period) then Some(|invoices| - 1)
    else Find(invoices[..|invoices| - 1], period)
  }

  function DraftLines(s: Sub, overage: seq<Line>): seq<Line> {
    PlanLines(s.plan.cents) + overage + AdjustmentLines(s.pending)
  }

  /** Drafts the period, or hands back the draft that is already there. A negative total is
      invoiced as zero and the rest of the credit waits for the next draft. */
  function DraftPeriod(a: Account, period: int, overage: seq<Line>): Account {
    if Find(a.invoices, period).Some? || a.sub.None? then a
    else
      var lines := DraftLines(a.sub.value, overage);
      var total := LineSum(lines);
      a.(sub := Some(a.sub.value.(pending := if total < 0 then [total] else [])),
         invoices := a.invoices + [Invoice(period, lines, if total < 0 then 0 else total, Draft, None)])
  }

  // ---------------------------------------------------------------- invoice lifecycle

  predicate Allowed(from: InvoiceStatus, next: InvoiceStatus) {
    || from == next
    || (from.Draft? && (next.Open? || next.Void?))
    || (from.Open? && (next.Paid? || next.Void? || next.Uncollectible?))
  }

  function Numbered(invoices: seq<Invoice>): nat {
    if invoices == [] then 0
    else Numbered(invoices[..|invoices| - 1]) + (if invoices[|invoices| - 1].number.Some? then 1 else 0)
  }

  function FinalizeInvoice(a: Account, id: nat, stamp: int): Account
    requires id < |a.invoices|
  {
    var i := a.invoices[id];
    if i.status.Draft? then a.(invoices := a.invoices[id := i.(status := Open, number := Some((stamp, Numbered(a.invoices) + 1)))])
    else a
  }

  function PayInvoice(a: Account, id: nat, cents: int): Account
    requires id < |a.invoices|
  {
    var i := a.invoices[id];
    if Allowed(i.status, Paid) && cents >= i.subtotal then a.(invoices := a.invoices[id := i.(status := Paid)]) else a
  }

  function VoidInvoice(a: Account, id: nat): Account
    requires id < |a.invoices|
  {
    var i := a.invoices[id];
    if Allowed(i.status, Void) then a.(invoices := a.invoices[id := i.(status := Void)]) else a
  }

  // ---------------------------------------------------------------- whole runs

  /** `ChangePlan` is the local change that queues a correction; `Replan` a switch paid for elsewhere,
      at checkout or through the provider. `Begin` starts a trial or another new subscription, and
      `Provider` is a provider's word, without a target when the subscription is no longer current. */
  datatype Op =
    | ChangePlan(plan: Plan, now: int)
    | Replan(plan: Plan, keepPeriod: bool, now: int)
    | Begin(status: SubStatus, plan: Plan, start: int, end: int)
    | Provider(target: Option<SubStatus>, newEnd: Option<int>)
    | CancelNow
    | DraftOrg(period: int, overage: seq<Line>)
    | Finalize(id: nat, stamp: int)
    | Pay(payId: nat, cents: int)
    | VoidOne(voidId: nat)

  function Closed(a: Account): Account {
    if a.sub.None? then a else a.(sub := None, closed := a.closed + [a.sub.value])
  }

  function ProviderStatus(a: Account, target: Option<SubStatus>, newEnd: Option<int>): Account {
    if a.sub.None? then a
    else
      var moved := a.sub.value.(end := if newEnd.Some? then newEnd.value else a.sub.value.end);
      if target.None? then Closed(a.(sub := Some(moved))) else a.(sub := Some(moved.(status := target.value)))
  }

  function Do(a: Account, op: Op): Account {
    match op
    case ChangePlan(plan, now) => a.(sub := Some(Switched(a.sub, plan, now)))
    case Replan(plan, keepPeriod, now) => a.(sub := Some(SwitchPlan(a.sub, plan, keepPeriod, now)))
    case Begin(status, plan, start, end) => Closed(a).(sub := Some(Sub(status, plan, start, end, [])))
    case Provider(target, newEnd) => ProviderStatus(a, target, newEnd)
    case CancelNow => Closed(a)
    case DraftOrg(period, overage) => DraftPeriod(a, period, overage)
    case Finalize(id, stamp) => if id < |a.invoices| then FinalizeInvoice(a, id, stamp) else a
    case Pay(id, cents) => if id < |a.invoices| then PayInvoice(a, id, cents) else a
    case VoidOne(id) => if id < |a.invoices| then VoidInvoice(a, id) else a
  }

  function DoAll(a: Account, ops: seq<Op>): Account
    decreases |ops|
  {
    if ops == [] then a else DoAll(Do(a, ops[0]), ops[1..])
  }

  function Invoiced(invoices: seq<Invoice>): int {
    if invoices == [] then 0 else Invoiced(invoices[..|invoices| - 1]) + invoices[|invoices| - 1].subtotal
  }

  function Stranded(closed: seq<Sub>): int {
    if closed == [] then 0 else Stranded(closed[..|closed| - 1]) + Sum(closed[|closed| - 1].pending)
  }

  /** Everything invoiced, plus what still waits on the subscription, plus what cancelled
      subscriptions took with them. */
  function Money(a: Account): int {
    Invoiced(a.invoices) + (if a.sub.Some? then Sum(a.sub.value.pending) else 0) + Stranded(a.closed)
  }

  /** What one operation charges or queues: corrections, and a new draft's plan and overage. */
  function Incurred(a: Account, op: Op): int {
    match op
    case ChangePlan(plan, now) => Correction(a.sub, plan, now)
    case DraftOrg(period, overage) =>
      if Find(a.invoices, period).Some? || a.sub.None? then 0
      else LineSum(PlanLines(a.sub.value.plan.cents)) + LineSum(overage)
    case _ => 0
  }

  function IncurredAll(a: Account, ops: seq<Op>): int
    decreases |ops|
  {
    if ops == [] then 0 else Incurred(a, ops[0]) + IncurredAll(Do(a, ops[0]), ops[1..])
  }

  lemma {:induction false} InvoicedUpdate(invoices: seq<Invoice>, id: nat, i: Invoice)
    requires id < |invoices| && i.subtotal == invoices[id].subtotal
    ensures Invoiced(invoices[id := i]) == Invoiced(invoices)
    decreases |invoices|
  {
    var n := |invoices| - 1;
    if id < n {
      InvoicedUpdate(invoices[..n], id, i);
      assert invoices[id := i][..n] == invoices[..n][id := i];
    } else {
      assert invoices[id := i][..n] == invoices[..n];
    }
  }

  lemma DraftConserves(a: Account, period: int, overage: seq<Line>)
    requires a.sub.Some? && Find(a.invoices, period).None?
    ensures Money(DraftPeriod(a, period, overage)) == Money(a) + LineSum(PlanLines(a.sub.value.plan.cents)) + LineSum(overage)
  {
    var s := a.sub.value;
    var plan, adj := PlanLines(s.plan.cents), AdjustmentLines(s.pending);
    LineSumConcat(plan + overage, adj);
    LineSumConcat(plan, overage);
    AdjustmentLinesSum(s.pending);
    var a' := DraftPeriod(a, period, overage);
    assert a'.invoices[..|a.invoices|] == a.invoices;
    SumSnoc([], LineSum(DraftLines(s, overage)));
    assert [] + [LineSum(DraftLines(s, overage))] == [LineSum(DraftLines(s, overage))];
  }

  lemma ChangeConserves(a: Account, plan: Plan, now: int)
    ensures Money(Do(a, ChangePlan(plan, now))) == Money(a) + Correction(a.sub, plan, now)
  {
    if a.sub.Some? && Correction(a.sub, plan, now) != 0 { SumSnoc(a.sub.value.pending, Correction(a.sub, plan, now)); }
  }

  lemma LifecycleConserves(a: Account, op: Op)
    requires op.Finalize? || op.Pay? || op.VoidOne?
    ensures Money(Do(a, op)) == Money(a)
  {
    match op
    case Finalize(id, stamp) =>
      if id < |a.invoices| { InvoicedUpdate(a.invoices, id, a.invoices[id].(status := Open, number := Some((stamp, Numbered(a.invoices) + 1)))); }
    case Pay(id, _) => if id < |a.invoices| { InvoicedUpdate(a.invoices, id, a.invoices[id].(status := Paid)); }
    case VoidOne(id) => if id < |a.invoices| { InvoicedUpdate(a.invoices, id, a.invoices[id].(status := Void)); }
  }

  /** What still waits on a subscription that ends is not lost. */
  lemma ClosingConserves(a: Account)
    ensures Money(Closed(a)) == Money(a)
  {
    if a.sub.Some? { assert (a.closed + [a.sub.value])[..|a.closed|] == a.closed; }
  }

  lemma StepConserves(a: Account, op: Op)
    ensures Money(Do(a, op)) == Money(a) + Incurred(a, op)
  {
    match op
    case ChangePlan(plan, now) => ChangeConserves(a, plan, now);
    case Replan(_, _, _) =>
    case Begin(_, _, _, _) => ClosingConserves(a);
    case Provider(_, newEnd) =>
      if a.sub.Some? { ClosingConserves(a.(sub := Some(a.sub.value.(end := if newEnd.Some? then newEnd.value else a.sub.value.end)))); }
    case CancelNow => ClosingConserves(a);
    case DraftOrg(period, overage) => if a.sub.Some? && Find(a.invoices, period).None? { DraftConserves(a, period, overage); }
    case _ => LifecycleConserves(a, op);
  }

  /** Money is conserved over any run: all subtotals ever drafted plus the balances still pending
      grow by exactly the plan charges, the overage and the corrections the run incurred. */
  lemma {:induction false} MoneyConserved(a: Account, ops: seq<Op>)
    ensures Money(DoAll(a, ops)) == Money(a) + IncurredAll(a, ops)
    decreases |ops|
  {
    if ops != [] {
      StepConserves(a, ops[0]);
      MoneyConserved(Do(a, ops[0]), ops[1..]);
    }
  }

  // ---------------------------------------------------------------- what every run keeps

  ghost predicate Sound(a: Account) {
    && (forall k | 0 <= k < |a.invoices| ::
          a.invoices[k].subtotal == if LineSum(a.invoices[k].lines) < 0 then 0 else LineSum(a.invoices[k].lines))
    && (forall j, k | 0 <= j < k < |a.invoices| :: a.invoices[j].status.Draft? && a.invoices[k].status.Draft? ==> a.invoices[j].period != a.invoices[k].period)
    && (forall k | 0 <= k < |a.invoices| && a.invoices[k].status.Draft? :: a.invoices[k].number.None?)
    && (forall k | 0 <= k < |a.invoices| && a.invoices[k].number.Some? :: 1 <= a.invoices[k].number.value.1 <= Numbered(a.invoices))
    && (forall j, k | 0 <= j < k < |a.invoices| && a.invoices[j].number.Some? && a.invoices[k].number.Some? ::
          a.invoices[j].number.value.1 != a.invoices[k].number.value.1)
  }

  lemma {:induction false} NumberedUpdate(invoices: seq<Invoice>, id: nat, i: Invoice)
    requires id < |invoices|
    ensures Numbered(invoices[id := i]) == Numbered(invoices) - (if invoices[id].number.Some? then 1 else 0) + (if i.number.Some? then 1 else 0)
    decreases |invoices|
  {
    var n := |invoices| - 1;
    if id < n {
      NumberedUpdate(invoices[..n], id, i);
      assert invoices[id := i][..n] == invoices[..n][id := i];
    } else {
      assert invoices[id := i][..n] == invoices[..n];
    }
  }

  /** Replacing an invoice by one with the same amounts, and a number only if it had none. */
  lemma UpdateKeepsSound(a: Account, id: nat, i: Invoice)
    requires Sound(a) && id < |a.invoices|
    requires var o := a.invoices[id];
             && i.lines == o.lines && i.subtotal == o.subtotal && !i.status.Draft?
             && (i.number == o.number || (o.number.None? && i.number.Some? && i.number.value.1 == Numbered(a.invoices) + 1))
    ensures Sound(a.(invoices := a.invoices[id := i]))
  {
    NumberedUpdate(a.invoices, id, i);
    var after := a.invoices[id := i];
    assert Numbered(after) >= Numbered(a.invoices);
    forall j, k | 0 <= j < k < |after| && after[j].number.Some? && after[k].number.Some? ensures after[j].number.value.1 != after[k].number.value.1 {
      assert j != id ==> after[j] == a.invoices[j];
      assert k != id ==> after[k] == a.invoices[k];
    }
  }

  lemma AppendKeepsSound(a: Account, a': Account, i: Invoice)
    requires Sound(a) && a'.invoices == a.invoices + [i] && i.status.Draft? && i.number.None?
    requires i.subtotal == if LineSum(i.lines) < 0 then 0 else LineSum(i.lines)
    requires forall k | 0 <= k < |a.invoices| :: !IsDraft(a.invoices[k], i.period)
    ensures Sound(a')
  {
    var all := a'.invoices;
    assert all[..|all| - 1] == a.invoices;
    assert Numbered(all) == Numbered(a.invoices);
    forall j, k | 0 <= j < k < |all| && all[j].status.Draft? && all[k].status.Draft? ensures all[j].period != all[k].period {
      if k == |a.invoices| { assert !IsDraft(a.invoices[j], i.period); }
    }
  }

  lemma DraftKeepsSound(a: Account, period: int, overage: seq<Line>)
    requires Sound(a)
    ensures Sound(DraftPeriod(a, period, overage))
  {
    if a.sub.Some? && Find(a.invoices, period).None? {
      var a' := DraftPeriod(a, period, overage);
      AppendKeepsSound(a, a', a'.invoices[|a.invoices|]);
    }
  }

  lemma FinalizeKeepsSound(a: Account, id: nat, stamp: int)
    requires Sound(a) && id < |a.invoices| && a.invoices[id].status.Draft?
    ensures Sound(a.(invoices := a.invoices[id := a.invoices[id].(status := Open, number := Some((stamp, Numbered(a.invoices) + 1)))]))
  {
    UpdateKeepsSound(a, id, a.invoices[id].(status := Open, number := Some((stamp, Numbered(a.invoices) + 1))));
  }

  lemma StatusKeepsSound(a: Account, id: nat, status: InvoiceStatus)
    requires Sound(a) && id < |a.invoices| && !status.Draft?
    ensures Sound(a.(invoices := a.invoices[id := a.invoices[id].(status := status)]))
  {
    UpdateKeepsSound(a, id, a.invoices[id].(status := status));
  }

  lemma FinalizeStepKeepsSound(a: Account, id: nat, stamp: int)
    requires Sound(a)
    ensures Sound(Do(a, Finalize(id, stamp)))
  {
    if id < |a.invoices| && a.invoices[id].status.Draft? { FinalizeKeepsSound(a, id, stamp); }
  }

  lemma PayStepKeepsSound(a: Account, id: nat, cents: int)
    requires Sound(a)
    ensures Sound(Do(a, Pay(id, cents)))
  {
    if id < |a.invoices| { StatusKeepsSound(a, id, Paid); }
  }

  lemma VoidStepKeepsSound(a: Account, id: nat)
    requires Sound(a)
    ensures Sound(Do(a, VoidOne(id)))
  {
    if id < |a.invoices| { StatusKeepsSound(a, id, Void); }
  }

  /** What happens to the subscription does not matter to the invoices. */
  lemma SubscriptionStepKeepsSound(a: Account, a': Account)
    requires Sound(a) && a'.invoices == a.invoices
    ensures Sound(a')
  {
  }

  lemma StepKeepsSound(a: Account, op: Op)
    requires Sound(a)
    ensures Sound(Do(a, op))
  {
    match op
    case DraftOrg(period, overage) => DraftKeepsSound(a, period, overage);
    case Finalize(id, stamp) => FinalizeStepKeepsSound(a, id, stamp);
    case Pay(id, cents) => PayStepKeepsSound(a, id, cents);
    case VoidOne(id) => VoidStepKeepsSound(a, id);
    case _ => SubscriptionStepKeepsSound(a, Do(a, op));
  }

  /** In every reachable account each subtotal is max(0, sum of its lines), a period has at most one
      draft, and no two invoices share a number. */
  lemma {:induction false} RunKeepsSound(a: Account, ops: seq<Op>)
    requires Sound(a)
    ensures Sound(DoAll(a, ops))
    decreases |ops|
  {
    if ops != [] {
      StepKeepsSound(a, ops[0]);
      RunKeepsSound(Do(a, ops[0]), ops[1..]);
    }
  }

  /** Invoices are never lost, their lines and amounts never change, and their status only takes
      steps the transition table allows; a number, once given, stays. */
  lemma StepIsAllowed(a: Account, op: Op, k: nat)
    requires k < |a.invoices|
    ensures var i, i' := a.invoices[k], Do(a, op).invoices;
            && k < |i'| && Allowed(i.status, i'[k].status)
            && i'[k].lines == i.lines && i'[k].subtotal == i.subtotal && i'[k].period == i.period
            && (i.number.Some? ==> i.status.Draft? || i'[k].number == i.number)
  {
  }

  /** Running a draft again changes nothing exactly while the period's draft is still open (or
      there is nothing to bill). */
  lemma RedraftIsNoOpIff(a: Account, period: int, overage: seq<Line>)
    ensures DraftPeriod(a, period, overage) == a <==> a.sub.None? || exists k :: 0 <= k < |a.invoices| && IsDraft(a.invoices[k], period)
  {
    if a.sub.Some? && Find(a.invoices, period).None? {
      assert |DraftPeriod(a, period, overage).invoices| == |a.invoices| + 1;
    }
  }

  lemma OneDo(a: Account, op: Op)
    ensures DoAll(a, [op]) == Do(a, op)
  {
    assert DoAll(Do(a, op), [op][1..]) == Do(a, op);
  }

  lemma TwoDo(a: Account, op: Op, next: Op)
    ensures DoAll(a, [op, next]) == Do(Do(a, op), next)
  {
    assert [op, next][1..] == [next];
    OneDo(Do(a, op), next);
  }

  lemma ThreeDo(a: Account, op: Op, next: Op, last: Op)
    ensures DoAll(a, [op, next, last]) == Do(Do(Do(a, op), next), last)
  {
    assert [op, next, last][1..] == [next, last];
    TwoDo(Do(a, op), next, last);
  }

  /** The draft of a period with neither overage nor corrections. */
  lemma PlainDraft(a: Account, period: int)
    requires a.sub.Some? && a.sub.value.plan.cents > 0 && a.sub.value.pending == [] && Find(a.invoices, period).None?
    ensures var cents := a.sub.value.plan.cents;
            DraftPeriod(a, period, []) == a.(invoices := a.invoices + [Invoice(period, [Line(PlanLine, 1, cents, cents)], cents, Draft, None)])
  {
    var cents := a.sub.value.plan.cents;
    var lines := [Line(PlanLine, 1, cents, cents)];
    assert DraftLines(a.sub.value, []) == lines;
    assert LineSum(lines) == cents by { assert lines[..0] == []; }
  }

  /** Once the draft is finalized, drafting the same period again charges the plan a second time. */
  lemma {:induction false} DraftAfterFinalizeChargesTwice(sub: Sub, period: int, stamp: int)
    requires sub.plan.cents > 0 && sub.pending == []
    ensures Invoiced(DoAll(Account(Some(sub), [], []), [DraftOrg(period, []), DraftOrg(period, [])]).invoices) == sub.plan.cents
    ensures Invoiced(DoAll(Account(Some(sub), [], []), [DraftOrg(period, []), Finalize(0, stamp), DraftOrg(period, [])]).invoices) == 2 * sub.plan.cents
  {
    var a0 := Account(Some(sub), [], []);
    TwoDo(a0, DraftOrg(period, []), DraftOrg(period, []));
    ThreeDo(a0, DraftOrg(period, []), Finalize(0, stamp), DraftOrg(period, []));
    PlainDraft(a0, period);
    var a1 := DraftPeriod(a0, period, []);
    assert |a1.invoices| == 1 && a1.invoices[..0] == [];
    assert Invoiced(a1.invoices) == sub.plan.cents;
    var a2 := FinalizeInvoice(a1, 0, stamp);
    InvoicedUpdate(a1.invoices, 0, a2.invoices[0]);
    PlainDraft(a2, period);
    var a3 := DraftPeriod(a2, period, []);
    assert a3.invoices[..1] == a2.invoices;
  }

  // ---------------------------------------------------------------- the service

  datatype Outcome = Done(id: nat) | NotFound | NoSubscription | BadTransition | PartialPayment

  /** One organization's billing rows. */
  class InvoicingService {
    var sub: Option<Sub>
    var closed: seq<Sub>
    var invoices: seq<Invoice>

    constructor ()
      ensures A() == Account(None, [], [])
    {
      sub, closed, invoices := None, [], [];
    }

    function A(): Account
      reads this
    {
      Account(sub, closed, invoices)
    }

    /** A local plan change: switch, then queue the correction if the paid period was kept. */
    method ChangePlan(plan: Plan, now: int)
      modifies this`sub
      ensures A() == Do(old(A()), Op.ChangePlan(plan, now))
    {
      var previous := sub;
      var keep := Keeps(previous);
      var next := SwitchPlan(previous, plan, keep, now);
      if keep && next.end == previous.value.end {
        var amount := Arrears(previous.value.plan.cents, plan.cents, previous.value.start, previous.value.end, now);
        if amount != 0 { next := next.(pending := next.pending + [amount]); }
      }
      sub := Some(next);
    }

    /** The switch alone: what a checkout or a provider-billed change does here. */
    method SwitchOnly(plan: Plan, keepPeriod: bool, now: int)
      modifies this`sub
      ensures A() == Do(old(A()), Replan(plan, keepPeriod, now))
    {
      sub := Some(SwitchPlan(sub, plan, keepPeriod, now));
    }

    method StartSubscription(status: SubStatus, plan: Plan, start: int, end: int)
      modifies this`sub, this`closed
      ensures A() == Do(old(A()), Begin(status, plan, start, end))
    {
      CancelNow();
      sub := Some(Sub(status, plan, start, end, []));
    }

    method ApplyProviderStatus(target: Option<SubStatus>, newEnd: Option<int>)
      modifies this`sub, this`closed
      ensures A() == Do(old(A()), Provider(target, newEnd))
    {
      if sub.None? { return; }
      if newEnd.Some? { sub := Some(sub.value.(end := newEnd.value)); }
      if target.Some? {
        sub := Some(sub.value.(status := target.value));
      } else {
        CancelNow();
      }
    }

    method CancelNow()
      modifies this`sub, this`closed
      ensures A() == Do(old(A()), Op.CancelNow)
    {
      if sub.Some? {
        closed := closed + [sub.value];
        sub := None;
      }
    }

    /** A line for each metric that has a cap, a price and usage past the cap, in the metrics' order. */
    method OverageLines(metrics: seq<string>, limits: map<string, Resolver.Limit>, used: map<string, int>) returns (lines: seq<Line>)
      requires Billable(metrics, limits)
      ensures lines == Overage(metrics, limits, used) && |lines| == |Exceeded(metrics, limits, used)|
      ensures forall k, m | 0 <= k < |lines| && m == Exceeded(metrics, limits, used)[k] ::
                Exceeds(limits[m], UsedOf(used, m)) && BillsExcess(lines[k], m, limits[m], UsedOf(used, m))
    {
      lines := [];
      var i := 0;
      while i < |metrics|
        invariant 0 <= i <= |metrics| && lines == Overage(metrics[..i], limits, used)
      {
        OverageStep(metrics, i, limits, used);
        lines := lines + OverageLine(metrics[i], limits[metrics[i]], UsedOf(used, metrics[i]));
        i := i + 1;
      }
      assert metrics[..i] == metrics;
      OverageIsExact(metrics, limits, used);
    }

    method AdjustmentLinesOf(pending: seq<int>) returns (lines: seq<Line>)
      ensures lines == AdjustmentLines(pending)
    {
      lines := [];
      var i := 0;
      while i < |pending|
        invariant 0 <= i <= |pending| && lines == AdjustmentLines(pending[..i])
      {
        assert pending[..i + 1][..i] == pending[..i];
        var x := pending[i];
        if x != 0 { lines := lines + [Line(if x < 0 then CreditLine else CustomLine, 1, x, x)]; }
        i := i + 1;
      }
      assert pending[..i] == pending;
    }

    /** Creates the period's draft, or returns the one that exists untouched. */
    method DraftForOrg(period: int, overage: seq<Line>) returns (r: Outcome)
      modifies this`sub, this`invoices
      ensures A() == Do(old(A()), DraftOrg(period, overage))
      ensures r.NoSubscription? <==> Find(old(invoices), period).None? && old(sub).None?
      ensures r.Done? ==> r.id < |invoices| && IsDraft(invoices[r.id], period)
      ensures r.Done? || r.NoSubscription?
    {
      var existing := Find(invoices, period);
      if existing.Some? { return Done(existing.value); }
      if sub.None? { return NoSubscription; }
      var s := sub.value;
      var lines := PlanLines(s.plan.cents) + overage;
      var adjustments := AdjustmentLinesOf(s.pending);
      lines := lines + adjustments;
      s := s.(pending := []);
      var subtotal := LineSum(lines);
      if subtotal < 0 {
        s := s.(pending := [subtotal]);
        subtotal := 0;
      }
      sub := Some(s);
      invoices := invoices + [Invoice(period, lines, subtotal, Draft, None)];
      r := Done(|invoices| - 1);
    }

    method FinalizeOne(id: nat, stamp: int) returns (r: Outcome)
      modifies this`invoices
      ensures A() == Do(old(A()), Finalize(id, stamp))
      ensures r.NotFound? <==> id >= |old(invoices)|
      ensures r == Done(id) <==> id < |old(invoices)| && (old(invoices)[id].status.Draft? || old(invoices)[id].status.Open?)
      ensures r == Done(id) ==> invoices[id].status.Open?
    {
      if id >= |invoices| { return NotFound; }
      if invoices[id].status.Open? { return Done(id); }
      if !Allowed(invoices[id].status, Open) { return BadTransition; }
      var number := Numbered(invoices) + 1;
      invoices := invoices[id := invoices[id].(status := Open, number := Some((stamp, number)))];
      r := Done(id);
    }

    method RecordPayment(id: nat, cents: int) returns (r: Outcome)
      modifies this`invoices
      ensures A() == Do(old(A()), Pay(id, cents))
      ensures r == if id >= |old(invoices)| then NotFound
                   else if !Allowed(old(invoices)[id].status, Paid) then BadTransition
                   else if cents < old(invoices)[id].subtotal then PartialPayment else Done(id)
      ensures r == Done(id) ==> invoices == old(invoices)[id := old(invoices)[id].(status := Paid)]
    {
      if id >= |invoices| { return NotFound; }
      if !Allowed(invoices[id].status, Paid) { return BadTransition; }
      if cents < invoices[id].subtotal { return PartialPayment; }
      invoices := invoices[id := invoices[id].(status := Paid)];
      r := Done(id);
    }

    method VoidInvoiceById(id: nat) returns (r: Outcome)
      modifies this`invoices
      ensures A() == Do(old(A()), VoidOne(id))
      ensures r == if id >= |old(invoices)| then NotFound else if Allowed(old(invoices)[id].status, Void) then Done(id) else BadTransition
      ensures r == Done(id) ==> invoices == old(invoices)[id := old(invoices)[id].(status := Void)]
    {
      if id >= |invoices| { return NotFound; }
      if !Allowed(invoices[id].status, Void) { return BadTransition; }
      invoices := invoices[id := invoices[id].(status := Void)];
      r := Done(id);
    }
  }

  // ---------------------------------------------------------------- overage

  /** A price is set on usage past a cap, and `used` is past it. */
  predicate Exceeds(limit: Resolver.Limit, used: int) {
    limit.value.Some? && limit.overage.Some? && used > limit.value.value
  }

  /** The line bills the units past the cap, in as many started blocks as they take, at the block price. */
  predicate BillsExcess(l: Line, metric: string, limit: Resolver.Limit, used: int)
    requires Exceeds(limit, used)
  {
    var excess, unit := used - limit.value.value, limit.overage.value.unit;
    && l.kind == MeteredLine(metric) && l.unitCents == limit.overage.value.priceCents && l.cents == l.quantity * l.unitCents
    && l.quantity * unit >= excess && (l.quantity - 1) * unit < excess
  }

  function OverageLine(metric: string, limit: Resolver.Limit, used: int): (lines: seq<Line>)
    requires limit.overage.Some? ==> limit.overage.value.unit >= 1
    ensures lines != [] <==> Exceeds(limit, used)
    ensures lines != [] ==> |lines| == 1 && BillsExcess(lines[0], metric, limit, used)
  {
    if limit.value.None? || limit.overage.None? || used - limit.value.value <= 0 then []
    else
      var bill := Resolver.Bill(limit.overage.value, used - limit.value.value);
      [Line(MeteredLine(metric), bill.0, limit.overage.value.priceCents, bill.1)]
  }

  predicate Billable(metrics: seq<string>, limits: map<string, Resolver.Limit>) {
    && (forall m | m in metrics :: m in limits)
    && (forall m | m in metrics && limits[m].overage.Some? :: limits[m].overage.value.unit >= 1)
  }

  function UsedOf(used: map<string, int>, metric: string): int {
    if metric in used then used[metric] else 0
  }

  function Overage(metrics: seq<string>, limits: map<string, Resolver.Limit>, used: map<string, int>): seq<Line>
    requires Billable(metrics, limits)
  {
    if metrics == [] then []
    else
      var m := metrics[|metrics| - 1];
      Overage(metrics[..|metrics| - 1], limits, used) + OverageLine(m, limits[m], UsedOf(used, m))
  }

  lemma OverageStep(metrics: seq<string>, i: nat, limits: map<string, Resolver.Limit>, used: map<string, int>)
    requires i < |metrics| && Billable(metrics, limits)
    ensures Overage(metrics[..i + 1], limits, used)
            == Overage(metrics[..i], limits, used) + OverageLine(metrics[i], limits[metrics[i]], UsedOf(used, metrics[i]))
  {
    assert metrics[..i + 1][..i] == metrics[..i] && metrics[..i + 1][i] == metrics[i];
  }

  /** The metrics that are past a priced cap, in order. */
  function Exceeded(metrics: seq<string>, limits: map<string, Resolver.Limit>, used: map<string, int>): (r: seq<string>)
    requires Billable(metrics, limits)
    ensures forall m :: m in r <==> m in metrics && Exceeds(limits[m], UsedOf(used, m))
  {
    if metrics == [] then []
    else
      var m := metrics[|metrics| - 1];
      Exceeded(metrics[..|metrics| - 1], limits, used) + if Exceeds(limits[m], UsedOf(used, m)) then [m] else []
  }

  /** The overage lines are one for each metric past its priced cap, in the metrics' order, each billing
      exactly that metric's excess. */
  lemma {:induction false} OverageIsExact(metrics: seq<string>, limits: map<string, Resolver.Limit>, used: map<string, int>)
    requires Billable(metrics, limits)
    ensures var lines, due := Overage(metrics, limits, used), Exceeded(metrics, limits, used);
            |lines| == |due| && forall k | 0 <= k < |lines| ::
              Exceeds(limits[due[k]], UsedOf(used, due[k])) && BillsExcess(lines[k], due[k], limits[due[k]], UsedOf(used, due[k]))
    decreases |metrics|
  {
    if metrics != [] {
      var init, m := metrics[..|metrics| - 1], metrics[|metrics| - 1];
      OverageIsExact(init, limits, used);
      var lines, due := Overage(metrics, limits, used), Exceeded(metrics, limits, used);
      forall k | 0 <= k < |lines|
        ensures k < |due| && Exceeds(limits[due[k]], UsedOf(used, due[k])) && BillsExcess(lines[k], due[k], limits[due[k]], UsedOf(used, due[k]))
      {
        if k < |Overage(init, limits, used)| {
          assert lines[k] == Overage(init, limits, used)[k] && due[k] == Exceeded(init, limits, used)[k];
        }
      }
    }
  }

  /** What usage past a cap costs: started blocks at the block price. */
  function Cost(limit: Resolver.Limit, used: int): int
    requires limit.overage.Some? ==> limit.overage.value.unit >= 1
  {
    if !Exceeds(limit, used) then 0
    else (used - limit.value.value + limit.overage.value.unit - 1) / limit.overage.value.unit * limit.overage.value.priceCents
  }

  function CostOf(metrics: seq<string>, limits: map<string, Resolver.Limit>, used: map<string, int>): int
    requires Billable(metrics, limits)
  {
    if metrics == [] then 0
    else
      var m := metrics[0];
      Cost(limits[m], UsedOf(used, m)) + CostOf(metrics[1..], limits, used)
  }

  /** There is one number of started blocks. */
  lemma StartedBlocks(excess: int, unit: int, blocks: int)
    requires unit >= 1 && blocks * unit >= excess && (blocks - 1) * unit < excess
    ensures blocks == (excess + unit - 1) / unit
  {
    var rest := excess + unit - 1 - blocks * unit;
    assert (blocks - 1) * unit == blocks * unit - unit;
    assert 0 <= rest < unit;
    Quotient(excess + unit - 1, unit, blocks, rest);
  }

  lemma Quotient(x: int, unit: int, q: int, rest: int)
    requires unit >= 1 && x == q * unit + rest && 0 <= rest < unit
    ensures x / unit == q
  {
    var d := x / unit - q;
    assert d * unit == (x / unit) * unit - q * unit;
    assert d * unit == rest - x % unit;
    assert d >= 1 ==> d * unit >= unit;
    assert d <= -1 ==> d * unit <= -unit;
  }

  lemma LineCosts(metric: string, limit: Resolver.Limit, used: int)
    requires limit.overage.Some? ==> limit.overage.value.unit >= 1
    ensures LineSum(OverageLine(metric, limit, used)) == Cost(limit, used)
  {
    var lines := OverageLine(metric, limit, used);
    if lines != [] {
      StartedBlocks(used - limit.value.value, limit.overage.value.unit, lines[0].quantity);
      assert lines[..0] == [];
    }
  }

  lemma {:induction false} CostSnoc(metrics: seq<string>, m: string, limits: map<string, Resolver.Limit>, used: map<string, int>)
    requires Billable(metrics + [m], limits)
    ensures Billable(metrics, limits) && m in limits && (limits[m].overage.Some? ==> limits[m].overage.value.unit >= 1)
    ensures CostOf(metrics + [m], limits, used) == CostOf(metrics, limits, used) + Cost(limits[m], UsedOf(used, m))
    decreases |metrics|
  {
    assert forall n | n in metrics :: n in metrics + [m];
    assert m in metrics + [m];
    if metrics == [] {
      assert [] + [m] == [m] && [m][1..] == [];
    } else {
      assert (metrics + [m])[1..] == metrics[1..] + [m];
      CostSnoc(metrics[1..], m, limits, used);
    }
  }

  lemma {:induction false} OverageCosts(metrics: seq<string>, limits: map<string, Resolver.Limit>, used: map<string, int>)
    requires Billable(metrics, limits)
    ensures LineSum(Overage(metrics, limits, used)) == CostOf(metrics, limits, used)
    decreases |metrics|
  {
    if metrics != [] {
      var init, m := metrics[..|metrics| - 1], metrics[|metrics| - 1];
      assert metrics == init + [m];
      OverageCosts(init, limits, used);
      LineCosts(m, limits[m], UsedOf(used, m));
      LineSumConcat(Overage(init, limits, used), OverageLine(m, limits[m], UsedOf(used, m)));
      CostSnoc(init, m, limits, used);
    }
  }

  // ---------------------------------------------------------------- what the operations leave

  function NonZero(xs: seq<int>): (r: seq<int>)
    ensures forall x :: x in r <==> x in xs && x != 0
  {
    if xs == [] then [] else NonZero(xs[..|xs| - 1]) + if xs[|xs| - 1] == 0 then [] else [xs[|xs| - 1]]
  }

  lemma {:induction false} AdjustmentLinesAre(pending: seq<int>)
    ensures var lines, due := AdjustmentLines(pending), NonZero(pending);
            |lines| == |due| && forall k | 0 <= k < |due| :: lines[k] == Line(if due[k] < 0 then CreditLine else CustomLine, 1, due[k], due[k])
    decreases |pending|
  {
    if pending != [] { AdjustmentLinesAre(pending[..|pending| - 1]); }
  }

  /** The whole draft from what the organization has, used and owes: one line for a plan that costs, one
      for each metric past its priced cap, one for each correction; their sum is the price, the cost of the
      usage past the caps and the corrections, invoiced if positive and carried over if negative. */
  lemma DraftIsExact(a: Account, period: int, metrics: seq<string>, limits: map<string, Resolver.Limit>, used: map<string, int>)
    requires a.sub.Some? && Billable(metrics, limits) && forall k | 0 <= k < |a.invoices| :: !IsDraft(a.invoices[k], period)
    ensures var s := a.sub.value; var price := if s.plan.cents > 0 then s.plan.cents else 0;
            var a' := Do(a, DraftOrg(period, Overage(metrics, limits, used))); var due := price + CostOf(metrics, limits, used) + Sum(s.pending);
            && |a'.invoices| == |a.invoices| + 1 && a'.invoices[..|a.invoices|] == a.invoices
            && a'.invoices[|a.invoices|] == Invoice(period, a'.invoices[|a.invoices|].lines, if due < 0 then 0 else due, Draft, None)
            && a'.invoices[|a.invoices|].lines == (if price > 0 then [Line(PlanLine, 1, price, price)] else [])
                                                  + Overage(metrics, limits, used) + AdjustmentLines(s.pending)
            && a' == a.(sub := Some(s.(pending := if due < 0 then [due] else [])), invoices := a'.invoices)
  {
    var s := a.sub.value;
    var plan, overage, adj := PlanLines(s.plan.cents), Overage(metrics, limits, used), AdjustmentLines(s.pending);
    LineSumConcat(plan + overage, adj);
    LineSumConcat(plan, overage);
    AdjustmentLinesSum(s.pending);
    OverageCosts(metrics, limits, used);
    assert LineSum(plan) == if s.plan.cents > 0 then s.plan.cents else 0 by {
      if s.plan.cents > 0 { assert plan[..0] == []; }
    }
  }

  /** A local plan change puts the organization on the plan, active. A live paid period is kept, and the
      difference in its prices for the rest of it queued; else a new period starts and nothing is queued. */
  lemma ChangeIsExact(a: Account, plan: Plan, now: int)
    ensures var a' := Do(a, ChangePlan(plan, now));
            var kept := a.sub.Some? && a.sub.value.status.Active? && a.sub.value.plan.cents > 0 && a.sub.value.end > now;
            var pending := if a.sub.Some? then a.sub.value.pending else [];
            && a' == a.(sub := a'.sub) && a'.sub.Some? && a'.sub.value.status.Active? && a'.sub.value.plan == plan
            && (kept ==>
                  var due := Arrears(a.sub.value.plan.cents, plan.cents, a.sub.value.start, a.sub.value.end, now);
                  && a'.sub.value.start == a.sub.value.start && a'.sub.value.end == a.sub.value.end
                  && a'.sub.value.pending == pending + if due == 0 then [] else [due])
            && (!kept ==>
                  && a'.sub.value.start == now && a'.sub.value.end == now + (if plan.yearly then 365 else 30) * 86_400_000_000
                  && a'.sub.value.pending == pending)
  {
    if a.sub.Some? { assert a.sub.value.pending + [] == a.sub.value.pending; }
  }

  /** Finalizing numbers a draft and opens it, a covering payment pays an open invoice, voiding voids a
      draft or an open one; anything else changes nothing, and nothing else moves. */
  lemma LifecycleIsExact(a: Account, id: nat, stamp: int, cents: int)
    requires id < |a.invoices|
    ensures var i := a.invoices[id];
            && Do(a, Finalize(id, stamp)) == a.(invoices := a.invoices[id :=
                 if i.status == Draft then i.(status := Open, number := Some((stamp, Numbered(a.invoices) + 1))) else i])
            && Do(a, Pay(id, cents)) == a.(invoices := a.invoices[id := if i.status == Open && cents >= i.subtotal then i.(status := Paid) else i])
            && Do(a, VoidOne(id)) == a.(invoices := a.invoices[id := if i.status in {Draft, Open} then i.(status := Void) else i])
  {
    assert a.invoices[id := a.invoices[id]] == a.invoices;
  }
}
