/**
 The subscription rows and the billing account of one organization, moved by the same commands: the
 account's subscription is at every moment the row that occupies the organization.
 */
module SubscriptionBilling {
  import opened Wrappers
  import I = Invoicing
  import S = Subscriptions

  function BillingPlan(p: S.Plan): I.Plan { I.Plan(p.key, p.price, p.yearly) }

  /** The billing status of an occupying row. */
  function StatusOf(s: S.Status): Option<I.SubStatus> {
    match s
    case Trialing => Some(I.Trialing)
    case Active => Some(I.Active)
    case PastDue => Some(I.PastDue)
    case _ => None
  }

  predicate Shows(row: S.Sub, s: I.Sub) {
    StatusOf(row.status) == Some(s.status) && row.plan == s.plan.key && row.start == s.start && row.end == s.end
  }

  /** The account's subscription is the organization's current row. */
  predicate Agree(subs: seq<S.Sub>, org: int, a: I.Account) {
    match S.Current(subs, org)
    case None => a.sub.None?
    case Some(i) => a.sub.Some? && Shows(subs[i], a.sub.value)
  }

  // ---------------------------------------------------------------- one command on both sides

  /** What a command on the rows does to the account. */
  function Billed(c: S.Command): seq<I.Op> {
    match c
    case CreateCmd(_, plan, status, start, end, _, _, _) =>
      if StatusOf(status).None? then []
      else [I.Begin(StatusOf(status).value, BillingPlan(plan), start, if end.Some? then end.value else start + S.IntervalOf(plan))]
    case TrialCmd(_, plan, days, now) =>
      if plan.None? then []
      else [I.Begin(I.Trialing, BillingPlan(plan.value), now, now + S.DAY * (if days.Some? then days.value else plan.value.trialDays))]
    case ChangeCmd(_, plan, _, _, keep, now) => if plan.None? then [] else [I.Replan(BillingPlan(plan.value), keep, now)]
    case CancelCmd(_, atEnd, _) => if atEnd then [] else [I.CancelNow]
    case ResumeCmd(_) => []
    case ProviderCmd(_, target, end) => [I.Provider(StatusOf(target), end)]
  }

  lemma OneOp(a: I.Account, op: I.Op)
    ensures I.DoAll(a, [op]) == I.Do(a, op)
  {
    assert I.DoAll(I.Do(a, op), [op][1..]) == I.Do(a, op);
  }

  /** The only row of an organization that occupies it is the current one. */
  lemma CurrentIs(subs: seq<S.Sub>, org: int, i: int)
    requires S.OnePerOrg(subs) && S.IsCurrent(subs, org, i)
    ensures S.Current(subs, org) == Some(i)
  {
  }

  lemma CurrentIsNone(subs: seq<S.Sub>, org: int)
    requires forall i :: !S.IsCurrent(subs, org, i)
    ensures S.Current(subs, org) == None
  {
  }

  lemma AppendAgrees(subs: seq<S.Sub>, row: S.Sub, org: int, a: I.Account, s: I.Sub)
    requires S.OnePerOrg(subs + [row]) && row.org == org && Shows(row, s) && a.sub == Some(s)
    ensures Agree(subs + [row], org, a)
  {
    CurrentIs(subs + [row], org, |subs|);
  }

  lemma UpdateAgrees(subs: seq<S.Sub>, i: nat, row: S.Sub, org: int, a: I.Account, a': I.Account)
    requires S.Constraints(subs) && S.Current(subs, org) == Some(i) && row.org == org && S.Constraints(subs[i := row])
    requires if S.Occupies(row.status) then a'.sub.Some? && Shows(row, a'.sub.value) else a'.sub.None?
    ensures Agree(subs[i := row], org, a')
  {
    var subs' := subs[i := row];
    if S.Occupies(row.status) {
      CurrentIs(subs', org, i);
    } else {
      assert forall j :: S.IsCurrent(subs', org, j) ==> S.IsCurrent(subs, org, j) && j != i;
      assert forall j :: S.IsCurrent(subs, org, j) ==> j == i;
      CurrentIsNone(subs', org);
    }
  }

  lemma SwitchAgrees(subs: seq<S.Sub>, org: int, a: I.Account, plan: S.Plan, provider: Option<string>, ref: Option<string>, keep: bool, now: int)
    requires S.Constraints(subs) && Agree(subs, org, a) && S.ChangePlan(subs, org, Some(plan), provider, ref, keep, now).Done?
    ensures Agree(S.ChangePlan(subs, org, Some(plan), provider, ref, keep, now).subs, org, I.Do(a, I.Replan(BillingPlan(plan), keep, now)))
  {
    var a' := I.Do(a, I.Replan(BillingPlan(plan), keep, now));
    match S.Current(subs, org)
    case None => AppendAgrees(subs, S.Sub(org, S.Active, plan.key, now, now + S.IntervalOf(plan), None, false, None, provider, ref), org, a', a'.sub.value);
    case Some(i) => UpdateAgrees(subs, i, S.Switched(subs[i], plan, provider, ref, keep, now), org, a, a');
  }

  lemma BeginAgrees(subs: seq<S.Sub>, a: I.Account, c: S.Command)
    requires S.Constraints(subs) && Agree(subs, c.org, a) && S.Do(subs, c).Done? && (c.CreateCmd? || c.TrialCmd?)
    ensures Agree(S.Do(subs, c).subs, c.org, I.DoAll(a, Billed(c)))
  {
    var subs' := S.Do(subs, c).subs;
    var before, row := subs'[..|subs'| - 1], subs'[|subs'| - 1];
    assert subs' == before + [row];
    if Billed(c) == [] {
      IdleAppend(subs, row, c.org, a);
    } else {
      OneOp(a, Billed(c)[0]);
      AppendAgrees(before, row, c.org, I.DoAll(a, Billed(c)), I.DoAll(a, Billed(c)).sub.value);
    }
  }

  /** A row that does not occupy its organization changes nothing. */
  lemma IdleAppend(subs: seq<S.Sub>, row: S.Sub, org: int, a: I.Account)
    requires S.OnePerOrg(subs + [row]) && Agree(subs, org, a) && (row.org == org ==> !S.Occupies(row.status))
    ensures Agree(subs + [row], org, a)
  {
    var subs' := subs + [row];
    assert forall j :: S.IsCurrent(subs', org, j) <==> S.IsCurrent(subs, org, j);
    if S.Current(subs, org).Some? { CurrentIs(subs', org, S.Current(subs, org).value); } else { CurrentIsNone(subs', org); }
  }

  lemma StatusAgrees(subs: seq<S.Sub>, a: I.Account, c: S.Command)
    requires S.Constraints(subs) && Agree(subs, c.org, a) && S.Do(subs, c).Done? && (c.CancelCmd? || c.ResumeCmd? || c.ProviderCmd?)
    ensures Agree(S.Do(subs, c).subs, c.org, I.DoAll(a, Billed(c)))
  {
    if Billed(c) != [] { OneOp(a, Billed(c)[0]); }
    S.StepFollowsTheTable(subs, c);
    if S.Current(subs, c.org).Some? {
      var i := S.Current(subs, c.org).value;
      UpdateAgrees(subs, i, S.Do(subs, c).subs[i], c.org, a, I.DoAll(a, Billed(c)));
    }
  }

  /** Every command that goes through on the rows, and what it does to the account, keep the two in
      agreement. */
  lemma CommandAgrees(subs: seq<S.Sub>, a: I.Account, c: S.Command)
    requires S.Constraints(subs) && Agree(subs, c.org, a) && S.Do(subs, c).Done?
    ensures Agree(S.Do(subs, c).subs, c.org, I.DoAll(a, Billed(c)))
  {
    match c
    case CreateCmd(_, _, _, _, _, _, _, _) => BeginAgrees(subs, a, c);
    case TrialCmd(_, _, _, _) => BeginAgrees(subs, a, c);
    case ChangeCmd(org, plan, provider, ref, keep, now) =>
      OneOp(a, Billed(c)[0]);
      SwitchAgrees(subs, org, a, plan.value, provider, ref, keep, now);
    case _ => StatusAgrees(subs, a, c);
  }

  /** Other organizations' commands do not touch this one. */
  lemma OthersAgree(subs: seq<S.Sub>, org: int, a: I.Account, c: S.Command)
    requires S.Constraints(subs) && Agree(subs, org, a) && c.org != org
    ensures Agree(S.Next(subs, c), org, a)
  {
    S.StepFollowsTheTable(subs, c);
    var subs' := S.Next(subs, c);
    assert |subs'| == |subs| + 1 ==> subs'[|subs|].org == c.org;
    assert forall j :: S.IsCurrent(subs', org, j) <==> S.IsCurrent(subs, org, j);
    if S.Current(subs, org).Some? { CurrentIs(subs', org, S.Current(subs, org).value); } else { CurrentIsNone(subs', org); }
  }

  // ---------------------------------------------------------------- whole runs

  /** A command on the rows, a local plan change of the organization (which keeps the period it has
      paid for and queues the correction), or a billing operation on its invoices. */
  datatype Event =
    | Command(c: S.Command)
    | LocalChange(plan: S.Plan, provider: string, now: int)
    | Billing(op: I.Op)

  predicate OnInvoices(op: I.Op) { op.DraftOrg? || op.Finalize? || op.Pay? || op.VoidOne? }

  function Switch(org: int, a: I.Account, plan: S.Plan, provider: string, now: int): S.Command {
    S.ChangeCmd(org, Some(plan), Some(provider), None, I.Keeps(a.sub), now)
  }

  function RowsAfter(subs: seq<S.Sub>, org: int, a: I.Account, e: Event): seq<S.Sub> {
    match e
    case Command(c) => S.Next(subs, c)
    case LocalChange(plan, provider, now) => S.Next(subs, Switch(org, a, plan, provider, now))
    case Billing(_) => subs
  }

  /** The operations on the account an event amounts to. */
  function OpsOf(subs: seq<S.Sub>, org: int, a: I.Account, e: Event): seq<I.Op> {
    match e
    case Command(c) => if c.org == org && S.Do(subs, c).Done? then Billed(c) else []
    case LocalChange(plan, provider, now) =>
      if S.Do(subs, Switch(org, a, plan, provider, now)).Done? then [I.ChangePlan(BillingPlan(plan), now)] else []
    case Billing(op) => if OnInvoices(op) then [op] else []
  }

  lemma StepAgrees(subs: seq<S.Sub>, org: int, a: I.Account, e: Event)
    requires S.Constraints(subs) && Agree(subs, org, a)
    ensures S.Constraints(RowsAfter(subs, org, a, e))
    ensures Agree(RowsAfter(subs, org, a, e), org, I.DoAll(a, OpsOf(subs, org, a, e)))
  {
    match e
    case Command(c) =>
      S.StepFollowsTheTable(subs, c);
      if c.org != org { OthersAgree(subs, org, a, c); } else if S.Do(subs, c).Done? { CommandAgrees(subs, a, c); }
    case LocalChange(plan, provider, now) =>
      var c := Switch(org, a, plan, provider, now);
      S.StepFollowsTheTable(subs, c);
      if S.Do(subs, c).Done? {
        OneOp(a, I.ChangePlan(BillingPlan(plan), now));
        SwitchAgrees(subs, org, a, plan, Some(provider), None, I.Keeps(a.sub), now);
      }
    case Billing(op) => if OnInvoices(op) { OneOp(a, op); }
  }

  function Rows(subs: seq<S.Sub>, org: int, a: I.Account, run: seq<Event>): seq<S.Sub>
    decreases |run|
  {
    if run == [] then subs else Rows(RowsAfter(subs, org, a, run[0]), org, I.DoAll(a, OpsOf(subs, org, a, run[0])), run[1..])
  }

  /** All the account operations of a run. */
  function Ops(subs: seq<S.Sub>, org: int, a: I.Account, run: seq<Event>): seq<I.Op>
    decreases |run|
  {
    if run == [] then []
    else
      var ops := OpsOf(subs, org, a, run[0]);
      ops + Ops(RowsAfter(subs, org, a, run[0]), org, I.DoAll(a, ops), run[1..])
  }

  lemma {:induction false} DoAllConcat(a: I.Account, first: seq<I.Op>, rest: seq<I.Op>)
    ensures I.DoAll(a, first + rest) == I.DoAll(I.DoAll(a, first), rest)
    decreases |first|
  {
    if first == [] {
      assert first + rest == rest;
    } else {
      assert (first + rest)[1..] == first[1..] + rest;
      DoAllConcat(I.Do(a, first[0]), first[1..], rest);
    }
  }

  /** In every run of commands of all organizations, local plan changes and billing, the account's
      subscription stays the organization's current row, and the account is one a run of billing
      operations reaches: whatever was drafted or is pending is what that run incurred. */
  lemma {:induction false} RunAgrees(subs: seq<S.Sub>, org: int, a: I.Account, run: seq<Event>)
    requires S.Constraints(subs) && Agree(subs, org, a)
    ensures var ops := Ops(subs, org, a, run);
            && S.Constraints(Rows(subs, org, a, run))
            && Agree(Rows(subs, org, a, run), org, I.DoAll(a, ops))
            && I.Money(I.DoAll(a, ops)) == I.Money(a) + I.IncurredAll(a, ops)
    decreases |run|
  {
    I.MoneyConserved(a, Ops(subs, org, a, run));
    if run != [] {
      var ops := OpsOf(subs, org, a, run[0]);
      StepAgrees(subs, org, a, run[0]);
      RunAgrees(RowsAfter(subs, org, a, run[0]), org, I.DoAll(a, ops), run[1..]);
      DoAllConcat(a, ops, Ops(RowsAfter(subs, org, a, run[0]), org, I.DoAll(a, ops), run[1..]));
    }
  }
}
