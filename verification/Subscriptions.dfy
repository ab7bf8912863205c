/**
 The subscription lifecycle: the transition table, the commands, and what every run of commands and
 provider events keeps. Row numbers follow creation order.
 */
module Subscriptions {
  import opened Wrappers

  /** `Unknown` stands for any other word a provider may send. */
  datatype Status = Incomplete | Trialing | Active | PastDue | Unpaid | Canceled | Unknown(word: string)

  const OCCUPYING: set<Status> := {Trialing, Active, PastDue}

  predicate Occupies(s: Status) { s in OCCUPYING }

  const ALLOWED: map<Status, set<Status>> := map[
    Incomplete := {Trialing, Active, PastDue, Canceled},
    Trialing := {Active, PastDue, Canceled, Incomplete},
    Active := {PastDue, Canceled, Unpaid, Active},
    PastDue := {Active, Canceled, Unpaid},
    Unpaid := {Active, Canceled},
    Canceled := {Active}]

  predicate CanTransition(current: Status, target: Status) {
    current == target || (current in ALLOWED && target in ALLOWED[current])
  }

  /** Times are in microseconds. */
  const DAY := 86_400_000_000
  const MONTH := 30 * DAY
  const YEAR := 365 * DAY

  datatype Plan = Plan(key: string, yearly: bool, trialDays: nat, price: nat)

  function IntervalOf(p: Plan): int { if p.yearly then YEAR else MONTH }

  datatype Sub = Sub(
    org: int, status: Status, plan: string, start: int, end: int, trialEnds: Option<int>,
    cancelAtEnd: bool, canceledAt: Option<int>, provider: Option<string>, ref: Option<string>)

  /** A refusal is a business error, or a constraint of the table that the write would break. */
  datatype Outcome = Done(subs: seq<Sub>) | Refused | Broken

  // ---------------------------------------------------------------- queries and constraints

  predicate IsCurrent(subs: seq<Sub>, org: int, i: int) {
    0 <= i < |subs| && subs[i].org == org && Occupies(subs[i].status)
  }

  /** The most recently created occupying subscription of an organization. */
  function Current(subs: seq<Sub>, org: int): (r: Option<nat>)
    ensures r.Some? ==> IsCurrent(subs, org, r.value) && forall i | IsCurrent(subs, org, i) :: i <= r.value
    ensures r.None? ==> forall i :: !IsCurrent(subs, org, i)
  {
    if subs == [] then None
    else if IsCurrent(subs, org, |subs| - 1) then Some(|subs| - 1)
    else
      var init := subs[..|subs| - 1];
      assert forall i | 0 <= i < |subs| - 1 :: init[i] == subs[i];
      assert forall i :: IsCurrent(init, org, i) <==> IsCurrent(subs, org, i);
      Current(init, org)
  }

  predicate OnePerOrg(subs: seq<Sub>) {
    forall i, j :: 0 <= i < |subs| && 0 <= j < |subs| && subs[i].org == subs[j].org && Occupies(subs[i].status) && Occupies(subs[j].status) ==> i == j
  }

  predicate RefsUnique(subs: seq<Sub>) {
    forall i, j | 0 <= i < |subs| && 0 <= j < |subs| && subs[i].ref.Some? && subs[i].provider.Some?
                  && subs[i].ref == subs[j].ref && subs[i].provider == subs[j].provider :: i == j
  }

  predicate Constraints(subs: seq<Sub>) {
    OnePerOrg(subs) && RefsUnique(subs) && forall i | 0 <= i < |subs| :: !subs[i].status.Unknown?
  }

  /** A write goes through only if the table's constraints hold after it. */
  function Flush(subs: seq<Sub>): Outcome {
    if Constraints(subs) then Done(subs) else Broken
  }

  // ---------------------------------------------------------------- commands

  function Create(subs: seq<Sub>, org: int, plan: Plan, status: Status, start: int, end: Option<int>, trialEnds: Option<int>,
                  provider: Option<string>, ref: Option<string>): Outcome {
    Flush(subs + [Sub(org, status, plan.key, start, if end.Some? then end.value else start + IntervalOf(plan), trialEnds, false, None, provider, ref)])
  }

  function EndCurrent(s: Sub, now: int): Sub { s.(status := Canceled, canceledAt := Some(now)) }

  function StartTrial(subs: seq<Sub>, org: int, plan: Option<Plan>, days: Option<int>, now: int): Outcome {
    if plan.None? then Refused
    else if plan.value.trialDays == 0 && days.None? then Refused
    else
      var existing := Current(subs, org);
      if existing.Some? && subs[existing.value].status == Trialing then Refused
      else
        var end := now + DAY * (if days.Some? then days.value else plan.value.trialDays);
        Create(Ended(subs, org, now), org, plan.value, Trialing, now, Some(end), Some(end), None, None)
  }

  function Switched(s: Sub, plan: Plan, provider: Option<string>, ref: Option<string>, keep: bool, now: int): Sub {
    var live := keep && s.end > now;
    Sub(s.org, Active, plan.key, if live then s.start else now, if live then s.end else now + IntervalOf(plan), s.trialEnds,
        false, None, if provider.Some? then provider else s.provider, if ref.Some? then ref else s.ref)
  }

  function ChangePlan(subs: seq<Sub>, org: int, plan: Option<Plan>, provider: Option<string>, ref: Option<string>, keep: bool, now: int): Outcome {
    if plan.None? then Refused
    else
      match Current(subs, org)
      case None => Create(subs, org, plan.value, Active, now, None, None, provider, ref)
      case Some(i) => Flush(subs[i := Switched(subs[i], plan.value, provider, ref, keep, now)])
  }

  function Cancel(subs: seq<Sub>, org: int, atEnd: bool, now: int): Outcome {
    match Current(subs, org)
    case None => Refused
    case Some(i) =>
      if !CanTransition(subs[i].status, Canceled) then Refused
      else Done(subs[i := if atEnd then subs[i].(cancelAtEnd := true) else EndCurrent(subs[i], now)])
  }

  function Resume(subs: seq<Sub>, org: int): Outcome {
    match Current(subs, org)
    case None => Refused
    case Some(i) => if subs[i].cancelAtEnd then Done(subs[i := subs[i].(cancelAtEnd := false)]) else Refused
  }

  /** A provider's word about the current subscription; without one there is nothing to do. */
  function ProviderStatus(subs: seq<Sub>, org: int, target: Status, end: Option<int>): Outcome {
    match Current(subs, org)
    case None => Done(subs)
    case Some(i) =>
      if !CanTransition(subs[i].status, target) then Refused
      else Done(subs[i := subs[i].(status := target, end := if end.Some? then end.value else subs[i].end)])
  }

  datatype Command =
    | CreateCmd(org: int, plan: Plan, status: Status, start: int, end: Option<int>, trialEnds: Option<int>, provider: Option<string>, ref: Option<string>)
    | TrialCmd(org: int, trialPlan: Option<Plan>, days: Option<int>, now: int)
    | ChangeCmd(org: int, newPlan: Option<Plan>, provider: Option<string>, ref: Option<string>, keep: bool, now: int)
    | CancelCmd(org: int, atEnd: bool, now: int)
    | ResumeCmd(org: int)
    | ProviderCmd(org: int, target: Status, newEnd: Option<int>)

  function Do(subs: seq<Sub>, c: Command): Outcome {
    match c
    case CreateCmd(org, plan, status, start, end, trialEnds, provider, ref) => Create(subs, org, plan, status, start, end, trialEnds, provider, ref)
    case TrialCmd(org, plan, days, now) => StartTrial(subs, org, plan, days, now)
    case ChangeCmd(org, plan, provider, ref, keep, now) => ChangePlan(subs, org, plan, provider, ref, keep, now)
    case CancelCmd(org, atEnd, now) => Cancel(subs, org, atEnd, now)
    case ResumeCmd(org) => Resume(subs, org)
    case ProviderCmd(org, target, end) => ProviderStatus(subs, org, target, end)
  }

  function Next(subs: seq<Sub>, c: Command): seq<Sub> {
    var o := Do(subs, c);
    if o.Done? then o.subs else subs
  }

  function After(subs: seq<Sub>, run: seq<Command>): seq<Sub>
    decreases |run|
  {
    if run == [] then subs else After(Next(subs, run[0]), run[1..])
  }

  // ---------------------------------------------------------------- what a step and a run keep

  /** One row moved along the table and belongs to whom it belonged; a row that no longer occupies
      its organization is frozen. */
  predicate RowStep(s: Sub, s': Sub) {
    && s'.org == s.org && CanTransition(s.status, s'.status)
    && (!Occupies(s.status) ==> s' == s)
  }

  /** Statuses of rows never leave the table when only occupying rows move. */
  lemma StepFollowsTheTable(subs: seq<Sub>, c: Command)
    requires Constraints(subs)
    ensures Constraints(Next(subs, c))
    ensures |subs| <= |Next(subs, c)| <= |subs| + 1 && forall i | 0 <= i < |subs| :: RowStep(subs[i], Next(subs, c)[i])
    ensures forall i | 0 <= i < |subs| && subs[i].org != c.org :: Next(subs, c)[i] == subs[i]
  {
  }

  /** A subscription that has left the occupying set never changes again, so it never re-enters it. */
  lemma {:induction false} LeftForGood(subs: seq<Sub>, run: seq<Command>, i: nat)
    requires Constraints(subs) && i < |subs| && !Occupies(subs[i].status)
    ensures i < |After(subs, run)| && After(subs, run)[i] == subs[i]
    decreases |run|
  {
    if run != [] {
      StepFollowsTheTable(subs, run[0]);
      LeftForGood(Next(subs, run[0]), run[1..], i);
    }
  }

  /** In every run an organization has at most one occupying subscription. */
  lemma {:induction false} RunKeepsConstraints(subs: seq<Sub>, run: seq<Command>)
    requires Constraints(subs)
    ensures Constraints(After(subs, run)) && |subs| <= |After(subs, run)|
    decreases |run|
  {
    if run != [] {
      StepFollowsTheTable(subs, run[0]);
      RunKeepsConstraints(Next(subs, run[0]), run[1..]);
    }
  }

  /** Reached: some path of the table leads there. */
  ghost predicate Reaches(a: Status, b: Status, path: seq<Status>) {
    && |path| >= 1 && path[0] == a && path[|path| - 1] == b
    && forall k | 0 <= k < |path| - 1 :: CanTransition(path[k], path[k + 1]) && Occupies(path[k])
  }

  /** Over a whole run a row's status follows a path of the table that stays inside the occupying
      statuses up to its end. */
  lemma {:induction false} RunFollowsTheTable(subs: seq<Sub>, run: seq<Command>, i: nat) returns (path: seq<Status>)
    requires Constraints(subs) && i < |subs|
    ensures i < |After(subs, run)| && Reaches(subs[i].status, After(subs, run)[i].status, path)
    decreases |run|
  {
    path := [subs[i].status];
    if run != [] {
      StepFollowsTheTable(subs, run[0]);
      var s' := Next(subs, run[0])[i];
      var rest := RunFollowsTheTable(Next(subs, run[0]), run[1..], i);
      path := if Occupies(subs[i].status) then [subs[i].status] + rest else rest;
    }
  }

  /** Cancelling at the period's end and resuming puts every field back. */
  lemma ResumeUndoesCancel(subs: seq<Sub>, org: int, now: int)
    requires Constraints(subs) && Current(subs, org).Some? && !subs[Current(subs, org).value].cancelAtEnd
    ensures var canceled := Cancel(subs, org, true, now);
            canceled.Done? && Resume(canceled.subs, org) == Done(subs)
  {
    var i := Current(subs, org).value;
    var subs1 := subs[i := subs[i].(cancelAtEnd := true)];
    assert IsCurrent(subs1, org, i);
    assert Current(subs1, org) == Some(i) by {
      var j := Current(subs1, org).value;
      assert IsCurrent(subs, org, j);
    }
    assert subs1[i := subs1[i].(cancelAtEnd := false)] == subs;
  }

  function Ended(subs: seq<Sub>, org: int, now: int): seq<Sub> {
    match Current(subs, org)
    case None => subs
    case Some(i) => subs[i := EndCurrent(subs[i], now)]
  }

  /** A trial ends whatever occupied the organization, except a running trial, and becomes current. */
  lemma TrialReplaces(subs: seq<Sub>, org: int, plan: Plan, days: Option<int>, now: int)
    requires Constraints(subs)
    ensures var o := StartTrial(subs, org, Some(plan), days, now); var existing := Current(subs, org);
            && (o.Done? <==> (plan.trialDays > 0 || days.Some?) && (existing.Some? ==> subs[existing.value].status != Trialing))
            && (o.Done? ==> Current(o.subs, org) == Some(|subs|) && (existing.Some? ==> o.subs[existing.value].status == Canceled))
  {
    var end := now + DAY * (if days.Some? then days.value else plan.trialDays);
    var sub := Sub(org, Trialing, plan.key, now, end, Some(end), false, None, None, None);
    EndedIsFree(subs, org, now);
    AppendedIsCurrent(Ended(subs, org, now), sub);
    var existing := Current(subs, org);
    if (plan.trialDays > 0 || days.Some?) && (existing.Some? ==> subs[existing.value].status != Trialing) {
      assert StartTrial(subs, org, Some(plan), days, now) == Flush(Ended(subs, org, now) + [sub]);
    }
  }

  lemma EndedIsFree(subs: seq<Sub>, org: int, now: int)
    requires Constraints(subs)
    ensures Constraints(Ended(subs, org, now)) && forall i :: !IsCurrent(Ended(subs, org, now), org, i)
  {
    assert forall i :: IsCurrent(Ended(subs, org, now), org, i) ==> IsCurrent(subs, org, i);
  }

  lemma AppendedIsCurrent(subs: seq<Sub>, sub: Sub)
    requires Constraints(subs) && (forall i :: !IsCurrent(subs, sub.org, i)) && Occupies(sub.status) && sub.ref.None?
    ensures Constraints(subs + [sub]) && Current(subs + [sub], sub.org) == Some(|subs|)
  {
    var subs' := subs + [sub];
    assert forall i | 0 <= i < |subs| && subs[i].org == sub.org :: !IsCurrent(subs, sub.org, i);
    assert IsCurrent(subs', sub.org, |subs|);
  }

  // ---------------------------------------------------------------- what each command leaves

  /** Nothing but row `i` changed. */
  predicate OnlyRow(subs: seq<Sub>, subs': seq<Sub>, i: int) {
    |subs| <= |subs'| && forall j | 0 <= j < |subs| && j != i :: subs'[j] == subs[j]
  }

  /** Cancelling succeeds exactly when something is current. At once, it cancels that row now and leaves
      the organization without a current one; at the period's end, it only marks the row. */
  lemma CancelIsExact(subs: seq<Sub>, org: int, now: int)
    requires Constraints(subs)
    ensures var o := Do(subs, CancelCmd(org, false, now)); var marked := Do(subs, CancelCmd(org, true, now)); var current := Current(subs, org);
            && (o == Refused <==> current.None?) && (marked == Refused <==> current.None?)
            && (current.Some? ==>
                  var row := subs[current.value];
                  && o == Done(subs[current.value := row.(status := Canceled, canceledAt := Some(now))])
                  && (forall i :: !IsCurrent(o.subs, org, i))
                  && marked == Done(subs[current.value := row.(cancelAtEnd := true)]) && Current(marked.subs, org) == current)
  {
    if current :| Current(subs, org) == Some(current) {
      var marked := subs[current := subs[current].(cancelAtEnd := true)];
      assert IsCurrent(marked, org, current);
      assert forall i :: IsCurrent(marked, org, i) ==> IsCurrent(subs, org, i);
      var o := subs[current := subs[current].(status := Canceled, canceledAt := Some(now))];
      assert forall i :: IsCurrent(o, org, i) ==> IsCurrent(subs, org, i) && i != current;
    }
  }

  /** Resuming takes the mark off the current row, and is refused without a row or a mark. */
  lemma ResumeIsExact(subs: seq<Sub>, org: int)
    requires Constraints(subs)
    ensures var o := Do(subs, ResumeCmd(org)); var current := Current(subs, org); var marked := current.Some? && subs[current.value].cancelAtEnd;
            && (o == Refused <==> !marked)
            && (marked ==> o == Done(subs[current.value := subs[current.value].(cancelAtEnd := false)]) && Current(o.subs, org) == current)
  {
    if current :| Current(subs, org) == Some(current) && subs[current].cancelAtEnd {
      var subs' := subs[current := subs[current].(cancelAtEnd := false)];
      assert IsCurrent(subs', org, current);
      assert forall i :: IsCurrent(subs', org, i) ==> IsCurrent(subs, org, i);
    }
  }

  /** `row` in the place of the current one, or at the end. */
  function Placed(subs: seq<Sub>, i: Option<nat>, row: Sub): seq<Sub>
    requires i.Some? ==> i.value < |subs|
  {
    if i.Some? then subs[i.value := row] else subs + [row]
  }

  lemma PlacedIsCurrent(subs: seq<Sub>, row: Sub)
    requires Constraints(subs) && row.status == Active && OnePerOrg(Placed(subs, Current(subs, row.org), row))
    ensures var i := Current(subs, row.org); Current(Placed(subs, i, row), row.org) == Some(if i.Some? then i.value else |subs|)
  {
    var i := Current(subs, row.org);
    assert IsCurrent(Placed(subs, i, row), row.org, if i.Some? then i.value else |subs|);
  }

  /** The row a change of plan leaves: active on the plan, in a new period or in the old one when that is
      live and to be kept, the provider and the reference those given, else as they were. */
  predicate IsChanged(row: Sub, was: Option<Sub>, org: int, plan: Plan, provider: Option<string>, ref: Option<string>, keep: bool, now: int) {
    var kept := was.Some? && keep && was.value.end > now;
    && row.org == org && row.status == Active && row.plan == plan.key && !row.cancelAtEnd && row.canceledAt == None
    && row.start == (if kept then was.value.start else now)
    && row.end == (if kept then was.value.end else now + (if plan.yearly then 365 else 30) * 86_400_000_000)
    && row.trialEnds == (if was.Some? then was.value.trialEnds else None)
    && row.provider == (if was.Some? && provider.None? then was.value.provider else provider)
    && row.ref == (if was.Some? && ref.None? then was.value.ref else ref)
  }

  lemma ChangePlaces(subs: seq<Sub>, org: int, plan: Plan, provider: Option<string>, ref: Option<string>, keep: bool, now: int) returns (row: Sub)
    ensures var current := Current(subs, org);
            && Do(subs, ChangeCmd(org, Some(plan), provider, ref, keep, now)) == Flush(Placed(subs, current, row))
            && IsChanged(row, if current.Some? then Some(subs[current.value]) else None, org, plan, provider, ref, keep, now)
  {
    match Current(subs, org)
    case None => row := Sub(org, Active, plan.key, now, now + IntervalOf(plan), None, false, None, provider, ref);
    case Some(i) => row := Switched(subs[i], plan, provider, ref, keep, now);
  }

  /** What a write of `row` that goes through leaves. */
  lemma PlacedLeaves(subs: seq<Sub>, row: Sub, o: Outcome)
    requires Constraints(subs) && row.status == Active && o == Flush(Placed(subs, Current(subs, row.org), row)) && o.Done?
    ensures var current := Current(subs, row.org); var i := if current.Some? then current.value else |subs|;
            && Current(o.subs, row.org) == Some(i) && OnlyRow(subs, o.subs, i) && |o.subs| == (if current.Some? then |subs| else |subs| + 1)
            && o.subs[i] == row
  {
    PlacedIsCurrent(subs, row);
  }

  /** A change of plan that goes through leaves the organization's current row changed accordingly, a new
      one if it had none, and no other row. */
  lemma ChangePlanIsExact(subs: seq<Sub>, org: int, plan: Plan, provider: Option<string>, ref: Option<string>, keep: bool, now: int)
    requires Constraints(subs) && Do(subs, ChangeCmd(org, Some(plan), provider, ref, keep, now)).Done?
    ensures var subs' := Do(subs, ChangeCmd(org, Some(plan), provider, ref, keep, now)).subs; var current := Current(subs, org);
            var i := if current.Some? then current.value else |subs|;
            && Current(subs', org) == Some(i) && OnlyRow(subs, subs', i) && |subs'| == (if current.Some? then |subs| else |subs| + 1)
            && IsChanged(subs'[i], if current.Some? then Some(subs[i]) else None, org, plan, provider, ref, keep, now)
  {
    var row := ChangePlaces(subs, org, plan, provider, ref, keep, now);
    PlacedLeaves(subs, row, Do(subs, ChangeCmd(org, Some(plan), provider, ref, keep, now)));
  }

  /** A trial that starts: the row it adds, what becomes of the one it replaces, and that no other moves. */
  lemma TrialIsExact(subs: seq<Sub>, org: int, plan: Plan, days: Option<int>, now: int)
    requires Constraints(subs) && Do(subs, TrialCmd(org, Some(plan), days, now)).Done?
    ensures var subs' := Do(subs, TrialCmd(org, Some(plan), days, now)).subs; var current := Current(subs, org);
            var end := now + 86_400_000_000 * (if days.Some? then days.value else plan.trialDays);
            && |subs'| == |subs| + 1 && Current(subs', org) == Some(|subs|)
            && subs'[|subs|] == Sub(org, Trialing, plan.key, now, end, Some(end), false, None, None, None)
            && (current.Some? ==> subs'[current.value] == subs[current.value].(status := Canceled, canceledAt := Some(now)))
            && (forall j | 0 <= j < |subs| && Some(j) != current :: subs'[j] == subs[j])
  {
    TrialReplaces(subs, org, plan, days, now);
  }

  /** A subscription is created as asked, its period the plan's when no end is given, and goes through
      exactly when its organization has no occupying one (if it occupies), its reference is not taken at
      its provider, and its status is one the table knows. */
  lemma CreateIsExact(subs: seq<Sub>, org: int, plan: Plan, status: Status, start: int, end: Option<int>, provider: Option<string>, ref: Option<string>)
    requires Constraints(subs)
    ensures var o := Do(subs, CreateCmd(org, plan, status, start, end, None, provider, ref));
            var finish := if end.Some? then end.value else start + (if plan.yearly then 365 else 30) * 86_400_000_000;
            && o.Done? == (&& (status in {Trialing, Active, PastDue} ==> Current(subs, org).None?)
                           && (ref.Some? && provider.Some? ==> forall j | 0 <= j < |subs| :: subs[j].ref != ref || subs[j].provider != provider)
                           && !status.Unknown?)
            && (o.Done? ==> o.subs == subs + [Sub(org, status, plan.key, start, finish, None, false, None, provider, ref)])
            && !o.Refused?
  {
    var finish := if end.Some? then end.value else start + (if plan.yearly then 365 else 30) * 86_400_000_000;
    var row := Sub(org, status, plan.key, start, finish, None, false, None, provider, ref);
    AppendHolds(subs, row);
  }

  lemma AppendHolds(subs: seq<Sub>, row: Sub)
    requires Constraints(subs)
    ensures Constraints(subs + [row]) ==
              (&& (Occupies(row.status) ==> Current(subs, row.org).None?)
               && (row.ref.Some? && row.provider.Some? ==> forall j | 0 <= j < |subs| :: subs[j].ref != row.ref || subs[j].provider != row.provider)
               && !row.status.Unknown?)
  {
    var subs' := subs + [row];
    assert subs'[|subs|] == row && forall j | 0 <= j < |subs| :: subs'[j] == subs[j];
    var current := Current(subs, row.org);
    if Occupies(row.status) && current.Some? { assert subs'[current.value] == subs[current.value]; }
    if current.None? { assert forall j | 0 <= j < |subs| && subs[j].org == row.org :: !IsCurrent(subs, row.org, j); }
  }

  // ---------------------------------------------------------------- the service

  /** The latest occupying subscription of an organization, looked for from the newest back. */
  method FindCurrent(subs: seq<Sub>, org: int) returns (r: Option<nat>)
    ensures r == Current(subs, org)
  {
    r := None;
    var i := |subs|;
    while i > 0
      invariant 0 <= i <= |subs| && r == None
      invariant forall j | i <= j < |subs| :: !IsCurrent(subs, org, j)
    {
      i := i - 1;
      if subs[i].org == org && Occupies(subs[i].status) {
        assert IsCurrent(subs, org, i);
        return Some(i);
      }
    }
  }

  class SubscriptionService {
    var subs: seq<Sub>

    constructor ()
      ensures subs == []
    {
      subs := [];
    }

    method CreateSubscription(org: int, plan: Plan, status: Status, start: int, end: Option<int>, trialEnds: Option<int>,
                              provider: Option<string>, ref: Option<string>) returns (ok: bool)
      modifies this
      ensures var o := Create(old(subs), org, plan, status, start, end, trialEnds, provider, ref);
              ok == o.Done? && subs == if ok then o.subs else old(subs)
    {
      var before := subs;
      var finish := if end.Some? then end.value else start + IntervalOf(plan);
      subs := subs + [Sub(org, status, plan.key, start, finish, trialEnds, false, None, provider, ref)];
      ok := Constraints(subs);
      if !ok { subs := before; }
    }

    method BeginTrial(org: int, plan: Option<Plan>, days: Option<int>, now: int) returns (ok: bool)
      requires Constraints(subs)
      modifies this
      ensures Constraints(subs) && subs == Next(old(subs), TrialCmd(org, plan, days, now))
      ensures ok == Do(old(subs), TrialCmd(org, plan, days, now)).Done?
    {
      StepFollowsTheTable(subs, TrialCmd(org, plan, days, now));
      if plan.None? || (plan.value.trialDays == 0 && days.None?) { return false; }
      var existing := FindCurrent(subs, org);
      if existing.Some? && subs[existing.value].status == Trialing { return false; }
      var end := now + DAY * (if days.Some? then days.value else plan.value.trialDays);
      var before := subs;
      if existing.Some? {
        subs := subs[existing.value := subs[existing.value].(status := Canceled, canceledAt := Some(now))];
      }
      ok := CreateSubscription(org, plan.value, Trialing, now, Some(end), Some(end), None, None);
      if !ok { subs := before; }
    }

    method SwitchPlan(org: int, plan: Option<Plan>, provider: Option<string>, ref: Option<string>, keep: bool, now: int) returns (ok: bool)
      requires Constraints(subs)
      modifies this
      ensures Constraints(subs) && subs == Next(old(subs), ChangeCmd(org, plan, provider, ref, keep, now))
      ensures ok == Do(old(subs), ChangeCmd(org, plan, provider, ref, keep, now)).Done?
    {
      StepFollowsTheTable(subs, ChangeCmd(org, plan, provider, ref, keep, now));
      if plan.None? { return false; }
      var existing := FindCurrent(subs, org);
      if existing.None? {
        ok := CreateSubscription(org, plan.value, Active, now, None, None, provider, ref);
        return;
      }
      var before := subs;
      var sub := subs[existing.value];
      if sub.status != Active { sub := sub.(status := Active); }
      sub := sub.(plan := plan.value.key);
      var live := sub.status == Active && sub.end > now;
      if !(keep && live) { sub := sub.(start := now, end := now + IntervalOf(plan.value)); }
      sub := sub.(cancelAtEnd := false, canceledAt := None);
      if provider.Some? { sub := sub.(provider := provider); }
      if ref.Some? { sub := sub.(ref := ref); }
      subs := subs[existing.value := sub];
      ok := Constraints(subs);
      if !ok { subs := before; }
    }

    method CancelSubscription(org: int, atEnd: bool, now: int) returns (ok: bool)
      requires Constraints(subs)
      modifies this
      ensures Constraints(subs) && subs == Next(old(subs), CancelCmd(org, atEnd, now))
      ensures ok <==> Current(old(subs), org).Some?
    {
      StepFollowsTheTable(subs, CancelCmd(org, atEnd, now));
      var current := FindCurrent(subs, org);
      if current.None? { return false; }
      var i := current.value;
      if !CanTransition(subs[i].status, Canceled) { return false; }
      if atEnd {
        subs := subs[i := subs[i].(cancelAtEnd := true)];
      } else {
        subs := subs[i := subs[i].(status := Canceled, canceledAt := Some(now))];
      }
      ok := true;
    }

    method ResumeSubscription(org: int) returns (ok: bool)
      requires Constraints(subs)
      modifies this
      ensures Constraints(subs) && subs == Next(old(subs), ResumeCmd(org))
      ensures ok == Do(old(subs), ResumeCmd(org)).Done?
    {
      StepFollowsTheTable(subs, ResumeCmd(org));
      var current := FindCurrent(subs, org);
      if current.None? || !subs[current.value].cancelAtEnd { return false; }
      subs := subs[current.value := subs[current.value].(cancelAtEnd := false)];
      ok := true;
    }

    method ApplyProviderTransition(org: int, target: Status, end: Option<int>) returns (ok: bool)
      requires Constraints(subs)
      modifies this
      ensures Constraints(subs) && subs == Next(old(subs), ProviderCmd(org, target, end))
      ensures ok == Do(old(subs), ProviderCmd(org, target, end)).Done?
    {
      StepFollowsTheTable(subs, ProviderCmd(org, target, end));
      var current := FindCurrent(subs, org);
      if current.None? { return true; }
      var i := current.value;
      if !CanTransition(subs[i].status, target) { return false; }
      subs := subs[i := subs[i].(status := target)];
      if end.Some? { subs := subs[i := subs[i].(end := end.value)]; }
      ok := true;
    }
  }
}
