/** Entitlement resolution: a plan and a list of grants in, the effective features and limits out. */
module Resolver {
  import opened Wrappers

  datatype Overage = Overage(unit: int, priceCents: int)

  datatype Limit = Limit(value: Option<int>, softRatio: Option<real>, overage: Option<Overage>)

  datatype Grant = Grant(
    featureKey: string, source: string, enabled: bool,
    startsAt: int, endsAt: Option<int>, revokedAt: Option<int>, limitValue: Option<int>)

  datatype Inputs = Inputs(
    now: int, planKey: Option<string>, status: Option<string>,
    planFeatures: set<string>, planLimits: map<string, Limit>,
    grants: seq<Grant>, metricOverage: map<string, Overage>, graceOnPastDue: bool)

  datatype Effective = Effective(
    planKey: Option<string>, status: Option<string>, features: set<string>, limits: map<string, Limit>)

  const LIMIT_PREFIX := "limit:"

  function Priority(source: string): int {
    if source == "addon" then 10
    else if source == "beta" then 20
    else if source == "promo" then 30
    else if source == "grandfather" then 40
    else if source == "override" then 50
    else if source == "enterprise" then 60
    else 0
  }

  // ---------------------------------------------------------------- the declared rule

  predicate PlanActive(x: Inputs) {
    x.status.Some? && (x.status.value in {"trialing", "active"} || (x.graceOnPastDue && x.status.value == "past_due"))
  }

  predicate Active(g: Grant, now: int) {
    g.revokedAt.None? && g.startsAt <= now && (g.endsAt.None? || now < g.endsAt.value)
  }

  predicate IsLimit(g: Grant) {
    LIMIT_PREFIX <= g.featureKey
  }

  /** Grant `g` has a say on feature `f`. */
  predicate Speaks(x: Inputs, g: Grant, f: string) {
    Active(g, x.now) && !IsLimit(g) && g.featureKey == f
  }

  predicate PlanSpeaks(x: Inputs, f: string) {
    PlanActive(x) && f in x.planFeatures
  }

  /** Grant `i` is the earliest of the highest priority among the plan and the first `n` grants. */
  ghost predicate Wins(x: Inputs, f: string, n: nat, i: nat)
    requires n <= |x.grants|
  {
    && i < n && Speaks(x, x.grants[i], f)
    && (PlanSpeaks(x, f) ==> Priority(x.grants[i].source) > 0)
    && forall j | 0 <= j < n && Speaks(x, x.grants[j], f) ::
         Priority(x.grants[j].source) < Priority(x.grants[i].source) || (Priority(x.grants[j].source) == Priority(x.grants[i].source) && i <= j)
  }

  ghost predicate PlanWins(x: Inputs, f: string, n: nat)
    requires n <= |x.grants|
  {
    PlanSpeaks(x, f) && forall j | 0 <= j < n && Speaks(x, x.grants[j], f) :: Priority(x.grants[j].source) <= 0
  }

  /** A feature is on iff its winner enables it. */
  ghost predicate On(x: Inputs, f: string, n: nat)
    requires n <= |x.grants|
  {
    PlanWins(x, f, n) || exists i: nat :: Wins(x, f, n, i) && x.grants[i].enabled
  }

  /** Grant `g` has a say on the limit of `metric`. */
  predicate Caps(x: Inputs, g: Grant, metric: string) {
    Active(g, x.now) && g.enabled && g.featureKey == LIMIT_PREFIX + metric
  }

  function Base(x: Inputs, metric: string): Limit {
    if PlanActive(x) && metric in x.planLimits then x.planLimits[metric] else Limit(None, None, None)
  }

  ghost predicate Capped(x: Inputs, metric: string, n: nat)
    requires n <= |x.grants|
  {
    exists i :: 0 <= i < n && Caps(x, x.grants[i], metric)
  }

  /** `v` is the last non-null value the first `n` grants give `metric`, the plan's cap without one. */
  ghost predicate LastCap(x: Inputs, metric: string, n: nat, v: Option<int>)
    requires n <= |x.grants|
  {
    || (exists i :: && 0 <= i < n && Caps(x, x.grants[i], metric) && x.grants[i].limitValue.Some? && v == x.grants[i].limitValue
                    && forall j | i < j < n && Caps(x, x.grants[j], metric) :: x.grants[j].limitValue.None?)
    || (v == Base(x, metric).value && forall j | 0 <= j < n && Caps(x, x.grants[j], metric) :: x.grants[j].limitValue.None?)
  }

  /** `metric` is limited iff the plan or a grant limits it, to the last cap, at the plan's soft ratio
      and priced by the plan, or by the metric's default when only a grant limits it. */
  ghost predicate LimitOk(x: Inputs, n: nat, limits: map<string, Limit>, m: string)
    requires n <= |x.grants|
  {
    && (m in limits <==> (PlanActive(x) && m in x.planLimits) || Capped(x, m, n))
    && (m in limits ==>
          && LastCap(x, m, n, limits[m].value)
          && limits[m].softRatio == Base(x, m).softRatio
          && limits[m].overage == if Base(x, m).overage.Some? || !Capped(x, m, n) then Base(x, m).overage
                                  else if m in x.metricOverage then Some(x.metricOverage[m]) else None)
  }

  ghost predicate LimitsOk(x: Inputs, n: nat, limits: map<string, Limit>)
    requires n <= |x.grants|
  {
    forall m: string :: LimitOk(x, n, limits, m)
  }

  // ---------------------------------------------------------------- the fold

  function Decision(decisions: map<string, (int, bool)>, f: string): Option<(int, bool)> {
    if f in decisions then Some(decisions[f]) else None
  }

  /** The decision on `f` after `n` grants is its winner's, or none when nobody spoke. */
  ghost predicate DecisionOk(x: Inputs, f: string, n: nat, d: Option<(int, bool)>)
    requires n <= |x.grants|
  {
    match d
    case None => !PlanSpeaks(x, f) && forall j | 0 <= j < n :: !Speaks(x, x.grants[j], f)
    case Some(v) =>
      || (PlanWins(x, f, n) && v == (0, true))
      || (exists i: nat :: Wins(x, f, n, i) && v == (Priority(x.grants[i].source), x.grants[i].enabled))
  }

  ghost predicate DecisionsOk(x: Inputs, n: nat, decisions: map<string, (int, bool)>)
    requires n <= |x.grants|
  {
    forall f :: DecisionOk(x, f, n, Decision(decisions, f))
  }

  function PlanDecisions(x: Inputs): (r: map<string, (int, bool)>)
    ensures DecisionsOk(x, 0, r)
  {
    if PlanActive(x) then map f | f in x.planFeatures :: (0, true) else map[]
  }

  /** One grant laid over the decisions: it takes a feature nobody decided or outranks the decision. */
  function Overlay(x: Inputs, decisions: map<string, (int, bool)>, g: Grant): map<string, (int, bool)> {
    if Active(g, x.now) && !IsLimit(g) && (g.featureKey !in decisions || Priority(g.source) > decisions[g.featureKey].0)
    then decisions[g.featureKey := (Priority(g.source), g.enabled)]
    else decisions
  }

  function PlanCaps(x: Inputs): (r: map<string, Limit>)
    ensures LimitsOk(x, 0, r)
  {
    if PlanActive(x) then x.planLimits else map[]
  }

  function Recap(x: Inputs, limits: map<string, Limit>, g: Grant): map<string, Limit> {
    if !(Active(g, x.now) && IsLimit(g) && g.enabled) then limits
    else
      var metric := g.featureKey[|LIMIT_PREFIX|..];
      var base := if metric in limits then limits[metric] else Limit(None, None, None);
      limits[metric := Limit(
        if g.limitValue.Some? then g.limitValue else base.value,
        base.softRatio,
        if base.overage.Some? then base.overage else if metric in x.metricOverage then Some(x.metricOverage[metric]) else None)]
  }

  /** The fold as a value: what a resolution returns. */
  function Decisions(x: Inputs, n: nat): map<string, (int, bool)>
    requires n <= |x.grants|
  {
    if n == 0 then PlanDecisions(x) else Overlay(x, Decisions(x, n - 1), x.grants[n - 1])
  }

  function LimitsAfter(x: Inputs, n: nat): map<string, Limit>
    requires n <= |x.grants|
  {
    if n == 0 then PlanCaps(x) else Recap(x, LimitsAfter(x, n - 1), x.grants[n - 1])
  }

  function Resolved(x: Inputs): Effective {
    var decisions := Decisions(x, |x.grants|);
    Effective(x.planKey, x.status, (set f | f in decisions && decisions[f].1), LimitsAfter(x, |x.grants|))
  }

  /** The fold meets the declared rule. */
  lemma {:induction false} FoldMeetsRule(x: Inputs, n: nat)
    requires n <= |x.grants|
    ensures DecisionsOk(x, n, Decisions(x, n)) && LimitsOk(x, n, LimitsAfter(x, n))
  {
    if n > 0 {
      FoldMeetsRule(x, n - 1);
      DecisionStep(x, n - 1, Decisions(x, n - 1));
      LimitStep(x, n - 1, LimitsAfter(x, n - 1));
    }
  }

  lemma ResolvedMeetsRule(x: Inputs)
    ensures forall f :: f in Resolved(x).features <==> On(x, f, |x.grants|)
    ensures LimitsOk(x, |x.grants|, Resolved(x).limits)
  {
    FoldMeetsRule(x, |x.grants|);
    DecisionsAreOn(x, Decisions(x, |x.grants|), Resolved(x).features);
  }

  method Resolve(x: Inputs) returns (e: Effective)
    ensures forall f :: f in e.features <==> On(x, f, |x.grants|)
    ensures LimitsOk(x, |x.grants|, e.limits)
    ensures e == Resolved(x)
  {
    var features := ResolveFeatures(x);
    var limits := ResolveLimits(x);
    e := Effective(x.planKey, x.status, features, limits);
    ResolvedMeetsRule(x);
  }

  /** The plan's features, then the grants overlaid by priority. */
  method ResolveFeatures(x: Inputs) returns (features: set<string>)
    ensures features == Resolved(x).features
  {
    var decisions := PlanDecisions(x);
    var n := 0;
    while n < |x.grants|
      invariant 0 <= n <= |x.grants|
      invariant decisions == Decisions(x, n)
    {
      decisions := Overlay(x, decisions, x.grants[n]);
      n := n + 1;
    }
    features := set f | f in decisions && decisions[f].1;
  }

  /** The plan's limits, then the `limit:<metric>` grants in order. */
  method ResolveLimits(x: Inputs) returns (limits: map<string, Limit>)
    ensures limits == Resolved(x).limits
  {
    limits := PlanCaps(x);
    var n := 0;
    while n < |x.grants|
      invariant 0 <= n <= |x.grants|
      invariant limits == LimitsAfter(x, n)
    {
      limits := Recap(x, limits, x.grants[n]);
      n := n + 1;
    }
  }

  lemma DecisionStep(x: Inputs, n: nat, before: map<string, (int, bool)>)
    requires n < |x.grants| && DecisionsOk(x, n, before)
    ensures DecisionsOk(x, n + 1, Overlay(x, before, x.grants[n]))
  {
    forall f ensures DecisionOk(x, f, n + 1, Decision(Overlay(x, before, x.grants[n]), f)) {
      assert DecisionOk(x, f, n, Decision(before, f));
      OneDecisionStep(x, f, n, Decision(before, f));
    }
  }

  lemma OneDecisionStep(x: Inputs, f: string, n: nat, d: Option<(int, bool)>)
    requires n < |x.grants| && DecisionOk(x, f, n, d)
    ensures var p := Priority(x.grants[n].source);
            DecisionOk(x, f, n + 1, if Speaks(x, x.grants[n], f) && (d.None? || p > d.value.0) then Some((p, x.grants[n].enabled)) else d)
  {
    if Speaks(x, x.grants[n], f) && (d.None? || Priority(x.grants[n].source) > d.value.0) {
      assert Wins(x, f, n + 1, n);
    } else if d.Some? && !PlanWins(x, f, n) {
      var i: nat :| Wins(x, f, n, i) && d.value == (Priority(x.grants[i].source), x.grants[i].enabled);
      assert Wins(x, f, n + 1, i);
    }
  }

  lemma DecisionsAreOn(x: Inputs, decisions: map<string, (int, bool)>, features: set<string>)
    requires DecisionsOk(x, |x.grants|, decisions) && features == set f | f in decisions && decisions[f].1
    ensures forall f :: f in features <==> On(x, f, |x.grants|)
  {
    forall f ensures f in features <==> On(x, f, |x.grants|) {
      assert DecisionOk(x, f, |x.grants|, Decision(decisions, f));
      if i: nat :| Wins(x, f, |x.grants|, i) {
        forall j: nat { OnlyOneWins(x, f, |x.grants|, i, j); }
      }
    }
  }

  lemma LimitStep(x: Inputs, n: nat, before: map<string, Limit>)
    requires n < |x.grants| && LimitsOk(x, n, before)
    ensures LimitsOk(x, n + 1, Recap(x, before, x.grants[n]))
  {
    var n1, after := n + 1, Recap(x, before, x.grants[n]);
    forall m: string ensures LimitOk(x, n1, after, m) {
      assert LimitOk(x, n, before, m);
      OneLimitStep(x, n, before, m);
    }
  }

  lemma OneLimitStep(x: Inputs, n: nat, before: map<string, Limit>, m: string)
    requires n < |x.grants| && LimitOk(x, n, before, m)
    ensures LimitOk(x, n + 1, Recap(x, before, x.grants[n]), m)
  {
    var g := x.grants[n];
    assert (LIMIT_PREFIX + m)[|LIMIT_PREFIX|..] == m;
    assert Caps(x, g, m) <==> Active(g, x.now) && IsLimit(g) && g.enabled && g.featureKey[|LIMIT_PREFIX|..] == m;
    assert Capped(x, m, n + 1) <==> Capped(x, m, n) || Caps(x, g, m);
    if m in before { CapStep(x, m, n, before[m].value); } else { CapStep(x, m, n, None); }
  }

  lemma CapStep(x: Inputs, m: string, n: nat, v: Option<int>)
    requires n < |x.grants| && (LastCap(x, m, n, v) || (v == Base(x, m).value && !Capped(x, m, n)))
    ensures LastCap(x, m, n + 1, if Caps(x, x.grants[n], m) && x.grants[n].limitValue.Some? then x.grants[n].limitValue else v)
  {
  }

  // ---------------------------------------------------------------- consequences

  function Source(x: Inputs, f: string, n: nat): Option<nat>
    requires n <= |x.grants|
  {
    if n == 0 then None
    else
      var best := Source(x, f, n - 1);
      var g := x.grants[n - 1];
      if Speaks(x, g, f) && (if best.Some? && best.value < |x.grants| then Priority(g.source) > Priority(x.grants[best.value].source)
                             else PlanSpeaks(x, f) ==> Priority(g.source) > 0)
      then Some(n - 1) else best
  }

  /** There is always exactly one decision: some grant wins, or the plan does, or nobody speaks. */
  lemma {:induction false} SomeoneWins(x: Inputs, f: string, n: nat)
    requires n <= |x.grants|
    ensures Source(x, f, n).Some? ==> Wins(x, f, n, Source(x, f, n).value)
    ensures Source(x, f, n).None? ==> PlanWins(x, f, n) || (!PlanSpeaks(x, f) && forall j | 0 <= j < n :: !Speaks(x, x.grants[j], f))
  {
    if n > 0 { SomeoneWins(x, f, n - 1); }
  }

  lemma OnlyOneWins(x: Inputs, f: string, n: nat, i: nat, j: nat)
    requires n <= |x.grants| && Wins(x, f, n, i)
    ensures Wins(x, f, n, j) ==> i == j
    ensures !PlanWins(x, f, n)
  {
  }

  function Inserted(x: Inputs, at: nat, g: Grant): Inputs
    requires at <= |x.grants|
  {
    x.(grants := x.grants[..at] + [g] + x.grants[at..])
  }

  /** Where the grant at `j` stands after an insertion at `at`. */
  function Shifted(at: nat, j: nat): nat { if j < at then j else j + 1 }

  lemma InsertedShifts(x: Inputs, at: nat, g: Grant)
    requires at <= |x.grants|
    ensures |Inserted(x, at, g).grants| == |x.grants| + 1 && Inserted(x, at, g).grants[at] == g
    ensures forall j: nat | j < |x.grants| :: Inserted(x, at, g).grants[Shifted(at, j)] == x.grants[j]
  {
  }

  /** A winner other than the inserted grant was the winner before. */
  lemma WinnerWasThere(x: Inputs, at: nat, g: Grant, f: string, i: nat)
    requires at <= |x.grants| && i < |x.grants| && Wins(Inserted(x, at, g), f, |x.grants| + 1, Shifted(at, i))
    ensures Wins(x, f, |x.grants|, i)
  {
    InsertedShifts(x, at, g);
    forall j: nat | j < |x.grants| && Speaks(x, x.grants[j], f)
      ensures Priority(x.grants[j].source) < Priority(x.grants[i].source) || (Priority(x.grants[j].source) == Priority(x.grants[i].source) && i <= j)
    {
      assert Speaks(Inserted(x, at, g), Inserted(x, at, g).grants[Shifted(at, j)], f);
    }
  }

  lemma NobodySpokeBefore(x: Inputs, at: nat, g: Grant, f: string)
    requires at <= |x.grants|
    requires forall j | 0 <= j < |x.grants| + 1 :: !Speaks(Inserted(x, at, g), Inserted(x, at, g).grants[j], f)
    ensures forall j: nat | j < |x.grants| :: !Speaks(x, x.grants[j], f)
  {
    InsertedShifts(x, at, g);
    forall j: nat | j < |x.grants| ensures !Speaks(x, x.grants[j], f) {
      assert Inserted(x, at, g).grants[Shifted(at, j)] == x.grants[j];
    }
  }

  /** Adding an enabled grant anywhere in the list never removes a feature. */
  lemma EnabledGrantNeverRemoves(x: Inputs, at: nat, g: Grant, f: string)
    requires at <= |x.grants| && g.enabled && On(x, f, |x.grants|)
    ensures On(Inserted(x, at, g), f, |x.grants| + 1)
  {
    var y := Inserted(x, at, g);
    InsertedShifts(x, at, g);
    SomeoneWins(y, f, |y.grants|);
    if Source(y, f, |y.grants|).Some? {
      var w := Source(y, f, |y.grants|).value;
      if w != at { SameWinner(x, at, g, f, w); }
    } else if !PlanWins(y, f, |y.grants|) {
      NobodySpokeBefore(x, at, g, f);
    }
  }

  lemma SameWinner(x: Inputs, at: nat, g: Grant, f: string, w: nat)
    requires at <= |x.grants| && On(x, f, |x.grants|) && Wins(Inserted(x, at, g), f, |x.grants| + 1, w) && w != at
    ensures Inserted(x, at, g).grants[w].enabled
  {
    var i := if w < at then w else w - 1;
    assert Shifted(at, i) == w;
    InsertedShifts(x, at, g);
    WinnerWasThere(x, at, g, f, i);
    forall j: nat { OnlyOneWins(x, f, |x.grants|, i, j); }
  }

  // ---------------------------------------------------------------- the order of the grants

  /** Grant `g` speaks for `f` above the plan, and nobody who speaks outranks it. */
  ghost predicate AtTop(x: Inputs, f: string, g: Grant) {
    && g in x.grants && Speaks(x, g, f) && (PlanSpeaks(x, f) ==> Priority(g.source) > 0)
    && forall h | h in x.grants && Speaks(x, h, f) :: Priority(h.source) <= Priority(g.source)
  }

  /** Two grants at the top disagree. */
  ghost predicate Tied(x: Inputs, f: string) {
    exists g, h :: AtTop(x, f, g) && AtTop(x, f, h) && g.enabled != h.enabled
  }

  /** Whatever the order, a winner is at the top, and without anyone at the top the plan decides. */
  lemma WinnerIsAtTop(x: Inputs, f: string)
    ensures forall i: nat | Wins(x, f, |x.grants|, i) :: AtTop(x, f, x.grants[i])
    ensures (exists g :: AtTop(x, f, g)) ==> !PlanWins(x, f, |x.grants|) && exists i: nat :: Wins(x, f, |x.grants|, i)
    ensures !(exists g :: AtTop(x, f, g)) ==> (On(x, f, |x.grants|) <==> PlanSpeaks(x, f))
  {
    SomeoneWins(x, f, |x.grants|);
  }

  lemma TopDecides(x: Inputs, f: string, g: Grant)
    requires AtTop(x, f, g) && !Tied(x, f)
    ensures On(x, f, |x.grants|) <==> g.enabled
  {
    WinnerIsAtTop(x, f);
    var i: nat :| Wins(x, f, |x.grants|, i);
    assert AtTop(x, f, x.grants[i]);
  }

  lemma SameMembers(a: seq<Grant>, b: seq<Grant>)
    requires multiset(a) == multiset(b)
    ensures forall g :: g in a <==> g in b
  {
    forall g ensures g in a <==> g in b {
      assert g in a <==> g in multiset(a);
      assert g in b <==> g in multiset(b);
    }
  }

  /** Being at the top does not depend on the order. */
  lemma TopIsOrderless(x: Inputs, grants: seq<Grant>, f: string)
    requires multiset(grants) == multiset(x.grants)
    ensures forall g :: AtTop(x.(grants := grants), f, g) <==> AtTop(x, f, g)
    ensures Tied(x.(grants := grants), f) <==> Tied(x, f)
  {
    SameMembers(grants, x.grants);
    var y := x.(grants := grants);
    forall g ensures AtTop(y, f, g) <==> AtTop(x, f, g) {}
    if g, h :| AtTop(x, f, g) && AtTop(x, f, h) && g.enabled != h.enabled { assert AtTop(y, f, g) && AtTop(y, f, h); }
  }

  /** Without a tie at the top the grants may be listed in any order. */
  lemma OrderIrrelevant(x: Inputs, grants: seq<Grant>, f: string)
    requires multiset(grants) == multiset(x.grants) && !Tied(x, f)
    ensures On(x, f, |x.grants|) <==> On(x.(grants := grants), f, |grants|)
  {
    var y := x.(grants := grants);
    TopIsOrderless(x, grants, f);
    if g :| AtTop(x, f, g) {
      TopDecides(x, f, g);
      TopDecides(y, f, g);
    } else {
      WinnerIsAtTop(x, f);
      WinnerIsAtTop(y, f);
    }
  }

  lemma Split(grants: seq<Grant>, i: nat)
    requires i < |grants|
    ensures grants == grants[..i] + [grants[i]] + grants[i + 1..]
  {
  }

  /** Moved to the front, a grant at the top decides. */
  lemma FrontDecides(x: Inputs, f: string, g: Grant) returns (grants: seq<Grant>)
    requires AtTop(x, f, g)
    ensures multiset(grants) == multiset(x.grants)
    ensures On(x.(grants := grants), f, |grants|) <==> g.enabled
  {
    var i :| 0 <= i < |x.grants| && x.grants[i] == g;
    grants := [g] + x.grants[..i] + x.grants[i + 1..];
    Split(x.grants, i);
    assert multiset(grants) == multiset(x.grants[..i]) + multiset([g]) + multiset(x.grants[i + 1..]);
    SameMembers(grants, x.grants);
    var y := x.(grants := grants);
    forall j | 0 <= j < |grants| && Speaks(y, grants[j], f) ensures Priority(grants[j].source) <= Priority(g.source) {
      assert grants[j] in x.grants;
    }
    assert Wins(y, f, |grants|, 0);
    forall j: nat { OnlyOneWins(y, f, |grants|, 0, j); }
  }

  /** The feature is decided the same way in every order of the grants exactly when no two grants at
      the top disagree. */
  lemma OrderIrrelevantIff(x: Inputs, f: string)
    ensures (forall gs | multiset(gs) == multiset(x.grants) :: On(x, f, |x.grants|) <==> On(x.(grants := gs), f, |gs|)) <==> !Tied(x, f)
  {
    if g, h :| AtTop(x, f, g) && AtTop(x, f, h) && g.enabled != h.enabled {
      var first := FrontDecides(x, f, g);
      var second := FrontDecides(x, f, h);
      assert On(x.(grants := first), f, |first|) != On(x.(grants := second), f, |second|);
    } else {
      forall gs | multiset(gs) == multiset(x.grants) ensures On(x, f, |x.grants|) <==> On(x.(grants := gs), f, |gs|) {
        OrderIrrelevant(x, gs, f);
      }
    }
  }

  /** An instance: two promotions, one on and one off. The first one decides. */
  lemma OrderMattersOnTies()
    ensures var on := Grant("sso", "promo", true, 0, None, None, None);
            var off := on.(enabled := false);
            var x := Inputs(0, None, None, {}, map[], [on, off], map[], true);
            Tied(x, "sso") && On(x, "sso", 2) && !On(x.(grants := [off, on]), "sso", 2)
  {
    var on := Grant("sso", "promo", true, 0, None, None, None);
    var off := on.(enabled := false);
    var x := Inputs(0, None, None, {}, map[], [on, off], map[], true);
    var y := x.(grants := [off, on]);
    assert !IsLimit(on) && !IsLimit(off) by { assert LIMIT_PREFIX[0] != on.featureKey[0]; }
    assert x.grants[0] == on && x.grants[1] == off;
    assert AtTop(x, "sso", on) && AtTop(x, "sso", off);
    assert Wins(x, "sso", 2, 0) && Wins(y, "sso", 2, 0);
    forall i: nat { OnlyOneWins(y, "sso", 2, 0, i); }
  }

  function LimitOf(e: Effective, m: string): Option<Limit> {
    if m in e.limits then Some(e.limits[m]) else None
  }

  /** Grant `g` sets a cap on `metric`. */
  predicate SetsCap(x: Inputs, g: Grant, metric: string) {
    g in x.grants && Caps(x, g, metric) && g.limitValue.Some?
  }

  ghost predicate CapsDiffer(x: Inputs, m: string) {
    exists g, h :: SetsCap(x, g, m) && SetsCap(x, h, m) && g.limitValue != h.limitValue
  }

  /** When the caps agree, the value of a limit is the cap, or the plan's without one. */
  lemma AgreedCap(x: Inputs, m: string, v: Option<int>)
    requires LastCap(x, m, |x.grants|, v) && !CapsDiffer(x, m)
    ensures forall g | SetsCap(x, g, m) :: v == g.limitValue
    ensures (forall g :: !SetsCap(x, g, m)) ==> v == Base(x, m).value
  {
    if i :| && 0 <= i < |x.grants| && Caps(x, x.grants[i], m) && x.grants[i].limitValue.Some? && v == x.grants[i].limitValue
            && forall j | i < j < |x.grants| && Caps(x, x.grants[j], m) :: x.grants[j].limitValue.None?
    {
      assert SetsCap(x, x.grants[i], m);
    }
  }

  /** Moved to the end, a grant that sets a cap sets the limit. */
  lemma EndDecides(x: Inputs, m: string, g: Grant) returns (grants: seq<Grant>)
    requires SetsCap(x, g, m)
    ensures multiset(grants) == multiset(x.grants)
    ensures LimitOf(Resolved(x.(grants := grants)), m).Some? && LimitOf(Resolved(x.(grants := grants)), m).value.value == g.limitValue
  {
    var i :| 0 <= i < |x.grants| && x.grants[i] == g;
    grants := x.grants[..i] + x.grants[i + 1..] + [g];
    Split(x.grants, i);
    assert multiset(grants) == multiset(x.grants[..i]) + multiset([g]) + multiset(x.grants[i + 1..]);
    var y := x.(grants := grants);
    ResolvedMeetsRule(y);
    assert LimitOk(y, |grants|, Resolved(y).limits, m);
    assert Caps(y, grants[|grants| - 1], m);
  }

  lemma LimitIsOrderless(x: Inputs, grants: seq<Grant>, m: string)
    requires multiset(grants) == multiset(x.grants) && !CapsDiffer(x, m)
    ensures LimitOf(Resolved(x.(grants := grants)), m) == LimitOf(Resolved(x), m)
  {
    var y := x.(grants := grants);
    SameMembers(grants, x.grants);
    ResolvedMeetsRule(x);
    ResolvedMeetsRule(y);
    assert LimitOk(x, |x.grants|, Resolved(x).limits, m) && LimitOk(y, |grants|, Resolved(y).limits, m);
    SameCaps(x, y, m);
    SameCaps(y, x, m);
    assert forall g :: SetsCap(y, g, m) <==> SetsCap(x, g, m);
    if m in Resolved(x).limits {
      AgreedCap(x, m, Resolved(x).limits[m].value);
      AgreedCap(y, m, Resolved(y).limits[m].value);
    }
  }

  lemma SameCaps(x: Inputs, y: Inputs, m: string)
    requires y == x.(grants := y.grants) && forall g :: g in x.grants <==> g in y.grants
    ensures Capped(x, m, |x.grants|) ==> Capped(y, m, |y.grants|)
  {
    if i :| 0 <= i < |x.grants| && Caps(x, x.grants[i], m) { assert x.grants[i] in y.grants; }
  }

  /** A limit is the same in every order of the grants exactly when all the caps set on it are equal. */
  lemma LimitOrderIff(x: Inputs, m: string)
    ensures (forall gs | multiset(gs) == multiset(x.grants) :: LimitOf(Resolved(x.(grants := gs)), m) == LimitOf(Resolved(x), m)) <==> !CapsDiffer(x, m)
  {
    if g, h :| SetsCap(x, g, m) && SetsCap(x, h, m) && g.limitValue != h.limitValue {
      var first := EndDecides(x, m, g);
      var second := EndDecides(x, m, h);
      assert LimitOf(Resolved(x.(grants := first)), m) != LimitOf(Resolved(x.(grants := second)), m);
    } else {
      forall gs | multiset(gs) == multiset(x.grants) ensures LimitOf(Resolved(x.(grants := gs)), m) == LimitOf(Resolved(x), m) {
        LimitIsOrderless(x, gs, m);
      }
    }
  }

  // ---------------------------------------------------------------- overage

  /** Billable blocks of `unit` and the amount; the ceiling is Python's negated floor division. */
  function Bill(o: Overage, unitsOver: int): (r: (int, int))
    requires o.unit >= 1
    ensures unitsOver > 0 ==> r.0 * o.unit >= unitsOver && (r.0 - 1) * o.unit < unitsOver
    ensures unitsOver <= 0 ==> r == (0, 0)
    ensures r.1 == r.0 * o.priceCents
  {
    if unitsOver <= 0 then (0, 0)
    else
      var quantity := -((-unitsOver) / o.unit);
      (quantity, quantity * o.priceCents)
  }
}
