/**
 The cached entitlements of an organization: what is computed from which rows, what a cached body
 decodes to, and how far the cache protocol covers it.
 */
module Entitlements {
  import opened Wrappers
  import opened CacheProtocol
  import opened CacheCoherence
  import opened CacheNecessity
  import R = Resolver

  // ---------------------------------------------------------------- what is computed

  datatype PlanRow = PlanRow(features: set<string>, limits: map<string, R.Limit>, archived: bool)

  /** Plan and metric rows, which no subscription or grant touches. */
  datatype Catalog = Catalog(plans: map<string, PlanRow>, metricOverage: map<string, R.Overage>)

  datatype Row = SubscriptionOf(org: string) | GrantsOf(org: string) | CatalogRows

  /** `Occupying` is an organization's occupying subscription, `Granted` its unrevoked grants. */
  datatype Val = Missing | Occupying(plan: string, status: string) | Granted(grants: seq<R.Grant>) | Plans(catalog: Catalog)

  datatype Settings = Settings(now: int, defaultPlan: string, grace: bool)

  function Get(rows: map<Row, Val>, r: Row): Val { if r in rows then rows[r] else Missing }

  /** The subscription's plan whatever its state, else the default plan if it is still offered. */
  function PlanKey(x: Settings, sub: Val, c: Catalog): Option<string> {
    if sub.Occupying? then Some(sub.plan)
    else if x.defaultPlan in c.plans && !c.plans[x.defaultPlan].archived then Some(x.defaultPlan)
    else None
  }

  /** The plans and metric prices the rows hold. */
  function CatalogIn(rows: map<Row, Val>): Catalog {
    match Get(rows, CatalogRows) case Plans(c) => c case _ => Catalog(map[], map[])
  }

  function InputsOf(x: Settings, org: string, rows: map<Row, Val>): R.Inputs {
    var sub := Get(rows, SubscriptionOf(org));
    var c := CatalogIn(rows);
    var key := PlanKey(x, sub, c);
    var plan := if key.Some? && key.value in c.plans then c.plans[key.value] else PlanRow({}, map[], false);
    R.Inputs(x.now, key, if sub.Occupying? then Some(sub.status) else None, plan.features, plan.limits,
             match Get(rows, GrantsOf(org)) case Granted(g) => g case _ => [], c.metricOverage, x.grace)
  }

  function Compute(x: Settings, org: string, rows: map<Row, Val>): R.Effective {
    R.Resolved(InputsOf(x, org, rows))
  }

  /** Without an occupying subscription the default plan is looked up and named, but none of its
      features or limits takes effect: the result is what the grants alone give. */
  lemma DefaultPlanIsInert(x: Settings, org: string, rows: map<Row, Val>)
    requires !Get(rows, SubscriptionOf(org)).Occupying?
    ensures var e, bare := Compute(x, org, rows), R.Resolved(InputsOf(x, org, rows).(planFeatures := {}, planLimits := map[]));
            e.features == bare.features && e.limits == bare.limits
  {
    PlanIgnored(InputsOf(x, org, rows), |InputsOf(x, org, rows).grants|);
  }

  /** Exactly when such an organization has a feature, of the default plan or not: a grant that wins it
      enables it. */
  lemma UnsubscribedHasIff(x: Settings, org: string, rows: map<Row, Val>, f: string)
    requires !Get(rows, SubscriptionOf(org)).Occupying?
    ensures var inputs := InputsOf(x, org, rows);
            f in Compute(x, org, rows).features <==> exists i: nat :: R.Wins(inputs, f, |inputs.grants|, i) && inputs.grants[i].enabled
  {
    R.ResolvedMeetsRule(InputsOf(x, org, rows));
  }

  /** So the fallback does not happen: the default plan is offered with a feature and named in the
      result, and the organization does not have the feature. */
  lemma NoFallback(x: Settings, org: string, f: string)
    ensures var c := Offering(x.defaultPlan, {f}); var e := Compute(x, org, map[CatalogRows := Plans(c)]);
            e.planKey == Some(x.defaultPlan) && f in c.plans[x.defaultPlan].features && e.features == {} && e.limits == map[]
  {
    var inputs := InputsOf(x, org, map[CatalogRows := Plans(Offering(x.defaultPlan, {f}))]);
    assert inputs.grants == [] && !R.PlanActive(inputs);
  }

  function Offering(plan: string, features: set<string>): Catalog { Catalog(map[plan := PlanRow(features, map[], false)], map[]) }

  lemma {:induction false} PlanIgnored(x: R.Inputs, n: nat)
    requires n <= |x.grants| && !R.PlanActive(x)
    ensures var y := x.(planFeatures := {}, planLimits := map[]);
            R.Decisions(x, n) == R.Decisions(y, n) && R.LimitsAfter(x, n) == R.LimitsAfter(y, n)
  {
    if n > 0 { PlanIgnored(x, n - 1); }
  }

  /** The organization's subscription makes its plan count. */
  predicate PlanCounts(x: Settings, org: string, rows: map<Row, Val>) {
    var sub := Get(rows, SubscriptionOf(org));
    sub.Occupying? && (sub.status in {"trialing", "active"} || (x.grace && sub.status == "past_due"))
  }

  /** Without grants an organization has exactly what its plan's rows list while its subscription counts,
      and nothing otherwise. */
  lemma PlanAlone(x: Settings, org: string, rows: map<Row, Val>, plan: string, status: string)
    requires Get(rows, SubscriptionOf(org)) == Occupying(plan, status) && Get(rows, GrantsOf(org)) in {Missing, Granted([])}
    ensures var plans := CatalogIn(rows).plans; var counts := plan in plans && PlanCounts(x, org, rows);
            Compute(x, org, rows) == R.Effective(Some(plan), Some(status), if counts then plans[plan].features else {},
                                                 if counts then plans[plan].limits else map[])
  {
    var inputs := InputsOf(x, org, rows);
    assert inputs.grants == [];
    assert R.Decisions(inputs, 0) == R.PlanDecisions(inputs) && R.LimitsAfter(inputs, 0) == R.PlanCaps(inputs);
    assert R.PlanActive(inputs) <==> PlanCounts(x, org, rows);
  }

  /** The plan in the rows gives the organization the feature. */
  predicate PlanGives(x: Settings, org: string, rows: map<Row, Val>, f: string) {
    && PlanCounts(x, org, rows)
    && var plan := Get(rows, SubscriptionOf(org)).plan; plan in CatalogIn(rows).plans && f in CatalogIn(rows).plans[plan].features
  }

  /** A grant row that is about the feature and in force now. */
  predicate InForce(x: Settings, g: R.Grant, f: string) {
    g.featureKey == f && !(R.LIMIT_PREFIX <= f) && g.revokedAt.None? && g.startsAt <= x.now && (g.endsAt.None? || x.now < g.endsAt.value)
  }

  /** Of an organization's grant rows, the earliest in force of the highest priority decides its feature
      when it outranks the plan, if that gives it. */
  lemma GrantDecides(x: Settings, org: string, rows: map<Row, Val>, grants: seq<R.Grant>, f: string, i: nat)
    requires Get(rows, GrantsOf(org)) == Granted(grants) && i < |grants| && InForce(x, grants[i], f)
    requires PlanGives(x, org, rows, f) ==> R.Priority(grants[i].source) > 0
    requires forall j | 0 <= j < |grants| && InForce(x, grants[j], f) ::
               R.Priority(grants[j].source) < R.Priority(grants[i].source) || (R.Priority(grants[j].source) == R.Priority(grants[i].source) && i <= j)
    ensures f in Compute(x, org, rows).features <==> grants[i].enabled
  {
    var inputs := InputsOf(x, org, rows);
    assert inputs.grants == grants;
    assert R.PlanSpeaks(inputs, f) <==> PlanGives(x, org, rows, f);
    assert forall g :: R.Speaks(inputs, g, f) <==> InForce(x, g, f);
    assert R.Wins(inputs, f, |grants|, i);
    R.ResolvedMeetsRule(inputs);
    forall j: nat { R.OnlyOneWins(inputs, f, |grants|, i, j); }
  }

  /** With no grant row in force about it, the plan alone decides a feature. */
  lemma PlanDecides(x: Settings, org: string, rows: map<Row, Val>, grants: seq<R.Grant>, f: string)
    requires Get(rows, GrantsOf(org)) == Granted(grants) && forall g | g in grants :: !InForce(x, g, f)
    ensures f in Compute(x, org, rows).features <==> PlanGives(x, org, rows, f)
  {
    var inputs := InputsOf(x, org, rows);
    assert inputs.grants == grants;
    assert R.PlanSpeaks(inputs, f) <==> PlanGives(x, org, rows, f);
    assert forall j | 0 <= j < |grants| :: !InForce(x, grants[j], f) && !R.Speaks(inputs, grants[j], f);
    R.ResolvedMeetsRule(inputs);
  }

  /** A grant row that caps the metric and is in force now. */
  predicate CapInForce(x: Settings, g: R.Grant, metric: string) {
    g.featureKey == "limit:" + metric && g.enabled && g.revokedAt.None? && g.startsAt <= x.now && (g.endsAt.None? || x.now < g.endsAt.value)
  }

  /** The last grant row in force that caps a metric sets its limit; the price of usage past it is the
      plan's, or the metric's own when the plan does not price it. */
  lemma GrantCaps(x: Settings, org: string, rows: map<Row, Val>, grants: seq<R.Grant>, m: string, i: nat)
    requires Get(rows, GrantsOf(org)) == Granted(grants) && i < |grants| && CapInForce(x, grants[i], m) && grants[i].limitValue.Some?
    requires forall j | i < j < |grants| && CapInForce(x, grants[j], m) :: grants[j].limitValue.None?
    ensures var limits, c := Compute(x, org, rows).limits, CatalogIn(rows); var sub := Get(rows, SubscriptionOf(org));
            var planned := PlanCounts(x, org, rows) && sub.plan in c.plans && m in c.plans[sub.plan].limits;
            && m in limits && limits[m].value == grants[i].limitValue
            && limits[m].softRatio == (if planned then c.plans[sub.plan].limits[m].softRatio else None)
            && limits[m].overage == (if planned && c.plans[sub.plan].limits[m].overage.Some? then c.plans[sub.plan].limits[m].overage
                                     else if m in c.metricOverage then Some(c.metricOverage[m]) else None)
  {
    var inputs := InputsOf(x, org, rows);
    assert inputs.grants == grants;
    assert R.PlanActive(inputs) <==> PlanCounts(x, org, rows);
    assert forall g :: R.Caps(inputs, g, m) <==> CapInForce(x, g, m);
    R.ResolvedMeetsRule(inputs);
    assert R.LimitOk(inputs, |grants|, R.Resolved(inputs).limits, m);
    assert R.Caps(inputs, inputs.grants[i], m);
  }

  // ---------------------------------------------------------------- the cached body

  datatype Json = JNull | JInt(n: int) | JReal(r: real) | JStr(s: string) | JList(items: seq<Json>) | JObj(fields: map<string, Json>)

  function OptStr(v: Option<string>): Json { if v.Some? then JStr(v.value) else JNull }

  function OptInt(v: Option<int>): Json { if v.Some? then JInt(v.value) else JNull }

  function EncodeLimit(l: R.Limit): Json {
    JObj(map["value" := OptInt(l.value),
             "soft_limit_ratio" := if l.softRatio.Some? then JReal(l.softRatio.value) else JNull,
             "overage" := if l.overage.Some? then JObj(map["unit" := JInt(l.overage.value.unit), "price_cents" := JInt(l.overage.value.priceCents)])
                          else JNull])
  }

  /** `features` lists the feature set in some order. */
  function Encode(org: string, e: R.Effective, features: seq<string>): Json {
    JObj(map["organization_id" := JStr(org), "plan_key" := OptStr(e.planKey), "subscription_status" := OptStr(e.status),
             "features" := JList(seq(|features|, i requires 0 <= i < |features| => JStr(features[i]))),
             "limits" := JObj(map m | m in e.limits :: EncodeLimit(e.limits[m]))])
  }

  function Field(j: Json, name: string): Option<Json> {
    if j.JObj? && name in j.fields then Some(j.fields[name]) else None
  }

  function AsStr(j: Option<Json>): Option<Option<string>> {
    match j
    case Some(JStr(s)) => Some(Some(s))
    case Some(JNull) => Some(None)
    case _ => None
  }

  function AsInt(j: Option<Json>): Option<Option<int>> {
    match j
    case Some(JInt(n)) => Some(Some(n))
    case Some(JNull) => Some(None)
    case _ => None
  }

  /** A missing or empty `overage` reads as none. */
  function DecodeOverage(j: Option<Json>): Option<Option<R.Overage>> {
    if j.None? || j.value.JNull? || j.value == JObj(map[]) then Some(None)
    else
      match (AsInt(Field(j.value, "unit")), AsInt(Field(j.value, "price_cents")))
      case (Some(Some(u)), Some(Some(p))) => Some(Some(R.Overage(u, p)))
      case _ => None
  }

  function DecodeLimit(j: Json): Option<R.Limit> {
    var ratio := match Field(j, "soft_limit_ratio") case Some(JReal(r)) => Some(r) case _ => None;
    match (AsInt(Field(j, "value")), DecodeOverage(Field(j, "overage")))
    case (Some(v), Some(o)) => Some(R.Limit(v, ratio, o))
    case _ => None
  }

  /** What a cached text reads as; `None` when it is corrupt, and then it is computed anew. */
  function Decode(j: Json): Option<(string, R.Effective)> {
    match (AsStr(Field(j, "organization_id")), AsStr(Field(j, "plan_key")), AsStr(Field(j, "subscription_status")), Field(j, "features"), Field(j, "limits"))
    case (Some(Some(org)), Some(plan), Some(status), Some(JList(items)), Some(JObj(limits))) =>
      if (forall i | 0 <= i < |items| :: items[i].JStr?) && (forall m | m in limits :: DecodeLimit(limits[m]).Some?)
      then Some((org, R.Effective(plan, status, set i | 0 <= i < |items| :: (if items[i].JStr? then items[i].s else ""),
                                  map m | m in limits :: (match DecodeLimit(limits[m]) case Some(l) => l case None => R.Limit(None, None, None)))))
      else None
    case _ => None
  }

  lemma LimitRoundTrip(l: R.Limit)
    ensures DecodeLimit(EncodeLimit(l)) == Some(l)
  {
    var j := EncodeLimit(l);
    assert Field(j, "value") == Some(OptInt(l.value));
    if l.overage.Some? {
      var o := Field(j, "overage").value;
      assert o != JObj(map[]) by { assert "unit" in o.fields; }
      assert Field(o, "unit") == Some(JInt(l.overage.value.unit)) && Field(o, "price_cents") == Some(JInt(l.overage.value.priceCents));
    }
  }

  /** A decoded hit is the body that was stored. */
  lemma RoundTrip(org: string, e: R.Effective, features: seq<string>)
    requires e.features == set f | f in features
    ensures Decode(Encode(org, e, features)) == Some((org, e))
  {
    var j := Encode(org, e, features);
    assert Field(j, "organization_id") == Some(JStr(org)) && Field(j, "plan_key") == Some(OptStr(e.planKey))
           && Field(j, "subscription_status") == Some(OptStr(e.status));
    var items := Field(j, "features").value.items;
    var limits := Field(j, "limits").value.fields;
    forall m | m in limits ensures DecodeLimit(limits[m]) == Some(e.limits[m]) { LimitRoundTrip(e.limits[m]); }
    assert e.limits == map m | m in limits :: (match DecodeLimit(limits[m]) case Some(l) => l case None => R.Limit(None, None, None));
    assert e.features == set i | 0 <= i < |items| :: (if items[i].JStr? then items[i].s else "") by {
      forall f | f in e.features ensures exists i :: 0 <= i < |items| && f == items[i].s {
        var i :| 0 <= i < |features| && features[i] == f;
        assert items[i] == JStr(f);
      }
    }
  }

  // ---------------------------------------------------------------- the cache protocol over it

  datatype Counter = OrgCounter(org: string)

  function Needs(org: string): set<Row> { {SubscriptionOf(org), GrantsOf(org), CatalogRows} }

  ghost function Entl(x: Settings): Discipline<Row, Val, string, Counter, R.Effective> {
    Discipline((org: string) => [OrgCounter(org)], Needs, Missing, (org: string, rows: map<Row, Val>) => Compute(x, org, rows), true)
  }

  /** The services bump an organization's counter for every subscription or grant they change. */
  ghost predicate BumpsOrgs(delta: map<Row, Val>, bumps: set<Counter>) {
    forall org | SubscriptionOf(org) in delta || GrantsOf(org) in delta :: OrgCounter(org) in bumps
  }

  /** What the services commit while the catalog stands still. */
  ghost function Services(habit: Habit): Policy<Row, Val, Counter> {
    Anywhere((delta: map<Row, Val>, bumps: set<Counter>) => BumpsOrgs(delta, bumps) && CatalogRows !in delta, habit)
  }

  /** What a catalog sync commits. */
  ghost function Syncs(habit: Habit): Policy<Row, Val, Counter> {
    Anywhere((delta: map<Row, Val>, bumps: set<Counter>) => delta.Keys == {CatalogRows} && bumps == {}, habit)
  }

  lemma ComputeReadsOnlyNeeds(x: Settings, org: string, rows: map<Row, Val>)
    ensures Compute(x, org, Snapshot(Entl(x), rows, org)) == Compute(x, org, rows)
  {
    var snap := Snapshot(Entl(x), rows, org);
    forall r | r in Needs(org) ensures Get(snap, r) == Get(rows, r) {
      assert snap[r] == RowIn(Entl(x), rows, r);
    }
  }

  lemma ServicesAreHeard(x: Settings, may: Policy<Row, Val, Counter>)
    requires forall rows, delta, bumps | may.commits(rows, delta, bumps) :: BumpsOrgs(delta, bumps) && CatalogRows !in delta
    ensures Heard(Entl(x), may)
  {
    var d := Entl(x);
    forall rows, delta, owes, org, r | may.commits(rows, delta, owes) && r in delta && Concerns(d, may.habit, org, rows, r) ensures Reaches(d, org, owes) {
      assert r in Needs(org);
      assert OrgCounter(org) in owes && d.scopes(org)[0] == OrgCounter(org);
    }
  }

  /** In every run of sessions that are not careless and no commit of which writes the catalog, a hit
      under the current version is what the committed rows give, once no session is open. */
  lemma EntitledHitIsFresh(
    x: Settings, habit: Habit, rows: map<Row, Val>, steps: seq<Step<Row, Val, string, Counter, R.Effective>>, org: string, token: seq<nat>)
    requires !habit.Careless? && Run(Entl(x), Services(habit), Initial(rows), steps)
    requires var s := After(Entl(x), Services(habit), Initial(rows), steps);
             (org, token) in s.store && Current(Entl(x), s, org, token) && s.writers == map[]
    ensures var s := After(Entl(x), Services(habit), Initial(rows), steps);
            |s.log| > 0 && s.store[(org, token)].body == Compute(x, org, s.log[|s.log| - 1])
  {
    var d, may := Entl(x), Services(habit);
    ServicesAreHeard(x, may);
    StoredBodyIsFresh(d, may, rows, steps, org, token);
    var s := After(d, may, Initial(rows), steps);
    ComputeReadsOnlyNeeds(x, org, s.log[|s.log| - 1]);
  }

  /** The exact condition: writers that bump the organizations whose rows they change, in sessions that
      are not careless, are coherent with the cache, over all runs, if and only if no commit of theirs
      writes the catalog. */
  lemma CoherentIffCatalogStands(x: Settings, writes: (map<Row, Val>, set<Counter>) -> bool, habit: Habit)
    requires !habit.Careless? && forall delta, bumps | writes(delta, bumps) :: BumpsOrgs(delta, bumps)
    ensures Coherent(Entl(x), Anywhere(writes, habit)) <==> forall delta, bumps | writes(delta, bumps) :: CatalogRows !in delta
  {
    var may := Anywhere(writes, habit);
    if forall delta, bumps | writes(delta, bumps) :: CatalogRows !in delta {
      ServicesAreHeard(x, may);
      HeardIsCoherent(Entl(x), may);
    }
    if Coherent(Entl(x), may) {
      forall delta, bumps | writes(delta, bumps) ensures CatalogRows !in delta {
        if CatalogRows in delta { CatalogWriteGoesUnnoticed(x, writes, habit, delta, bumps); }
      }
    }
  }

  /** However many organizations a commit of the catalog bumps, another one is left stale. */
  lemma CatalogWriteGoesUnnoticed(
    x: Settings, writes: (map<Row, Val>, set<Counter>) -> bool, habit: Habit, delta: map<Row, Val>, bumps: set<Counter>)
    requires writes(delta, bumps) && BumpsOrgs(delta, bumps) && CatalogRows in delta
    ensures exists rows, steps, org, token :: GoesStale(Entl(x), Anywhere(writes, habit), rows, steps, org, token)
  {
    var org := FreshName(set c | c in bumps :: c.org);
    var c := match delta[CatalogRows] case Plans(c) => c case _ => Catalog(map[], map[]);
    var f := FreshName(if "p" in c.plans then c.plans["p"].features else {});
    var rows: map<Row, Val> := map[SubscriptionOf(org) := Occupying("p", "active"), CatalogRows := Plans(Offering("p", {f}))];
    assert OrgCounter(org) !in bumps;
    assert SubscriptionOf(org) !in delta && GrantsOf(org) !in delta;
    OnPlan(x, org, "p", f, rows);
    OnPlan(x, org, "p", f, rows + delta);
    WriteGoesUnnoticed(x, writes, habit, org, rows, delta, bumps);
  }

  lemma WriteGoesUnnoticed(
    x: Settings, writes: (map<Row, Val>, set<Counter>) -> bool, habit: Habit, org: string, rows: map<Row, Val>, delta: map<Row, Val>, bumps: set<Counter>)
    requires writes(delta, bumps) && OrgCounter(org) !in bumps && Compute(x, org, rows + delta) != Compute(x, org, rows)
    ensures exists steps, token :: GoesStale(Entl(x), Anywhere(writes, habit), rows, steps, org, token)
  {
    AltersIff(x, org, rows, delta);
    assert !Reaches(Entl(x), org, bumps);
    SilentCommitGoesStale(Entl(x), Anywhere(writes, habit), org, rows, delta, bumps);
  }

  /** A catalog sync goes unnoticed: whatever the committed rows and the new catalog, if it changes what
      an organization is entitled to, a run exists after which a hit under the current version, with
      nothing owed, is still what the old catalog gave. */
  lemma CatalogSyncGoesUnnoticed(x: Settings, habit: Habit, org: string, rows: map<Row, Val>, c: Catalog)
    requires Compute(x, org, rows[CatalogRows := Plans(c)]) != Compute(x, org, rows)
    ensures exists steps, token ::
              && GoesStale(Entl(x), Syncs(habit), rows, steps, org, token)
              && After(Entl(x), Syncs(habit), Initial(rows), steps).store[(org, token)].body == Compute(x, org, rows)
              && Fresh(Entl(x), After(Entl(x), Syncs(habit), Initial(rows), steps), org) == Compute(x, org, rows[CatalogRows := Plans(c)])
  {
    var delta: map<Row, Val> := map[CatalogRows := Plans(c)];
    assert rows + delta == rows[CatalogRows := Plans(c)];
    assert Syncs(habit).commits(rows, delta, {});
    AltersIff(x, org, rows, delta);
    SilentCommitGoesStale(Entl(x), Syncs(habit), org, rows, delta, {});
  }

  /** A commit alters an organization's body when it changes what is computed for it. */
  lemma AltersIff(x: Settings, org: string, rows: map<Row, Val>, delta: map<Row, Val>)
    ensures Entl(x).compute(org, Snapshot(Entl(x), rows, org)) == Compute(x, org, rows)
    ensures Entl(x).compute(org, Snapshot(Entl(x), rows + delta, org)) == Compute(x, org, rows + delta)
    ensures Alters(Entl(x), org, rows, delta) <==> Compute(x, org, rows + delta) != Compute(x, org, rows)
    ensures !Reaches(Entl(x), org, {})
  {
    ComputeReadsOnlyNeeds(x, org, rows);
    ComputeReadsOnlyNeeds(x, org, rows + delta);
  }

  /** For every organization and plan: after a sync that takes a feature off the plan the organization
      is on, a hit still grants the feature although a fresh computation would not. */
  lemma RemovedFeatureIsStillGranted(x: Settings, habit: Habit, org: string, plan: string, feature: string)
    ensures exists rows, steps, token ::
              && Get(rows, SubscriptionOf(org)) == Occupying(plan, "active")
              && GoesStale(Entl(x), Syncs(habit), rows, steps, org, token)
              && feature in After(Entl(x), Syncs(habit), Initial(rows), steps).store[(org, token)].body.features
              && feature !in Fresh(Entl(x), After(Entl(x), Syncs(habit), Initial(rows), steps), org).features
  {
    var rows: map<Row, Val> := map[SubscriptionOf(org) := Occupying(plan, "active"), CatalogRows := Plans(Offering(plan, {feature}))];
    var after := rows[CatalogRows := Plans(Offering(plan, {}))];
    OnPlan(x, org, plan, feature, rows);
    OnPlan(x, org, plan, feature, after);
    CatalogSyncGoesUnnoticed(x, habit, org, rows, Offering(plan, {}));
  }

  /** On an active plan and without grants an organization has exactly its plan's features. */
  lemma OnPlan(x: Settings, org: string, plan: string, feature: string, rows: map<Row, Val>)
    requires Get(rows, SubscriptionOf(org)) == Occupying(plan, "active") && Get(rows, GrantsOf(org)) == Missing
    ensures var c := CatalogIn(rows);
            feature in Compute(x, org, rows).features <==> plan in c.plans && feature in c.plans[plan].features
  {
    var inputs := InputsOf(x, org, rows);
    assert inputs.status == Some("active") && inputs.grants == [] && R.PlanActive(inputs);
  }

  function Longest(names: seq<string>): nat {
    if names == [] then 0
    else var n := Longest(names[1..]); if |names[0]| > n then |names[0]| else n
  }

  lemma {:induction false} LongestBounds(names: seq<string>)
    ensures forall s | s in names :: |s| <= Longest(names)
    decreases |names|
  {
    if names != [] { LongestBounds(names[1..]); }
  }

  /** There is always another name. */
  lemma FreshName(names: set<string>) returns (name: string)
    ensures name !in names
  {
    var listed := Sorted(names);
    LongestBounds(listed);
    name := seq(Longest(listed) + 1, _ => 'x');
  }

  lemma Sorted(names: set<string>) returns (listed: seq<string>)
    ensures forall s :: s in names <==> s in listed
    decreases names
  {
    if names == {} {
      listed := [];
    } else {
      var s :| s in names;
      var rest := Sorted(names - {s});
      listed := [s] + rest;
    }
  }

  // ---------------------------------------------------------------- one read through the cache

  /** An organization's own rows do not enter another's computation. */
  lemma OthersUnmoved(x: Settings, rows: map<Row, Val>, org: string, r: Row, v: Val, other: string)
    requires (r == SubscriptionOf(org) || r == GrantsOf(org)) && other != org
    ensures Compute(x, other, rows[r := v]) == Compute(x, other, rows)
  {
    assert InputsOf(x, other, rows[r := v]) == InputsOf(x, other, rows);
  }

  class EntitlementService {
    const x: Settings
    var rows: map<Row, Val>
    /** The cached text under the version read, if any. */
    var cached: map<(string, nat), Json>
    var versions: map<string, nat>

    constructor (x: Settings, rows: map<Row, Val>)
      ensures this.x == x && this.rows == rows && cached == map[] && versions == map[] && CacheTrue()
    {
      this.x, this.rows, cached, versions := x, rows, map[], map[];
    }

    function VersionOf(org: string): nat reads this { if org in versions then versions[org] else 0 }

    /** Every text under a current version decodes to what its rows give now, and none is stored under
        a version still to come. */
    ghost predicate CacheTrue() reads this {
      && (forall k | k in cached :: k.1 <= VersionOf(k.0))
      && forall org | (org, VersionOf(org)) in cached && Decode(cached[(org, VersionOf(org))]).Some? ::
        Decode(cached[(org, VersionOf(org))]).value.1 == Compute(x, org, rows)
    }

    /** A read answers what a fresh computation would, hit or miss, and keeps the cache true. */
    method EffectiveForOrg(org: string) returns (e: R.Effective)
      requires CacheTrue()
      modifies this`cached
      ensures e == Compute(x, org, rows) && CacheTrue()
      ensures forall k | k in old(cached) && k != (org, VersionOf(org)) :: k in cached && cached[k] == old(cached)[k]
    {
      var version := VersionOf(org);
      if (org, version) in cached {
        var hit := Decode(cached[(org, version)]);
        if hit.Some? { return hit.value.1; }
      }
      e := R.Resolve(InputsOf(x, org, rows));
      var features := Listed(e.features);
      cached := cached[(org, version) := Encode(org, e, features)];
      RoundTrip(org, e, features);
    }

    /** Grant, revoke or change the subscription: the rows move and the organization's counter with
        them, so no text under a current version is left behind. */
    method Change(org: string, r: Row, v: Val)
      requires CacheTrue() && (r == SubscriptionOf(org) || r == GrantsOf(org))
      modifies this`rows, this`versions
      ensures rows == old(rows)[r := v] && VersionOf(org) == old(VersionOf(org)) + 1
      ensures CacheTrue()
    {
      rows := rows[r := v];
      versions := versions[org := VersionOf(org) + 1];
      forall o | o != org && (o, VersionOf(o)) in cached && Decode(cached[(o, VersionOf(o))]).Some?
        ensures Decode(cached[(o, VersionOf(o))]).value.1 == Compute(x, o, rows)
      {
        assert (o, old(VersionOf(o))) in cached;
        OthersUnmoved(x, old(rows), org, r, v, o);
      }
    }
  }

  method Listed(s: set<string>) returns (r: seq<string>)
    ensures s == set f | f in r
  {
    r := [];
    var rest := s;
    while rest != {}
      invariant rest <= s && (set f | f in r) == s - rest
      decreases rest
    {
      var f :| f in rest;
      assert (set g | g in r + [f]) == (set g | g in r) + {f};
      r, rest := r + [f], rest - {f};
    }
  }
}
