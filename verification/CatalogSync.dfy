/** The plan catalog, its validation, and the sync that makes the plan tables say what it says. */
module CatalogSync {
  import opened Wrappers
  import opened Resolver

  // ---------------------------------------------------------------- the catalog

  datatype Defaults = Defaults(currency: string, interval: string, trialDays: int, softRatio: Option<real>)

  datatype MetricDef = MetricDef(key: string, name: string, softRatio: Option<real>, overage: Option<Overage>)

  datatype PlanDef = PlanDef(
    key: string, name: string, priceCents: Option<int>, customPrice: bool, currency: Option<string>, interval: Option<string>,
    isPublic: bool, isCustom: bool, trialDays: Option<int>, sortOrder: int,
    features: seq<string>, limits: map<string, Option<int>>, overage: map<string, Overage>)

  datatype Catalog = Catalog(defaults: Defaults, features: seq<string>, metrics: seq<MetricDef>, plans: seq<PlanDef>)

  function Elements(s: seq<string>): set<string> { set k | k in s }

  predicate Distinct(keys: seq<string>) {
    keys == [] || (keys[|keys| - 1] !in keys[..|keys| - 1] && Distinct(keys[..|keys| - 1]))
  }

  lemma {:induction false} DistinctAt(keys: seq<string>, i: nat)
    requires i < |keys| && Distinct(keys)
    ensures keys[i] !in keys[..i]
    ensures Elements(keys[..i + 1]) == Elements(keys[..i]) + {keys[i]}
    decreases |keys|
  {
    assert keys[..i + 1] == keys[..i] + [keys[i]];
    if i < |keys| - 1 {
      DistinctAt(keys[..|keys| - 1], i);
      assert keys[..|keys| - 1][..i] == keys[..i];
    }
  }

  lemma DistinctPair(keys: seq<string>, i: nat, j: nat)
    requires i < |keys| && j < |keys| && Distinct(keys)
    ensures i < j ==> keys[i] != keys[j]
  {
    DistinctAt(keys, j);
    if i < j { assert keys[..j][i] == keys[i]; }
  }

  function Map<T, U>(f: T -> U, xs: seq<T>): (r: seq<U>)
    ensures |r| == |xs| && forall i | 0 <= i < |xs| :: r[i] == f(xs[i])
  {
    seq(|xs|, i requires 0 <= i < |xs| => f(xs[i]))
  }

  function KeyList(ps: seq<PlanDef>): (r: seq<string>)
    ensures |r| == |ps| && forall i | 0 <= i < |ps| :: r[i] == ps[i].key
  {
    Map((p: PlanDef) => p.key, ps)
  }

  function MetricKeys(c: Catalog): set<string> { Elements(MetricList(c.metrics)) }

  function MetricList(ms: seq<MetricDef>): (r: seq<string>)
    ensures |r| == |ms| && forall i | 0 <= i < |ms| :: r[i] == ms[i].key
  {
    Map((m: MetricDef) => m.key, ms)
  }

  predicate PlanValid(c: Catalog, p: PlanDef) {
    && (forall f | f in p.features :: f in c.features)
    && (forall m | m in p.limits :: m in MetricKeys(c))
    && (forall m | m in p.overage :: m in p.limits)
    && (p.isPublic ==> p.priceCents.Some?)
  }

  predicate Valid(c: Catalog) {
    && Distinct(c.features) && Distinct(MetricList(c.metrics)) && Distinct(KeyList(c.plans))
    && forall i | 0 <= i < |c.plans| :: PlanValid(c, c.plans[i])
  }

  datatype CatalogError =
    | DuplicateFeatures | DuplicateMetrics | DuplicatePlans
    | UnknownFeatures(plan: string) | UnknownMetrics(plan: string) | UnpricedOverage(plan: string) | UnpricedPlan(plan: string)

  /** Collects every error; the catalog is accepted iff there is none. */
  method CrossValidate(c: Catalog) returns (errors: seq<CatalogError>)
    ensures errors == [] <==> Valid(c)
  {
    errors := [];
    if !Distinct(c.features) { errors := errors + [DuplicateFeatures]; }
    if !Distinct(MetricList(c.metrics)) { errors := errors + [DuplicateMetrics]; }
    if !Distinct(KeyList(c.plans)) { errors := errors + [DuplicatePlans]; }
    var i := 0;
    while i < |c.plans|
      invariant 0 <= i <= |c.plans|
      invariant errors == [] <==>
        Distinct(c.features) && Distinct(MetricList(c.metrics)) && Distinct(KeyList(c.plans)) && forall j | 0 <= j < i :: PlanValid(c, c.plans[j])
    {
      var p := c.plans[i];
      if exists f | f in p.features :: f !in c.features { errors := errors + [UnknownFeatures(p.key)]; }
      if exists m | m in p.limits :: m !in MetricKeys(c) { errors := errors + [UnknownMetrics(p.key)]; }
      if exists m | m in p.overage :: m !in p.limits { errors := errors + [UnpricedOverage(p.key)]; }
      if p.isPublic && p.priceCents.None? { errors := errors + [UnpricedPlan(p.key)]; }
      i := i + 1;
    }
  }

  /** The first plan of that key, as every lookup in the catalog takes it. */
  function PlanOf(ps: seq<PlanDef>, key: string): Option<nat> {
    if ps == [] then None
    else if ps[0].key == key then Some(0)
    else match PlanOf(ps[1..], key) case Some(i) => Some(i + 1) case None => None
  }

  function MetricOf(ms: seq<MetricDef>, key: string): Option<MetricDef> {
    if ms == [] then None else if ms[0].key == key then Some(ms[0]) else MetricOf(ms[1..], key)
  }

  lemma {:induction false} PlanOfFinds(ps: seq<PlanDef>, i: nat)
    requires i < |ps|
    ensures PlanOf(ps, ps[i].key).Some? && PlanOf(ps, ps[i].key).value < |ps| && ps[PlanOf(ps, ps[i].key).value].key == ps[i].key
    decreases |ps|
  {
    if ps[0].key != ps[i].key { PlanOfFinds(ps[1..], i - 1); }
  }

  /** The plan's own pricing, else the metric's. */
  function OverageFor(c: Catalog, plan: string, metric: string): Option<Overage> {
    var i := PlanOf(c.plans, plan);
    if i.Some? && i.value < |c.plans| && metric in c.plans[i.value].overage then Some(c.plans[i.value].overage[metric])
    else match MetricOf(c.metrics, metric) case Some(m) => m.overage case None => None
  }

  // ---------------------------------------------------------------- the tables

  datatype Values = Values(
    name: string, priceCents: Option<int>, currency: string, interval: string, isPublic: bool, isCustom: bool, trialDays: int, sortOrder: int)

  datatype PlanRow = PlanRow(values: Values, archivedAt: Option<int>)

  datatype LimitRow = LimitRow(value: Option<int>, softRatio: Option<real>, overageUnit: Option<int>, overagePrice: Option<int>)

  datatype MetricRow = MetricRow(name: string, overage: Option<Overage>)

  /** A plan with the feature and limit rows that reference it. */
  datatype PlanState = PlanState(row: PlanRow, features: set<string>, limits: map<string, LimitRow>)

  datatype Tables = Tables(features: set<string>, metrics: map<string, MetricRow>, plans: map<string, PlanState>)

  datatype Counts = Counts(featuresAdded: nat, metricsAdded: nat, plansAdded: nat, plansUpdated: nat, plansArchived: nat)

  function Or<T>(a: Option<T>, b: T): T { if a.Some? then a.value else b }

  function ValuesOf(c: Catalog, i: nat): Values
    requires i < |c.plans|
  {
    var p := c.plans[i];
    Values(p.name, p.priceCents, if p.currency.Some? && p.currency.value != "" then p.currency.value else c.defaults.currency,
           if p.interval.Some? && p.interval.value != "" then p.interval.value else c.defaults.interval,
           p.isPublic, p.isCustom || p.customPrice, Or(p.trialDays, c.defaults.trialDays), if p.sortOrder != 0 then p.sortOrder else i)
  }

  function RowOf(c: Catalog, i: nat): PlanRow
    requires i < |c.plans|
  {
    PlanRow(ValuesOf(c, i), None)
  }

  function LimitOf(c: Catalog, p: PlanDef, metric: string): LimitRow
    requires metric in p.limits
  {
    var m := MetricOf(c.metrics, metric);
    var o := OverageFor(c, p.key, metric);
    LimitRow(p.limits[metric], if m.Some? && m.value.softRatio.Some? then m.value.softRatio else c.defaults.softRatio,
             if o.Some? then Some(o.value.unit) else None, if o.Some? then Some(o.value.priceCents) else None)
  }

  /** How the entitlement computation reads a limit row: unpriced unless both price fields are there,
      and a zero ratio is none. */
  function ReadLimit(row: LimitRow): Limit {
    Limit(row.value, if row.softRatio.Some? && row.softRatio.value != 0.0 then row.softRatio else None,
          if row.overageUnit.Some? && row.overagePrice.Some? then Some(Overage(row.overageUnit.value, row.overagePrice.value)) else None)
  }

  /** What the sync has to write for one plan, its features in the order they are listed. */
  datatype Work = Work(key: string, row: PlanRow, features: seq<string>, limits: map<string, LimitRow>)

  function LimitGroup(c: Catalog, p: PlanDef): map<string, LimitRow> {
    map m | m in p.limits :: LimitOf(c, p, m)
  }

  function WorkOf(c: Catalog): (r: seq<Work>)
    ensures |r| == |c.plans|
    ensures forall i | 0 <= i < |r| :: r[i] == Work(c.plans[i].key, RowOf(c, i), c.plans[i].features, LimitGroup(c, c.plans[i]))
  {
    seq(|c.plans|, i requires 0 <= i < |c.plans| => Work(c.plans[i].key, RowOf(c, i), c.plans[i].features, LimitGroup(c, c.plans[i])))
  }

  function Keys(ws: seq<Work>): (r: seq<string>)
    ensures |r| == |ws| && forall i | 0 <= i < |ws| :: r[i] == ws[i].key
  {
    Map((w: Work) => w.key, ws)
  }

  function StateOf(w: Work): PlanState { PlanState(w.row, Elements(w.features), w.limits) }

  // ---------------------------------------------------------------- what a sync leaves

  function MetricRows(ms: seq<MetricDef>, n: nat): map<string, MetricRow>
    requires n <= |ms|
  {
    if n == 0 then map[] else MetricRows(ms, n - 1)[ms[n - 1].key := MetricRow(ms[n - 1].name, ms[n - 1].overage)]
  }

  /** The first `n` plans by their key. */
  function Wanted(ws: seq<Work>, n: nat): map<string, PlanState>
    requires n <= |ws|
  {
    if n == 0 then map[] else Wanted(ws, n - 1)[ws[n - 1].key := StateOf(ws[n - 1])]
  }

  lemma {:induction false} WantedKeys(ws: seq<Work>, n: nat)
    requires n <= |ws|
    ensures forall k :: k in Wanted(ws, n) <==> k in Keys(ws)[..n]
  {
    if n > 0 {
      WantedKeys(ws, n - 1);
      assert Keys(ws)[..n] == Keys(ws)[..n - 1] + [ws[n - 1].key];
    }
  }

  function WantedBy(c: Catalog): map<string, PlanState> { Wanted(WorkOf(c), |c.plans|) }

  /** Plans the catalog no longer lists are archived, once; nothing else of theirs changes. */
  function Retired(plans: map<string, PlanState>, want: map<string, PlanState>, now: int): map<string, PlanState> {
    map k | k in plans :: if k !in want && plans[k].row.archivedAt.None? then plans[k].(row := plans[k].row.(archivedAt := Some(now))) else plans[k]
  }

  /** The tables a sync of `c` leaves. */
  function Synced(c: Catalog, t0: Tables, now: int): Tables {
    Tables(t0.features + Elements(c.features), t0.metrics + MetricRows(c.metrics, |c.metrics|), Retired(t0.plans + WantedBy(c), WantedBy(c), now))
  }

  /** What the counts report, as differences between catalog and tables. */
  function Counted(c: Catalog, t0: Tables): Counts {
    Counts(New(c.features, t0.features, |c.features|), New(MetricList(c.metrics), t0.metrics.Keys, |c.metrics|),
           New(Keys(WorkOf(c)), t0.plans.Keys, |c.plans|), Outdated(WorkOf(c), t0.plans, |c.plans|), |Dropped(t0.plans, WantedBy(c))|)
  }

  /** How many of the first `n` keys have no row. */
  function New(keys: seq<string>, existing: set<string>, n: nat): nat
    requires n <= |keys|
  {
    if n == 0 then 0 else New(keys, existing, n - 1) + if keys[n - 1] in existing then 0 else 1
  }

  /** How many of the first `n` plans have a row that says something else. */
  function Outdated(ws: seq<Work>, plans: map<string, PlanState>, n: nat): nat
    requires n <= |ws|
  {
    if n == 0 then 0
    else Outdated(ws, plans, n - 1) + if ws[n - 1].key in plans && plans[ws[n - 1].key].row != ws[n - 1].row then 1 else 0
  }

  function Dropped(plans: map<string, PlanState>, want: map<string, PlanState>): set<string> {
    set k | k in plans && k !in want && plans[k].row.archivedAt.None?
  }

  // ---------------------------------------------------------------- consequences

  lemma {:induction false} WantedAt(ws: seq<Work>, n: nat, i: nat)
    requires i < n <= |ws| && Distinct(Keys(ws))
    ensures ws[i].key in Wanted(ws, n) && Wanted(ws, n)[ws[i].key] == StateOf(ws[i])
    decreases n
  {
    if i < n - 1 {
      WantedAt(ws, n - 1, i);
      DistinctPair(Keys(ws), i, n - 1);
    }
  }

  lemma WorkKeys(c: Catalog)
    ensures Keys(WorkOf(c)) == KeyList(c.plans)
  {
  }

  predicate Live(t: Tables, k: string) { k in t.plans && t.plans[k].row.archivedAt.None? }

  /** After a sync the live plans are exactly the catalog's, and no plan row has gone. */
  lemma LiveIsTheCatalog(c: Catalog, t0: Tables, now: int)
    requires Distinct(KeyList(c.plans))
    ensures forall k :: Live(Synced(c, t0, now), k) <==> k in KeyList(c.plans)
    ensures t0.plans.Keys <= Synced(c, t0, now).plans.Keys
  {
    var ws := WorkOf(c);
    WorkKeys(c);
    assert Keys(ws)[..|c.plans|] == Keys(ws);
    WantedKeys(ws, |ws|);
    forall k ensures Live(Synced(c, t0, now), k) <==> k in KeyList(c.plans) {
      if k in KeyList(c.plans) {
        var i :| 0 <= i < |c.plans| && KeyList(c.plans)[i] == k;
        WantedAt(ws, |ws|, i);
      }
    }
  }

  /** The row says what the catalog says of plan `i`, with the defaults for what it leaves out. */
  predicate SaysPlan(v: Values, c: Catalog, i: nat)
    requires i < |c.plans|
  {
    var p, d := c.plans[i], c.defaults;
    && v.name == p.name && v.priceCents == p.priceCents && v.isPublic == p.isPublic
    && (v.currency == if p.currency in {None, Some("")} then d.currency else p.currency.value)
    && (v.interval == if p.interval in {None, Some("")} then d.interval else p.interval.value)
    && (v.trialDays == if p.trialDays.None? then d.trialDays else p.trialDays.value)
    && (v.isCustom <==> p.isCustom || p.customPrice)
    && (v.sortOrder == if p.sortOrder == 0 then i else p.sortOrder)
  }

  /** The soft ratio the catalog gives a metric; none and zero mean no soft limit. */
  function SoftRatio(c: Catalog, m: string): Option<real> {
    var own := MetricOf(c.metrics, m);
    var r := if own.Some? && own.value.softRatio.Some? then own.value.softRatio else c.defaults.softRatio;
    if r == Some(0.0) then None else r
  }

  /** Each listed plan has the catalog's values and exactly its features and limits, and every limit is
      read back with its value, its metric's soft ratio and priced by the plan, else by the metric. */
  lemma PlanReadsBack(c: Catalog, t0: Tables, now: int, i: nat)
    requires Distinct(KeyList(c.plans)) && i < |c.plans|
    ensures var p, t := c.plans[i], Synced(c, t0, now);
            && p.key in t.plans && SaysPlan(t.plans[p.key].row.values, c, i) && t.plans[p.key].row.archivedAt.None?
            && (forall f :: f in t.plans[p.key].features <==> f in p.features)
            && t.plans[p.key].limits.Keys == p.limits.Keys
            && forall m | m in p.limits ::
                 var l := ReadLimit(t.plans[p.key].limits[m]);
                 && l.value == p.limits[m] && l.softRatio == SoftRatio(c, m)
                 && l.overage == if m in p.overage then Some(p.overage[m])
                                 else match MetricOf(c.metrics, m) case Some(d) => d.overage case None => None
  {
    WorkKeys(c);
    WantedAt(WorkOf(c), |c.plans|, i);
    assert Synced(c, t0, now).plans[c.plans[i].key] == StateOf(WorkOf(c)[i]);
    forall m | m in c.plans[i].limits
      ensures var l := ReadLimit(LimitGroup(c, c.plans[i])[m]);
              && l.value == c.plans[i].limits[m] && l.softRatio == SoftRatio(c, m) && l.overage == OverageFor(c, c.plans[i].key, m)
    {
      LimitReadsBack(c, c.plans[i], m);
    }
    forall m { OwnOverage(c, i, m); }
  }

  lemma LimitReadsBack(c: Catalog, p: PlanDef, m: string)
    requires m in p.limits
    ensures var l := ReadLimit(LimitOf(c, p, m));
            l.value == p.limits[m] && l.softRatio == SoftRatio(c, m) && l.overage == OverageFor(c, p.key, m)
  {
  }

  /** Plans the catalog does not list keep everything they had; the live ones are archived now. */
  lemma UnlistedIsArchived(c: Catalog, t0: Tables, now: int, k: string)
    requires k in t0.plans && k !in KeyList(c.plans)
    ensures var t := Synced(c, t0, now); var was := t0.plans[k];
            && k in t.plans && t.plans[k].features == was.features && t.plans[k].limits == was.limits && t.plans[k].row.values == was.row.values
            && t.plans[k].row.archivedAt == Some(if was.row.archivedAt.Some? then was.row.archivedAt.value else now)
  {
    WorkKeys(c);
    assert Keys(WorkOf(c))[..|c.plans|] == Keys(WorkOf(c));
    WantedKeys(WorkOf(c), |c.plans|);
  }

  /** Listed metrics have the catalog's name and price, others and every feature ever known stay. */
  lemma MetricsReadBack(c: Catalog, t0: Tables, now: int)
    requires Distinct(MetricList(c.metrics))
    ensures var t := Synced(c, t0, now);
            && (forall i | 0 <= i < |c.metrics| :: c.metrics[i].key in t.metrics
                  && t.metrics[c.metrics[i].key] == MetricRow(c.metrics[i].name, c.metrics[i].overage))
            && (forall k | k in t.metrics && k !in MetricList(c.metrics) :: k in t0.metrics && t.metrics[k] == t0.metrics[k])
            && t0.metrics.Keys <= t.metrics.Keys
            && (forall f :: f in t.features <==> f in t0.features || f in c.features)
  {
    forall i | 0 <= i < |c.metrics|
      ensures c.metrics[i].key in MetricRows(c.metrics, |c.metrics|)
              && MetricRows(c.metrics, |c.metrics|)[c.metrics[i].key] == MetricRow(c.metrics[i].name, c.metrics[i].overage)
    {
      MetricAt(c.metrics, |c.metrics|, i);
    }
    MetricsAreListed(c.metrics, |c.metrics|);
  }

  lemma {:induction false} MetricAt(ms: seq<MetricDef>, n: nat, i: nat)
    requires i < n <= |ms| && Distinct(MetricList(ms))
    ensures ms[i].key in MetricRows(ms, n) && MetricRows(ms, n)[ms[i].key] == MetricRow(ms[i].name, ms[i].overage)
    decreases n
  {
    if i < n - 1 {
      MetricAt(ms, n - 1, i);
      DistinctPair(MetricList(ms), i, n - 1);
    }
  }

  lemma {:induction false} MetricsAreListed(ms: seq<MetricDef>, n: nat)
    requires n <= |ms|
    ensures forall k | k in MetricRows(ms, n) :: k in MetricList(ms)
    decreases n
  {
    if n > 0 {
      MetricsAreListed(ms, n - 1);
      assert MetricList(ms)[n - 1] == ms[n - 1].key;
    }
  }

  lemma {:induction false} NewIs(keys: seq<string>, existing: set<string>, n: nat)
    requires n <= |keys| && Distinct(keys)
    ensures New(keys, existing, n) == |Elements(keys[..n]) - existing|
    decreases n
  {
    if n == 0 {
      assert Elements(keys[..0]) - existing == {};
    } else {
      NewIs(keys, existing, n - 1);
      DistinctAt(keys, n - 1);
      var before := Elements(keys[..n - 1]) - existing;
      assert Elements(keys[..n]) - existing == if keys[n - 1] in existing then before else before + {keys[n - 1]};
    }
  }

  /** The plans with a row that says something else than the catalog. */
  function Differing(ws: seq<Work>, plans: map<string, PlanState>, n: nat): (r: set<string>)
    requires n <= |ws|
  {
    set i | 0 <= i < n && ws[i].key in plans && plans[ws[i].key].row != ws[i].row :: ws[i].key
  }

  lemma {:induction false} OutdatedIs(ws: seq<Work>, plans: map<string, PlanState>, n: nat)
    requires n <= |ws| && Distinct(Keys(ws))
    ensures Outdated(ws, plans, n) == |Differing(ws, plans, n)|
    decreases n
  {
    if n > 0 {
      OutdatedIs(ws, plans, n - 1);
      DifferingStep(ws, plans, n - 1);
    }
  }

  lemma DifferingStep(ws: seq<Work>, plans: map<string, PlanState>, n: nat)
    requires n < |ws| && Distinct(Keys(ws))
    ensures ws[n].key !in Differing(ws, plans, n)
    ensures Differing(ws, plans, n + 1) == Differing(ws, plans, n) + if ws[n].key in plans && plans[ws[n].key].row != ws[n].row then {ws[n].key} else {}
  {
    forall i: nat | i < n ensures ws[i].key != ws[n].key { DistinctPair(Keys(ws), i, n); }
  }

  lemma DroppedIs(c: Catalog, t0: Tables)
    ensures Dropped(t0.plans, WantedBy(c)) == set k | k in t0.plans && Live(t0, k) && k !in KeyList(c.plans)
  {
    WorkKeys(c);
    assert Keys(WorkOf(c))[..|c.plans|] == Keys(WorkOf(c));
    WantedKeys(WorkOf(c), |c.plans|);
  }

  lemma NewOnes(keys: seq<string>, existing: set<string>)
    requires Distinct(keys)
    ensures New(keys, existing, |keys|) == |Elements(keys) - existing|
  {
    NewIs(keys, existing, |keys|);
    assert keys[..|keys|] == keys;
  }

  /** What a sync of a catalog without repeated keys reports: how many listed features, metrics and plans
      had no row, how many listed plans had a row that said something else, and how many live plans were
      not listed. */
  lemma CountsAreTrue(c: Catalog, t0: Tables)
    requires Distinct(c.features) && Distinct(MetricList(c.metrics)) && Distinct(KeyList(c.plans))
    ensures var n := Counted(c, t0);
            && n.featuresAdded == |Elements(c.features) - t0.features|
            && n.metricsAdded == |MetricKeys(c) - t0.metrics.Keys|
            && n.plansAdded == |Elements(KeyList(c.plans)) - t0.plans.Keys|
            && n.plansUpdated == |Differing(WorkOf(c), t0.plans, |c.plans|)|
            && n.plansArchived == |set k | k in t0.plans && Live(t0, k) && k !in KeyList(c.plans)|
  {
    WorkKeys(c);
    NewOnes(c.features, t0.features);
    NewOnes(MetricList(c.metrics), t0.metrics.Keys);
    NewOnes(Keys(WorkOf(c)), t0.plans.Keys);
    OutdatedIs(WorkOf(c), t0.plans, |c.plans|);
    DroppedIs(c, t0);
  }

  /** Looking a plan up again by its key finds that plan's own pricing. */
  lemma OwnOverage(c: Catalog, i: nat, m: string)
    requires Distinct(KeyList(c.plans)) && i < |c.plans|
    ensures OverageFor(c, c.plans[i].key, m) == if m in c.plans[i].overage then Some(c.plans[i].overage[m])
                                                else match MetricOf(c.metrics, m) case Some(d) => d.overage case None => None
  {
    var keys := KeyList(c.plans);
    PlanOfFinds(c.plans, i);
    var j := PlanOf(c.plans, c.plans[i].key).value;
    DistinctPair(keys, i, j);
    DistinctPair(keys, j, i);
  }

  /** A second sync of the same catalog changes no table and reports nothing. */
  lemma SecondSyncIsNoop(c: Catalog, t0: Tables, first: int, second: int)
    requires Distinct(KeyList(c.plans))
    ensures var t1 := Synced(c, t0, first); Synced(c, t1, second) == t1 && Counted(c, t1) == Counts(0, 0, 0, 0, 0)
  {
    WantedIsLive(c);
    PlansSettle(t0.plans, WantedBy(c), first, second);
    NothingCounted(c, t0, first);
    Resettle(t0.metrics, MetricRows(c.metrics, |c.metrics|));
    assert (t0.features + Elements(c.features)) + Elements(c.features) == t0.features + Elements(c.features);
  }

  lemma Resettle(m0: map<string, MetricRow>, m: map<string, MetricRow>)
    ensures (m0 + m) + m == m0 + m
  {
  }

  lemma WantedIsLive(c: Catalog)
    requires Distinct(KeyList(c.plans))
    ensures forall k | k in WantedBy(c) :: WantedBy(c)[k].row.archivedAt.None?
  {
    var ws := WorkOf(c);
    WorkKeys(c);
    assert Keys(ws)[..|ws|] == Keys(ws);
    WantedKeys(ws, |ws|);
    forall k | k in WantedBy(c) ensures WantedBy(c)[k].row.archivedAt.None? {
      var i :| 0 <= i < |ws| && Keys(ws)[i] == k;
      WantedAt(ws, |ws|, i);
    }
  }

  lemma PlansSettle(p0: map<string, PlanState>, want: map<string, PlanState>, first: int, second: int)
    requires forall k | k in want :: want[k].row.archivedAt.None?
    ensures var p1 := Retired(p0 + want, want, first); Retired(p1 + want, want, second) == p1 && Dropped(p1, want) == {}
  {
    var p1 := Retired(p0 + want, want, first);
    assert p1 + want == p1;
  }

  lemma NothingCounted(c: Catalog, t0: Tables, now: int)
    requires Distinct(KeyList(c.plans))
    ensures var t := Synced(c, t0, now);
            && New(c.features, t.features, |c.features|) == 0 && New(MetricList(c.metrics), t.metrics.Keys, |c.metrics|) == 0
            && New(Keys(WorkOf(c)), t.plans.Keys, |c.plans|) == 0 && Outdated(WorkOf(c), t.plans, |c.plans|) == 0
  {
    var t, ws := Synced(c, t0, now), WorkOf(c);
    WorkKeys(c);
    MetricsHave(c.metrics, |c.metrics|);
    NoneNew(c.features, t.features, |c.features|);
    NoneNew(MetricList(c.metrics), t.metrics.Keys, |c.metrics|);
    forall i | 0 <= i < |ws| ensures ws[i].key in t.plans && t.plans[ws[i].key].row == ws[i].row { WantedAt(ws, |ws|, i); }
    NoneNew(Keys(ws), t.plans.Keys, |ws|);
    NoneOutdated(ws, t.plans, |ws|);
  }

  lemma {:induction false} MetricsHave(ms: seq<MetricDef>, n: nat)
    requires n <= |ms|
    ensures forall i | 0 <= i < n :: ms[i].key in MetricRows(ms, n)
  {
    if n > 0 { MetricsHave(ms, n - 1); }
  }

  lemma {:induction false} NoneNew(keys: seq<string>, existing: set<string>, n: nat)
    requires n <= |keys| && forall i | 0 <= i < |keys| :: keys[i] in existing
    ensures New(keys, existing, n) == 0
  {
    if n > 0 { NoneNew(keys, existing, n - 1); }
  }

  lemma {:induction false} NoneOutdated(ws: seq<Work>, plans: map<string, PlanState>, n: nat)
    requires n <= |ws| && forall i | 0 <= i < |ws| :: ws[i].key in plans && plans[ws[i].key].row == ws[i].row
    ensures Outdated(ws, plans, n) == 0
  {
    if n > 0 { NoneOutdated(ws, plans, n - 1); }
  }

  // ---------------------------------------------------------------- the sync

  /** A list of features can be inserted unless it names twice one that has no row yet. */
  predicate Insertable(features: seq<string>, existing: set<string>) {
    features == []
    || (Insertable(features[..|features| - 1], existing)
        && (features[|features| - 1] in features[..|features| - 1] ==> features[|features| - 1] in existing))
  }

  lemma {:induction false} InsertableIff(features: seq<string>, existing: set<string>)
    ensures Insertable(features, existing) <==> forall i, j | 0 <= i < j < |features| && features[i] == features[j] :: features[i] in existing
    decreases |features|
  {
    if features != [] {
      var n := |features| - 1;
      InsertableIff(features[..n], existing);
      if Insertable(features, existing) {
        forall i, j | 0 <= i < j < |features| && features[i] == features[j] ensures features[i] in existing {
          if j == n { assert features[..n][i] == features[n]; } else { assert features[..n][i] == features[..n][j]; }
        }
      } else if features[n] in features[..n] && features[n] !in existing {
        var i :| 0 <= i < n && features[..n][i] == features[n];
        assert features[i] == features[n];
      } else {
        var i, j :| 0 <= i < j < n && features[..n][i] == features[..n][j] && features[..n][i] !in existing;
        assert features[i] == features[j];
      }
    }
  }

  lemma {:induction false} InsertablePrefix(features: seq<string>, existing: set<string>, n: nat)
    requires n <= |features|
    ensures Insertable(features, existing) ==> Insertable(features[..n], existing)
    decreases |features|
  {
    if n == |features| {
      assert features[..n] == features;
    } else {
      InsertablePrefix(features[..|features| - 1], existing, n);
      assert features[..|features| - 1][..n] == features[..n];
    }
  }

  function FeaturesOf(plans: map<string, PlanState>, key: string): set<string> {
    if key in plans then plans[key].features else {}
  }

  ghost predicate AllInsertable(ws: seq<Work>, plans: map<string, PlanState>, n: nat)
    requires n <= |ws|
  {
    forall i | 0 <= i < n :: Insertable(ws[i].features, FeaturesOf(plans, ws[i].key))
  }

  lemma {:induction false} InsertableAtFirst(features: seq<string>)
    ensures Insertable(features, {}) <==> Distinct(features)
    decreases |features|
  {
    if features != [] { InsertableAtFirst(features[..|features| - 1]); }
  }

  /** The first sync of a catalog succeeds exactly when no plan lists a feature twice. */
  lemma FirstSyncSucceedsIff(c: Catalog)
    ensures AllInsertable(WorkOf(c), map[], |c.plans|) <==> forall i | 0 <= i < |c.plans| :: Distinct(c.plans[i].features)
  {
    forall i | 0 <= i < |c.plans| ensures Insertable(WorkOf(c)[i].features, {}) <==> Distinct(c.plans[i].features) {
      InsertableAtFirst(c.plans[i].features);
    }
  }

  /** Validation does not ask for that: any valid catalog with a plan that has a feature stays valid
      when the plan lists the feature again, and its first sync then fails. */
  lemma RepeatedFeatureFails(c: Catalog, i: nat, f: string)
    requires Valid(c) && i < |c.plans| && f in c.plans[i].features
    ensures var p := c.plans[i].(features := c.plans[i].features + [f]);
            var c' := c.(plans := c.plans[i := p]);
            Valid(c') && !AllInsertable(WorkOf(c'), map[], |c'.plans|)
  {
    var p := c.plans[i].(features := c.plans[i].features + [f]);
    var c' := c.(plans := c.plans[i := p]);
    assert KeyList(c'.plans) == KeyList(c.plans);
    assert forall j | 0 <= j < |c.plans| :: PlanValid(c', c'.plans[j]);
    assert p.features[..|p.features| - 1] == c.plans[i].features;
    assert !Distinct(c'.plans[i].features);
    FirstSyncSucceedsIff(c');
  }

  /** Such a catalog: one feature, and one plan that lists it twice. */
  lemma ValidCatalogCanFail()
    ensures var plan := PlanDef("pro", "Pro", None, false, None, None, false, false, None, 0, ["sso", "sso"], map[], map[]);
            var c := Catalog(Defaults("USD", "month", 0, None), ["sso"], [], [plan]);
            Valid(c) && !AllInsertable(WorkOf(c), map[], 1)
  {
    var plan := PlanDef("pro", "Pro", None, false, None, None, false, false, None, 0, ["sso"], map[], map[]);
    var c := Catalog(Defaults("USD", "month", 0, None), ["sso"], [], [plan]);
    assert KeyList(c.plans) == ["pro"] && Distinct(["pro"]) && Distinct(["sso"]);
    RepeatedFeatureFails(c, 0, "sso");
    assert ["sso"] + ["sso"] == ["sso", "sso"];
  }

  /** A plan whose turn comes still has the rows the sync found. */
  lemma StillAsFound(ws: seq<Work>, p0: map<string, PlanState>, i: nat)
    requires i < |ws| && Distinct(Keys(ws))
    ensures var p, key := p0 + Wanted(ws, i), ws[i].key;
            (key in p <==> key in p0) && (key in p0 ==> p[key] == p0[key])
  {
    DistinctAt(Keys(ws), i);
    WantedKeys(ws, i);
  }

  lemma OnePlanFurther(ws: seq<Work>, p0: map<string, PlanState>, i: nat)
    requires i < |ws|
    ensures (p0 + Wanted(ws, i))[ws[i].key := StateOf(ws[i])] == p0 + Wanted(ws, i + 1)
    ensures New(Keys(ws), p0.Keys, i + 1) == New(Keys(ws), p0.Keys, i) + (if ws[i].key in p0 then 0 else 1)
    ensures Outdated(ws, p0, i + 1) == Outdated(ws, p0, i) + (if ws[i].key in p0 && p0[ws[i].key].row != ws[i].row then 1 else 0)
  {
  }

  class Database {
    var features: set<string>
    var metrics: map<string, MetricRow>
    var plans: map<string, PlanState>

    constructor (t: Tables)
      ensures Rows() == t
    {
      features, metrics, plans := t.features, t.metrics, t.plans;
    }

    function Rows(): Tables reads this { Tables(features, metrics, plans) }

    method SyncFeatureRegistry(keys: seq<string>) returns (added: nat)
      requires Distinct(keys)
      modifies this`features
      ensures features == old(features) + Elements(keys) && added == New(keys, old(features), |keys|)
    {
      var existing := features;
      added := 0;
      var i := 0;
      while i < |keys|
        invariant 0 <= i <= |keys|
        invariant features == existing + Elements(keys[..i]) && added == New(keys, existing, i)
      {
        DistinctAt(keys, i);
        if keys[i] !in existing {
          features := features + {keys[i]};
          added := added + 1;
        }
        i := i + 1;
      }
      assert keys[..i] == keys;
    }

    method SyncMetrics(ms: seq<MetricDef>) returns (added: nat)
      modifies this`metrics
      ensures metrics == old(metrics) + MetricRows(ms, |ms|) && added == New(MetricList(ms), old(metrics).Keys, |ms|)
    {
      var existing := metrics;
      added := 0;
      var i := 0;
      while i < |ms|
        invariant 0 <= i <= |ms|
        invariant metrics == existing + MetricRows(ms, i) && added == New(MetricList(ms), existing.Keys, i)
      {
        if ms[i].key !in existing { added := added + 1; }
        metrics := metrics[ms[i].key := MetricRow(ms[i].name, ms[i].overage)];
        i := i + 1;
      }
    }

    /** One plan's row inserted or overwritten, then its features, then its limits. */
    method SyncOnePlan(w: Work) returns (ok: bool, isNew: bool, isOutdated: bool)
      modifies this`plans
      ensures ok == Insertable(w.features, FeaturesOf(old(plans), w.key))
      ensures ok ==> plans == old(plans)[w.key := StateOf(w)]
      ensures isNew == (w.key !in old(plans)) && isOutdated == (w.key in old(plans) && old(plans)[w.key].row != w.row)
    {
      isNew, isOutdated := false, false;
      if w.key !in plans {
        plans := plans[w.key := PlanState(w.row, {}, map[])];
        isNew := true;
      } else if plans[w.key].row != w.row {
        plans := plans[w.key := plans[w.key].(row := w.row)];
        isOutdated := true;
      }
      ok := SyncPlanFeatures(w.key, w.features);
      if !ok { return; }
      SyncPlanLimits(w.key, w.limits);
    }

    /** Every plan in order. */
    method SyncPlanRows(ws: seq<Work>) returns (ok: bool, added: nat, updated: nat)
      requires Distinct(Keys(ws))
      modifies this`plans
      ensures ok <==> AllInsertable(ws, old(plans), |ws|)
      ensures ok ==> plans == old(plans) + Wanted(ws, |ws|)
      ensures ok ==> added == New(Keys(ws), old(plans).Keys, |ws|) && updated == Outdated(ws, old(plans), |ws|)
    {
      ghost var p0 := plans;
      added, updated := 0, 0;
      var i := 0;
      while i < |ws|
        invariant 0 <= i <= |ws|
        invariant plans == p0 + Wanted(ws, i)
        invariant added == New(Keys(ws), p0.Keys, i) && updated == Outdated(ws, p0, i)
        invariant AllInsertable(ws, p0, i)
      {
        StillAsFound(ws, p0, i);
        OnePlanFurther(ws, p0, i);
        var isNew, isOutdated;
        ok, isNew, isOutdated := SyncOnePlan(ws[i]);
        if !ok { return; }
        if isNew { added := added + 1; }
        if isOutdated { updated := updated + 1; }
        i := i + 1;
      }
      ok := true;
    }

    /** Insert what is listed and was not there, in order, then delete what was there and is not
        listed. A row inserted twice violates the key, and none of it stands. */
    method SyncPlanFeatures(key: string, wanted: seq<string>) returns (ok: bool)
      requires key in plans
      modifies this`plans
      ensures ok == Insertable(wanted, old(plans)[key].features)
      ensures plans == if ok then old(plans)[key := old(plans)[key].(features := Elements(wanted))] else old(plans)
    {
      var existing, rows := plans[key].features, plans[key].features;
      var i := 0;
      while i < |wanted|
        invariant 0 <= i <= |wanted|
        invariant rows == existing + Elements(wanted[..i]) && Insertable(wanted[..i], existing)
      {
        assert wanted[..i + 1][..i] == wanted[..i] && wanted[..i + 1][i] == wanted[i];
        if wanted[i] !in existing {
          if wanted[i] in rows {
            InsertablePrefix(wanted, existing, i + 1);
            return false;
          }
          rows := rows + {wanted[i]};
        }
        i := i + 1;
      }
      assert wanted[..i] == wanted;
      var rest := existing;
      while rest != {}
        invariant rest <= existing
        invariant rows == (set f | f in existing && (f in wanted || f in rest)) + Elements(wanted)
        decreases rest
      {
        var f :| f in rest;
        if f !in wanted { rows := rows - {f}; }
        rest := rest - {f};
      }
      assert rows == Elements(wanted);
      plans := plans[key := plans[key].(features := rows)];
      ok := true;
    }

    method SyncPlanLimits(key: string, limits: map<string, LimitRow>)
      requires key in plans
      modifies this`plans
      ensures plans == old(plans)[key := old(plans)[key].(limits := limits)]
    {
      var existing, rows, left := plans[key].limits, plans[key].limits, limits.Keys;
      while left != {}
        invariant left <= limits.Keys && rows.Keys == existing.Keys + (limits.Keys - left)
        invariant forall m | m in rows :: rows[m] == if m in limits && m !in left then limits[m] else existing[m]
        decreases left
      {
        var m :| m in left;
        rows := rows[m := limits[m]];
        left := left - {m};
      }
      rows := rows - (set m | m in existing && m !in limits);
      assert rows == limits;
      plans := plans[key := plans[key].(limits := rows)];
    }

    /** Archive what was there before, is live and is not listed. */
    method Archive(known: map<string, PlanState>, want: map<string, PlanState>, now: int) returns (archived: nat)
      requires plans == known + want
      modifies this`plans
      ensures plans == Retired(known + want, want, now) && archived == |Dropped(known, want)|
    {
      var before, dropped := plans, Dropped(known, want);
      var rest := dropped;
      archived := 0;
      while rest != {}
        invariant rest <= dropped && archived + |rest| == |dropped|
        invariant plans.Keys == before.Keys
        invariant forall k | k in plans ::
          plans[k] == if k in dropped && k !in rest then before[k].(row := before[k].row.(archivedAt := Some(now))) else before[k]
        decreases rest
      {
        var k :| k in rest;
        plans := plans[k := plans[k].(row := plans[k].row.(archivedAt := Some(now)))];
        archived := archived + 1;
        rest := rest - {k};
      }
    }

    /** The whole sync, one transaction: it fails, and then leaves the tables as they were, exactly
        when a plan lists twice a feature it has no row for yet. */
    method SyncPlans(c: Catalog, now: int) returns (ok: bool, r: Counts)
      requires Valid(c)
      modifies this
      ensures ok <==> AllInsertable(WorkOf(c), old(plans), |c.plans|)
      ensures ok ==> Rows() == Synced(c, old(Rows()), now) && r == Counted(c, old(Rows()))
      ensures !ok ==> Rows() == old(Rows())
    {
      var t0 := Rows();
      WorkKeys(c);
      var featuresAdded := SyncFeatureRegistry(c.features);
      var metricsAdded := SyncMetrics(c.metrics);
      var added, updated;
      ok, added, updated := SyncPlanRows(WorkOf(c));
      if !ok {
        features, metrics, plans := t0.features, t0.metrics, t0.plans;
        return false, Counts(0, 0, 0, 0, 0);
      }
      var archived := Archive(t0.plans, WantedBy(c), now);
      r := Counts(featuresAdded, metricsAdded, added, updated, archived);
    }
  }
}
