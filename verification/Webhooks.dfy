/**
 Billing webhook ingest: a ledger row per provider event, a savepoint per normalised event, and one
 transaction around it all that an infrastructure failure rolls back.
 */
module Webhooks {
  import opened Wrappers
  import opened Subscriptions

  /** An update names the provider's status word; none or an empty one is `None`. */
  datatype Kind =
    | Activated | Created | TrialEnded | Updated(status: Option<Status>) | CanceledByProvider | PastDueByProvider
    | InvoicePaid | InvoiceCreated | InvoiceFailed | CheckoutCompleted | Other

  datatype Event = Event(
    kind: Kind, customer: Option<string>, subRef: Option<string>, invoice: Option<string>, plan: Option<string>,
    periodEnd: Option<int>, amount: Option<int>, occurred: int)

  datatype InvoiceStatus = Open | Paid | Uncollectible

  datatype ProviderInvoice = ProviderInvoice(org: int, total: int, status: InvoiceStatus, paidAt: Option<int>)

  /** `invoices` mirrors the provider's, `own` are those written at checkout, as (organization, total). */
  datatype Billing = Billing(subs: seq<Sub>, invoices: map<(string, string), ProviderInvoice>, own: seq<(int, int)>)

  /** Rows ingest only reads: known customers and plans, and the name checkouts are recorded under. */
  datatype Context = Context(customers: map<string, int>, plans: map<string, Plan>, checkoutProvider: string)

  /** A business rejection is deterministic; anything else that goes wrong ends the transaction. */
  datatype Result = Applied(b: Billing) | Rejected | Crashed

  // ---------------------------------------------------------------- one normalised event

  /** By customer first, then by any subscription carrying the provider's reference. */
  function OrgFor(c: Context, b: Billing, e: Event): Option<int> {
    if e.customer.Some? && e.customer.value in c.customers then Some(c.customers[e.customer.value])
    else if e.subRef.Some? then OrgOfRef(b.subs, e.subRef.value)
    else None
  }

  function OrgOfRef(subs: seq<Sub>, ref: string): Option<int> {
    if subs == [] then None
    else if subs[0].ref == Some(ref) then Some(subs[0].org)
    else OrgOfRef(subs[1..], ref)
  }

  function ApplyStatus(b: Billing, org: int, target: Status, e: Event): Result {
    match ProviderStatus(b.subs, org, target, e.periodEnd)
    case Done(subs) => Applied(b.(subs := subs))
    case Refused => Rejected
    case Broken => Crashed
  }

  function UpsertInvoice(b: Billing, provider: string, org: int, status: InvoiceStatus, e: Event): Result {
    if e.invoice.None? || e.invoice.value == "" then Applied(b)
    else
      var key := (provider, e.invoice.value);
      var org' := if key in b.invoices then b.invoices[key].org else org;
      var paidAt := if status.Paid? then Some(e.occurred) else if key in b.invoices then b.invoices[key].paidAt else None;
      Applied(b.(invoices := b.invoices[key := ProviderInvoice(org', if e.amount.Some? then e.amount.value else 0, status, paidAt)]))
  }

  function Checkout(c: Context, b: Billing, org: int, e: Event, now: int): Result {
    if e.plan.None? || e.plan.value == "" then Applied(b)
    else if e.plan.value !in c.plans then Rejected
    else
      var plan := c.plans[e.plan.value];
      match ChangePlan(b.subs, org, Some(plan), Some(c.checkoutProvider), e.subRef, false, now)
      case Done(subs) => Applied(b.(subs := subs, own := if plan.price > 0 then b.own + [(org, plan.price)] else b.own))
      case Refused => Rejected
      case Broken => Crashed
  }

  function Apply(c: Context, b: Billing, provider: string, e: Event, now: int): Result {
    match OrgFor(c, b, e)
    case None => Applied(b)
    case Some(org) =>
      match e.kind
      case Activated => ApplyStatus(b, org, Active, e)
      case Created => ApplyStatus(b, org, Active, e)
      case TrialEnded => ApplyStatus(b, org, Active, e)
      case Updated(s) => ApplyStatus(b, org, if s.Some? then s.value else Active, e)
      case CanceledByProvider => ApplyStatus(b, org, Canceled, e)
      case PastDueByProvider => ApplyStatus(b, org, PastDue, e)
      case InvoicePaid => UpsertInvoice(b, provider, org, Paid, e)
      case InvoiceCreated => UpsertInvoice(b, provider, org, Open, e)
      case InvoiceFailed => UpsertInvoice(b, provider, org, Uncollectible, e)
      case CheckoutCompleted => Checkout(c, b, org, e, now)
      case Other => Applied(b)
  }

  // ---------------------------------------------------------------- one delivery

  /** `payload` is what the translation gives, absent when it raises; `fault` is where the
      infrastructure fails, counting the ledger insert as 0, absent when it does not. */
  datatype Delivery = Delivery(provider: string, id: string, payload: Option<seq<Event>>, now: int, fault: Option<nat>)

  datatype Entry = Unprocessable | Processed(applied: nat, rejected: nat)

  datatype State = State(ledger: map<(string, string), Entry>, billing: Billing)

  datatype Answer = Duplicate | Recorded(entry: Entry) | Failed

  function Key(d: Delivery): (string, string) { (d.provider, d.id) }

  datatype Batch = Ended(b: Billing, applied: nat, rejected: nat) | Aborted

  /** Each event under its own savepoint; a crash ends the batch. */
  function ApplyAll(c: Context, b: Billing, provider: string, events: seq<Event>, now: int): Batch
    decreases |events|
  {
    if events == [] then Ended(b, 0, 0)
    else
      match ApplyAll(c, b, provider, events[..|events| - 1], now)
      case Aborted => Aborted
      case Ended(b1, applied, rejected) =>
        match Apply(c, b1, provider, events[|events| - 1], now)
        case Applied(b2) => Ended(b2, applied + 1, rejected)
        case Rejected => Ended(b1, applied, rejected + 1)
        case Crashed => Aborted
  }

  /** What a delivery does to billing the one time it counts. */
  function Effect(c: Context, b: Billing, d: Delivery): Option<Billing> {
    if d.payload.None? then Some(b)
    else match ApplyAll(c, b, d.provider, d.payload.value, d.now)
         case Aborted => None
         case Ended(b1, _, _) => Some(b1)
  }

  function EntryOf(c: Context, b: Billing, d: Delivery): Entry
    requires Effect(c, b, d).Some?
  {
    if d.payload.None? then Unprocessable
    else var batch := ApplyAll(c, b, d.provider, d.payload.value, d.now); Processed(batch.applied, batch.rejected)
  }

  function Judge(c: Context, s: State, d: Delivery): Answer {
    if d.fault.Some? then Failed
    else if Key(d) in s.ledger then Duplicate
    else if Effect(c, s.billing, d).None? then Failed
    else Recorded(EntryOf(c, s.billing, d))
  }

  function Handle(c: Context, s: State, d: Delivery): State {
    match Judge(c, s, d)
    case Recorded(entry) => State(s.ledger[Key(d) := entry], Effect(c, s.billing, d).value)
    case _ => s
  }

  // ---------------------------------------------------------------- runs

  function After(c: Context, s: State, ds: seq<Delivery>): State
    decreases |ds|
  {
    if ds == [] then s else After(c, Handle(c, s, ds[0]), ds[1..])
  }

  function Answers(c: Context, s: State, ds: seq<Delivery>): (r: seq<Answer>)
    ensures |r| == |ds|
    decreases |ds|
  {
    if ds == [] then [] else [Judge(c, s, ds[0])] + Answers(c, Handle(c, s, ds[0]), ds[1..])
  }

  /** The specification: of the deliveries that did not fail, the first of each event, in order. */
  function Firsts(ds: seq<Delivery>, answers: seq<Answer>, seen: set<(string, string)>): seq<Delivery>
    requires |answers| == |ds|
    decreases |ds|
  {
    if ds == [] then []
    else if answers[0].Failed? || Key(ds[0]) in seen then Firsts(ds[1..], answers[1..], seen)
    else [ds[0]] + Firsts(ds[1..], answers[1..], seen + {Key(ds[0])})
  }

  /** Applying deliveries one after the other with no ledger at all. */
  function ApplyEach(c: Context, b: Billing, ds: seq<Delivery>): Option<Billing>
    decreases |ds|
  {
    if ds == [] then Some(b)
    else match Effect(c, b, ds[0])
         case None => None
         case Some(b1) => ApplyEach(c, b1, ds[1..])
  }

  function Keys(ds: seq<Delivery>): set<(string, string)> { set d | d in ds :: Key(d) }

  /** No event twice, and none that `seen` already has. */
  predicate Fresh(ds: seq<Delivery>, seen: set<(string, string)>)
    decreases |ds|
  {
    ds == [] || (Key(ds[0]) !in seen && Fresh(ds[1..], seen + {Key(ds[0])}))
  }

  lemma {:induction false} FirstsAreFresh(ds: seq<Delivery>, answers: seq<Answer>, seen: set<(string, string)>)
    requires |answers| == |ds|
    ensures Fresh(Firsts(ds, answers, seen), seen)
    decreases |ds|
  {
    if ds != [] {
      if answers[0].Failed? || Key(ds[0]) in seen {
        FirstsAreFresh(ds[1..], answers[1..], seen);
      } else {
        FirstsAreFresh(ds[1..], answers[1..], seen + {Key(ds[0])});
        assert Firsts(ds, answers, seen)[1..] == Firsts(ds[1..], answers[1..], seen + {Key(ds[0])});
      }
    }
  }

  /** One delivery: it counts exactly if it did not fail and its event is new. */
  lemma HeadCounts(c: Context, s: State, d: Delivery)
    ensures Judge(c, s, d).Recorded? <==> !Judge(c, s, d).Failed? && Key(d) !in s.ledger
    ensures Judge(c, s, d).Recorded? ==> Effect(c, s.billing, d) == Some(Handle(c, s, d).billing)
                                         && Handle(c, s, d).ledger.Keys == s.ledger.Keys + {Key(d)}
    ensures !Judge(c, s, d).Recorded? ==> Handle(c, s, d) == s
  {
  }

  /** Whatever was repeated, reordered or aborted: billing is what applying each event once, at its
      first delivery that did not fail, gives; and the ledger has a row exactly for those events. */
  lemma {:induction false} IngestIsApplyOnce(c: Context, s: State, ds: seq<Delivery>)
    ensures var firsts := Firsts(ds, Answers(c, s, ds), s.ledger.Keys); var s' := After(c, s, ds);
            && ApplyEach(c, s.billing, firsts) == Some(s'.billing)
            && s'.ledger.Keys == s.ledger.Keys + Keys(firsts)
            && Fresh(firsts, s.ledger.Keys)
    decreases |ds|
  {
    FirstsAreFresh(ds, Answers(c, s, ds), s.ledger.Keys);
    if ds != [] {
      var s1 := Handle(c, s, ds[0]);
      IngestIsApplyOnce(c, s1, ds[1..]);
      HeadCounts(c, s, ds[0]);
      var rest := Firsts(ds[1..], Answers(c, s1, ds[1..]), s1.ledger.Keys);
      FirstsHead(c, s, ds);
      if Judge(c, s, ds[0]).Recorded? {
        assert ([ds[0]] + rest)[1..] == rest;
        KeysCons(ds[0], rest);
      }
    }
  }

  lemma FirstsHead(c: Context, s: State, ds: seq<Delivery>)
    requires ds != []
    ensures var s1 := Handle(c, s, ds[0]); var rest := Firsts(ds[1..], Answers(c, s1, ds[1..]), s1.ledger.Keys);
            Firsts(ds, Answers(c, s, ds), s.ledger.Keys) == if Judge(c, s, ds[0]).Recorded? then [ds[0]] + rest else rest
  {
    HeadCounts(c, s, ds[0]);
    assert Answers(c, s, ds)[1..] == Answers(c, Handle(c, s, ds[0]), ds[1..]);
  }

  lemma KeysCons(d: Delivery, ds: seq<Delivery>)
    ensures Keys([d] + ds) == {Key(d)} + Keys(ds)
  {
    forall k | k in {Key(d)} + Keys(ds) ensures k in Keys([d] + ds) {
      if k == Key(d) { assert d in [d] + ds; } else {
        var e :| e in ds && Key(e) == k;
        assert e in [d] + ds;
      }
    }
  }

  /** A ledger row, once written, is never rewritten, and its event changes nothing again. */
  lemma {:induction false} LedgerIsForever(c: Context, s: State, ds: seq<Delivery>, key: (string, string))
    requires key in s.ledger
    ensures key in After(c, s, ds).ledger && After(c, s, ds).ledger[key] == s.ledger[key]
    ensures forall d | Key(d) == key :: Handle(c, After(c, s, ds), d) == After(c, s, ds)
    decreases |ds|
  {
    if ds != [] { LedgerIsForever(c, Handle(c, s, ds[0]), ds[1..], key); }
  }

  /** Any number of failed attempts, anywhere, before a delivery leaves it exactly as new. */
  lemma {:induction false} FailuresLeaveNoTrace(c: Context, s: State, ds: seq<Delivery>)
    requires forall i | 0 <= i < |ds| :: Judge(c, s, ds[i]).Failed?
    ensures After(c, s, ds) == s
    decreases |ds|
  {
    if ds != [] {
      assert Judge(c, s, ds[0]).Failed?;
      FailuresLeaveNoTrace(c, s, ds[1..]);
    }
  }

  // ---------------------------------------------------------------- rejected events

  /** The events of a batch that were not rejected. */
  function Accepted(c: Context, b: Billing, provider: string, events: seq<Event>, now: int): seq<Event>
    decreases |events|
  {
    if events == [] then []
    else
      var init := events[..|events| - 1];
      var before := ApplyAll(c, b, provider, init, now);
      Accepted(c, b, provider, init, now)
      + if before.Ended? && Apply(c, before.b, provider, events[|events| - 1], now).Applied? then [events[|events| - 1]] else []
  }

  /** Rejected events contribute nothing: the batch without them has the same result, rejects none,
      and the counts add up. */
  lemma {:induction false} RejectedContributeNothing(c: Context, b: Billing, provider: string, events: seq<Event>, now: int)
    requires ApplyAll(c, b, provider, events, now).Ended?
    ensures var batch := ApplyAll(c, b, provider, events, now); var kept := Accepted(c, b, provider, events, now);
            && ApplyAll(c, b, provider, kept, now) == Ended(batch.b, |kept|, 0)
            && batch.applied == |kept| && batch.applied + batch.rejected == |events|
    decreases |events|
  {
    if events != [] {
      var init, last := events[..|events| - 1], events[|events| - 1];
      RejectedContributeNothing(c, b, provider, init, now);
      var kept := Accepted(c, b, provider, init, now);
      var all := kept + [last];
      assert all[..|all| - 1] == kept && all[|all| - 1] == last;
      assert Accepted(c, b, provider, events, now)
             == if Apply(c, ApplyAll(c, b, provider, init, now).b, provider, last, now).Applied? then all else kept;
    }
  }

  // ---------------------------------------------------------------- what each kind of event does to the rows

  lemma {:induction false} OrgOfRefIs(subs: seq<Sub>, ref: string, org: int)
    ensures OrgOfRef(subs, ref) == Some(org)
            <==> exists i :: 0 <= i < |subs| && subs[i].ref == Some(ref) && subs[i].org == org && forall j | 0 <= j < i :: subs[j].ref != Some(ref)
    decreases |subs|
  {
    if subs != [] {
      var rest := subs[1..];
      OrgOfRefIs(rest, ref, org);
      if subs[0].ref != Some(ref) {
        if i :| 0 <= i < |rest| && rest[i].ref == Some(ref) && rest[i].org == org && forall j | 0 <= j < i :: rest[j].ref != Some(ref) {
          assert subs[i + 1] == rest[i] && forall j | 0 <= j < i + 1 :: j > 0 ==> subs[j] == rest[j - 1];
        }
        if i :| 0 <= i < |subs| && subs[i].ref == Some(ref) && subs[i].org == org && forall j | 0 <= j < i :: subs[j].ref != Some(ref) {
          assert rest[i - 1] == subs[i] && forall j | 0 <= j < i - 1 :: rest[j] == subs[j + 1];
        }
      }
    }
  }

  /** Whose event it is: the known customer's, else the oldest subscription's that carries the reference. */
  lemma OrgForIs(c: Context, b: Billing, e: Event, org: int)
    ensures OrgFor(c, b, e) == Some(org) <==>
              if e.customer.Some? && e.customer.value in c.customers then c.customers[e.customer.value] == org
              else e.subRef.Some? && exists i :: 0 <= i < |b.subs| && b.subs[i].ref == e.subRef && b.subs[i].org == org
                                                 && forall j | 0 <= j < i :: b.subs[j].ref != e.subRef
  {
    if e.subRef.Some? { OrgOfRefIs(b.subs, e.subRef.value, org); }
  }

  predicate IsStatusKind(k: Kind) {
    k.Activated? || k.Created? || k.TrialEnded? || k.Updated? || k.CanceledByProvider? || k.PastDueByProvider?
  }

  /** The events that do nothing: of nobody known, of a kind not handled, about the status of an organization
      without a current subscription, about an invoice without an id, or a checkout without a plan. */
  lemma NothingToDo(c: Context, b: Billing, provider: string, e: Event, now: int)
    requires || OrgFor(c, b, e).None?
             || e.kind.Other?
             || (IsStatusKind(e.kind) && forall i :: !IsCurrent(b.subs, OrgFor(c, b, e).value, i))
             || ((e.kind.InvoicePaid? || e.kind.InvoiceCreated? || e.kind.InvoiceFailed?) && e.invoice in {None, Some("")})
             || (e.kind.CheckoutCompleted? && e.plan in {None, Some("")})
    ensures Apply(c, b, provider, e, now) == Applied(b)
  {
  }

  /** Row `i` has the status and the event's period end, if it has one; every other row and field is as it was. */
  function WithStatus(b: Billing, i: nat, status: Status, e: Event): Billing
    requires i < |b.subs|
  {
    b.(subs := b.subs[i := b.subs[i].(status := status, end := if e.periodEnd.Some? then e.periodEnd.value else b.subs[i].end)])
  }

  /** What a status event does to the organization's current subscription: a cancellation cancels it, a
      missed payment makes it past due, an activation, creation or end of trial activates it, and those are
      never rejected; an update gives it the status it names, or `Active`, and is rejected for a word the
      table does not know, for a trial gone unpaid and for a started subscription gone back. */
  lemma StatusEventIsExact(c: Context, b: Billing, provider: string, e: Event, now: int, org: int, i: nat)
    requires OrgFor(c, b, e) == Some(org) && IsCurrent(b.subs, org, i) && OnePerOrg(b.subs)
    ensures var r, was := Apply(c, b, provider, e, now), b.subs[i].status;
            && (e.kind.CanceledByProvider? ==> r == Applied(WithStatus(b, i, Canceled, e)))
            && (e.kind.PastDueByProvider? ==> r == Applied(WithStatus(b, i, PastDue, e)))
            && (e.kind.Activated? || e.kind.Created? || e.kind.TrialEnded? || e.kind == Updated(None) ==> r == Applied(WithStatus(b, i, Active, e)))
            && (e.kind.Updated? && e.kind.status.Some? ==>
                  var named := e.kind.status.value;
                  r == if named.Unknown? || (was == Trialing && named == Unpaid) || (was != Trialing && named in {Trialing, Incomplete})
                       then Rejected else Applied(WithStatus(b, i, named, e)))
  {
    assert Current(b.subs, org) == Some(i);
  }

  /** An invoice event leaves the provider's one row under its id with the event's status and amount (none
      is zero); the payment time is the event's on payment and kept otherwise, the organization is the one
      it was first recorded for, and every other row is as it was. */
  lemma InvoiceEventIsExact(c: Context, b: Billing, provider: string, e: Event, now: int, org: int)
    requires OrgFor(c, b, e) == Some(org) && e.invoice.Some? && e.invoice.value != ""
    requires e.kind.InvoicePaid? || e.kind.InvoiceCreated? || e.kind.InvoiceFailed?
    ensures var r, key := Apply(c, b, provider, e, now), (provider, e.invoice.value);
            && r.Applied? && r.b == b.(invoices := r.b.invoices)
            && key in r.b.invoices && r.b.invoices.Keys == b.invoices.Keys + {key}
            && (forall k | k in b.invoices && k != key :: r.b.invoices[k] == b.invoices[k])
            && var row := r.b.invoices[key];
            && (e.kind.InvoicePaid? ==> row.status == Paid && row.paidAt == Some(e.occurred))
            && (e.kind.InvoiceCreated? ==> row.status == Open)
            && (e.kind.InvoiceFailed? ==> row.status == Uncollectible)
            && (!e.kind.InvoicePaid? ==> row.paidAt == if key in b.invoices then b.invoices[key].paidAt else None)
            && row.total == (if e.amount.Some? then e.amount.value else 0)
            && row.org == if key in b.invoices then b.invoices[key].org else org
  {
  }

  /** Some other subscription already carries the reference at the checkout's provider. */
  ghost predicate RefTaken(c: Context, b: Billing, i: Option<nat>, ref: Option<string>) {
    ref.Some? && exists j :: 0 <= j < |b.subs| && Some(j) != i && b.subs[j].ref == ref && b.subs[j].provider == Some(c.checkoutProvider)
  }

  /** Putting an active row in the place of the current one, or at the end, breaks the constraints only
      when its reference is taken. */
  lemma PlacedHolds(c: Context, b: Billing, row: Sub)
    requires Constraints(b.subs) && row.status == Active && row.provider == Some(c.checkoutProvider)
    ensures Constraints(Placed(b.subs, Current(b.subs, row.org), row)) <==> !RefTaken(c, b, Current(b.subs, row.org), row.ref)
  {
    var i := Current(b.subs, row.org);
    var subs' := Placed(b.subs, i, row);
    var at := if i.Some? then i.value else |b.subs|;
    assert forall j | 0 <= j < |b.subs| && j != at && b.subs[j].org == row.org :: !Occupies(b.subs[j].status) by {
      assert forall j | 0 <= j < |b.subs| && b.subs[j].org == row.org && Occupies(b.subs[j].status) :: IsCurrent(b.subs, row.org, j);
    }
    assert OnePerOrg(subs');
    if RefTaken(c, b, i, row.ref) {
      var j :| 0 <= j < |b.subs| && Some(j) != i && b.subs[j].ref == row.ref && b.subs[j].provider == Some(c.checkoutProvider);
      assert subs'[j] == b.subs[j] && subs'[at] == row && j != at;
    } else {
      forall j, k | 0 <= j < |subs'| && 0 <= k < |subs'| && subs'[j].ref.Some? && subs'[j].provider.Some?
                    && subs'[j].ref == subs'[k].ref && subs'[j].provider == subs'[k].provider ensures j == k
      {
        assert j != at ==> subs'[j] == b.subs[j];
        assert k != at ==> subs'[k] == b.subs[k];
        assert j != at ==> Some(j) != i;
        assert k != at ==> Some(k) != i;
      }
    }
  }

  /** A checkout leaves the organization with one current subscription, active on the plan from now on: its
      current row switched, or a new row without one. It is rejected for an unknown plan, fails when another
      subscription carries the reference, and writes the invoice of a plan that costs. */
  lemma CheckoutIsExact(c: Context, b: Billing, provider: string, e: Event, now: int, org: int)
    requires OrgFor(c, b, e) == Some(org) && e.kind.CheckoutCompleted? && e.plan.Some? && e.plan.value != "" && Constraints(b.subs)
    ensures var r := Apply(c, b, provider, e, now);
            && (r == Rejected <==> e.plan.value !in c.plans)
            && (e.plan.value in c.plans ==>
                  var plan, current := c.plans[e.plan.value], Current(b.subs, org);
                  var i, n := if current.Some? then current.value else |b.subs|, |b.subs|;
                  var ref := if e.subRef.Some? || current.None? then e.subRef else b.subs[i].ref;
                  && (r == Crashed <==> RefTaken(c, b, current, ref))
                  && (r.Applied? ==>
                        && r.b.invoices == b.invoices && r.b.own == b.own + (if plan.price > 0 then [(org, plan.price)] else [])
                        && |r.b.subs| == (if current.Some? then n else n + 1) && Current(r.b.subs, org) == Some(i)
                        && (forall j | 0 <= j < n && j != i :: r.b.subs[j] == b.subs[j])
                        && r.b.subs[i] == Sub(org, Active, plan.key, now, now + (if plan.yearly then 365 else 30) * 86_400_000_000,
                                              if current.Some? then b.subs[i].trialEnds else None, false, None, Some(c.checkoutProvider), ref)))
  {
    if e.plan.value in c.plans {
      var plan, current := c.plans[e.plan.value], Current(b.subs, org);
      var ref := if e.subRef.Some? || current.None? then e.subRef else b.subs[current.value].ref;
      var row := Sub(org, Active, plan.key, now, now + IntervalOf(plan), if current.Some? then b.subs[current.value].trialEnds else None,
                     false, None, Some(c.checkoutProvider), ref);
      PlacedHolds(c, b, row);
      CheckoutPlaces(c, b, provider, e, now, org, row);
      if Constraints(Placed(b.subs, current, row)) { PlacedLeaves(b.subs, row, Flush(Placed(b.subs, current, row))); }
    }
  }

  lemma CheckoutPlaces(c: Context, b: Billing, provider: string, e: Event, now: int, org: int, row: Sub)
    requires OrgFor(c, b, e) == Some(org) && e.kind.CheckoutCompleted? && e.plan.Some? && e.plan.value != "" && e.plan.value in c.plans
    requires var current := Current(b.subs, org);
             row == Sub(org, Active, c.plans[e.plan.value].key, now, now + IntervalOf(c.plans[e.plan.value]),
                        if current.Some? then b.subs[current.value].trialEnds else None, false, None, Some(c.checkoutProvider),
                        if e.subRef.Some? || current.None? then e.subRef else b.subs[current.value].ref)
    ensures var plan := c.plans[e.plan.value]; var subs' := Placed(b.subs, Current(b.subs, org), row);
            Apply(c, b, provider, e, now)
            == if Constraints(subs') then Applied(b.(subs := subs', own := b.own + if plan.price > 0 then [(org, plan.price)] else [])) else Crashed
  {
    assert b.own + [] == b.own;
    assert ChangePlan(b.subs, org, Some(c.plans[e.plan.value]), Some(c.checkoutProvider), e.subRef, false, now)
           == Flush(Placed(b.subs, Current(b.subs, org), row));
  }

  /** A delivery of one event that is new and does not fail: the event's effect and one ledger row that
      counts it, or nothing at all when the event crashes. */
  lemma OneEventDelivery(c: Context, s: State, d: Delivery, e: Event)
    requires d.payload == Some([e]) && d.fault.None? && Key(d) !in s.ledger
    ensures match Apply(c, s.billing, d.provider, e, d.now)
            case Applied(b) => Handle(c, s, d) == State(s.ledger[Key(d) := Processed(1, 0)], b)
            case Rejected => Handle(c, s, d) == State(s.ledger[Key(d) := Processed(0, 1)], s.billing)
            case Crashed => Handle(c, s, d) == s && Judge(c, s, d) == Failed
  {
    assert [e][..0] == [];
    assert ApplyAll(c, s.billing, d.provider, [], d.now) == Ended(s.billing, 0, 0);
  }

  // ---------------------------------------------------------------- subscriptions under ingest

  ghost predicate Advances(subs: seq<Sub>, subs': seq<Sub>) {
    Constraints(subs') && |subs| <= |subs'| && forall i | 0 <= i < |subs| :: RowStep(subs[i], subs'[i])
  }

  lemma StatusAdvances(b: Billing, org: int, target: Status, e: Event)
    requires Constraints(b.subs) && ApplyStatus(b, org, target, e).Applied?
    ensures Advances(b.subs, ApplyStatus(b, org, target, e).b.subs)
  {
    StepFollowsTheTable(b.subs, ProviderCmd(org, target, e.periodEnd));
  }

  lemma CheckoutAdvances(c: Context, b: Billing, org: int, e: Event, now: int)
    requires Constraints(b.subs) && Checkout(c, b, org, e, now).Applied?
    ensures Advances(b.subs, Checkout(c, b, org, e, now).b.subs)
  {
    if e.plan.Some? && e.plan.value in c.plans {
      StepFollowsTheTable(b.subs, ChangeCmd(org, Some(c.plans[e.plan.value]), Some(c.checkoutProvider), e.subRef, false, now));
    }
  }

  lemma ApplyAdvances(c: Context, b: Billing, provider: string, e: Event, now: int)
    requires Constraints(b.subs) && Apply(c, b, provider, e, now).Applied?
    ensures Advances(b.subs, Apply(c, b, provider, e, now).b.subs)
  {
    if org :| OrgFor(c, b, e) == Some(org) {
      match e.kind
      case Activated => StatusAdvances(b, org, Active, e);
      case Created => StatusAdvances(b, org, Active, e);
      case TrialEnded => StatusAdvances(b, org, Active, e);
      case Updated(s) => StatusAdvances(b, org, if s.Some? then s.value else Active, e);
      case CanceledByProvider => StatusAdvances(b, org, Canceled, e);
      case PastDueByProvider => StatusAdvances(b, org, PastDue, e);
      case CheckoutCompleted => CheckoutAdvances(c, b, org, e, now);
      case _ =>
    }
  }

  lemma {:induction false} BatchKeepsConstraints(c: Context, b: Billing, provider: string, events: seq<Event>, now: int, i: nat)
    requires Constraints(b.subs) && ApplyAll(c, b, provider, events, now).Ended?
    ensures var subs' := ApplyAll(c, b, provider, events, now).b.subs;
            && Constraints(subs') && |b.subs| <= |subs'|
            && (i < |b.subs| && !Occupies(b.subs[i].status) ==> subs'[i] == b.subs[i])
    decreases |events|
  {
    if events != [] {
      var init := events[..|events| - 1];
      BatchKeepsConstraints(c, b, provider, init, now, i);
      var b1 := ApplyAll(c, b, provider, init, now).b;
      if Apply(c, b1, provider, events[|events| - 1], now).Applied? {
        ApplyAdvances(c, b1, provider, events[|events| - 1], now);
      }
    }
  }

  /** No sequence of deliveries gives an organization two occupying subscriptions, or brings a
      subscription back that had left. */
  lemma {:induction false} IngestKeepsConstraints(c: Context, s: State, ds: seq<Delivery>, i: nat)
    requires Constraints(s.billing.subs)
    ensures var subs' := After(c, s, ds).billing.subs;
            && Constraints(subs') && |s.billing.subs| <= |subs'|
            && (i < |s.billing.subs| && !Occupies(s.billing.subs[i].status) ==> subs'[i] == s.billing.subs[i])
    decreases |ds|
  {
    if ds != [] {
      var d := ds[0];
      if Judge(c, s, d).Recorded? && d.payload.Some? {
        BatchKeepsConstraints(c, s.billing, d.provider, d.payload.value, d.now, i);
      }
      IngestKeepsConstraints(c, Handle(c, s, d), ds[1..], i);
    }
  }

  // ---------------------------------------------------------------- the service

  lemma {:induction false} AbortedStays(c: Context, b: Billing, provider: string, events: seq<Event>, now: int, i: nat)
    requires i <= |events| && ApplyAll(c, b, provider, events[..i], now).Aborted?
    ensures ApplyAll(c, b, provider, events, now).Aborted?
    decreases |events|
  {
    if i < |events| {
      assert events[..|events| - 1][..i] == events[..i];
      AbortedStays(c, b, provider, events[..|events| - 1], now, i);
    } else {
      assert events[..i] == events;
    }
  }

  class BillingWebhookService {
    const c: Context
    var ledger: map<(string, string), Entry>
    var subs: seq<Sub>
    var invoices: map<(string, string), ProviderInvoice>
    var own: seq<(int, int)>

    constructor (c: Context, s: State)
      ensures this.c == c && Rows() == s
    {
      this.c := c;
      ledger, subs, invoices, own := s.ledger, s.billing.subs, s.billing.invoices, s.billing.own;
    }

    function BillingRows(): Billing reads this { Billing(subs, invoices, own) }

    function Rows(): State reads this { State(ledger, BillingRows()) }

    method Restore(b: Billing)
      modifies this`subs, this`invoices, this`own
      ensures BillingRows() == b
    {
      subs, invoices, own := b.subs, b.invoices, b.own;
    }

    /** Move the organization's current subscription along the table, if it has one. */
    method SetStatus(org: int, target: Status, e: Event) returns (ok: bool)
      modifies this`subs
      ensures ApplyStatus(old(BillingRows()), org, target, e) == if ok then Applied(BillingRows()) else Rejected
      ensures !ok ==> subs == old(subs)
    {
      var current := FindCurrent(subs, org);
      if current.None? { return true; }
      var i := current.value;
      if !CanTransition(subs[i].status, target) { return false; }
      subs := subs[i := subs[i].(status := target)];
      if e.periodEnd.Some? { subs := subs[i := subs[i].(end := e.periodEnd.value)]; }
      ok := true;
    }

    /** Insert the provider's invoice or overwrite the one it sent before. */
    method PutInvoice(provider: string, org: int, status: InvoiceStatus, e: Event)
      modifies this`invoices
      ensures UpsertInvoice(old(BillingRows()), provider, org, status, e) == Applied(BillingRows())
    {
      if e.invoice.None? || e.invoice.value == "" { return; }
      var key := (provider, e.invoice.value);
      var row := if key in invoices then invoices[key] else ProviderInvoice(org, 0, Open, None);
      row := row.(total := if e.amount.Some? then e.amount.value else 0, status := status);
      if status.Paid? { row := row.(paidAt := Some(e.occurred)); }
      invoices := invoices[key := row];
    }

    /** Put the organization on the plan that was paid for, and write the invoice of it. */
    method CompleteCheckout(org: int, e: Event, now: int) returns (r: Result)
      modifies this`subs, this`own
      ensures r == Checkout(c, old(BillingRows()), org, e, now)
      ensures BillingRows() == if r.Applied? then r.b else old(BillingRows())
    {
      if e.plan.None? || e.plan.value == "" { return Applied(BillingRows()); }
      if e.plan.value !in c.plans { return Rejected; }
      var plan := c.plans[e.plan.value];
      var current := FindCurrent(subs, org);
      var before := subs;
      if current.None? {
        subs := subs + [Sub(org, Active, plan.key, now, now + IntervalOf(plan), None, false, None, Some(c.checkoutProvider), e.subRef)];
      } else {
        subs := subs[current.value := Switched(subs[current.value], plan, Some(c.checkoutProvider), e.subRef, false, now)];
      }
      if !Constraints(subs) {
        subs := before;
        return Crashed;
      }
      if plan.price > 0 { own := own + [(org, plan.price)]; }
      r := Applied(BillingRows());
    }

    /** One event inside its savepoint: an event that is rejected or crashes leaves the rows alone. */
    method ApplyEvent(provider: string, e: Event, now: int) returns (r: Result)
      modifies this`subs, this`invoices, this`own
      ensures r == Apply(c, old(BillingRows()), provider, e, now)
      ensures BillingRows() == if r.Applied? then r.b else old(BillingRows())
    {
      var org := OrgFor(c, BillingRows(), e);
      if org.None? || e.kind.Other? { return Applied(BillingRows()); }
      var o, ok := org.value, true;
      match e.kind {
        case Activated => ok := SetStatus(o, Active, e);
        case Created => ok := SetStatus(o, Active, e);
        case TrialEnded => ok := SetStatus(o, Active, e);
        case Updated(s) => ok := SetStatus(o, if s.Some? then s.value else Active, e);
        case CanceledByProvider => ok := SetStatus(o, Canceled, e);
        case PastDueByProvider => ok := SetStatus(o, PastDue, e);
        case InvoicePaid => PutInvoice(provider, o, Paid, e);
        case InvoiceCreated => PutInvoice(provider, o, Open, e);
        case InvoiceFailed => PutInvoice(provider, o, Uncollectible, e);
        case CheckoutCompleted =>
          r := CompleteCheckout(o, e, now);
          return;
        case Other =>
      }
      r := if ok then Applied(BillingRows()) else Rejected;
    }

    /** The batch, up to its end, a crash or the infrastructure's failure at event `fault - 1`. */
    method ApplyEvents(provider: string, events: seq<Event>, now: int, fault: Option<nat>) returns (ended: bool, applied: nat, rejected: nat)
      modifies this`subs, this`invoices, this`own
      ensures ended ==> ApplyAll(c, old(BillingRows()), provider, events, now) == Ended(BillingRows(), applied, rejected)
      ensures !ended ==> fault.Some? || ApplyAll(c, old(BillingRows()), provider, events, now).Aborted?
    {
      applied, rejected := 0, 0;
      var i := 0;
      while i < |events|
        invariant 0 <= i <= |events|
        invariant ApplyAll(c, old(BillingRows()), provider, events[..i], now) == Ended(BillingRows(), applied, rejected)
      {
        assert events[..i + 1][..i] == events[..i] && events[..i + 1][i] == events[i];
        var r := ApplyEvent(provider, events[i], now);
        if fault == Some(i + 1) { return false, applied, rejected; }
        if r.Crashed? {
          AbortedStays(c, old(BillingRows()), provider, events, now, i + 1);
          return false, applied, rejected;
        }
        if r.Applied? { applied := applied + 1; } else { rejected := rejected + 1; }
        i := i + 1;
      }
      assert events[..i] == events;
      ended := true;
    }

    method HandleDelivery(d: Delivery) returns (a: Answer)
      modifies this
      ensures a == Judge(c, old(Rows()), d) && Rows() == Handle(c, old(Rows()), d)
    {
      var before := Rows();
      if d.fault == Some(0) { return Failed; }
      if Key(d) in ledger {
        return if d.fault.Some? then Failed else Duplicate;
      }
      ledger := ledger[Key(d) := Unprocessable];
      var ended := true;
      if d.payload.Some? {
        var applied, rejected;
        ended, applied, rejected := ApplyEvents(d.provider, d.payload.value, d.now, d.fault);
        ledger := ledger[Key(d) := Processed(applied, rejected)];
      }
      if !ended || d.fault.Some? {
        ledger := before.ledger;
        Restore(before.billing);
        return Failed;
      }
      assert ledger == before.ledger[Key(d) := ledger[Key(d)]];
      a := Recorded(ledger[Key(d)]);
    }
  }
}
