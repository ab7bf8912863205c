/**
 Concurrent metering transactions. A statement that reserves a key waits while another open
 transaction holds that key, and one that counts waits while another holds that counter row;
 both are held until commit or abort. Every interleaving commits exactly what some one-at-a-time
 execution of the committed scripts would.
 */
module MeteringConcurrency {
  import opened Wrappers
  import opened Metering

  datatype Txn = Txn(script: seq<Request>, own: Tables, l: Local, n: nat)

  datatype Done = Done(script: seq<Request>, out: seq<Response>)

  datatype System = System(base: Tables, txns: map<nat, Txn>, history: seq<Done>)

  datatype Step = Begin(tid: nat, script: seq<Request>) | Exec(tid: nat) | Commit(tid: nat) | Abort(tid: nat)

  const START := System(EMPTY, map[], [])

  /** Another open transaction holds the row the next statement of `tid` needs. */
  predicate Blocked(s: System, tid: nat)
    requires tid in s.txns && Running(s.txns[tid].l)
  {
    var l := s.txns[tid].l;
    var r := l.todo[0];
    exists o | o in s.txns && o != tid ::
      || (l.pc.Idle? && r.key.Some? && LedgerKey(r.org, r.key.value) in s.txns[o].own.ledger)
      || (l.pc.Inserted? && r.B() in s.txns[o].own.counters)
  }

  predicate Enabled(kinds: Kinds, s: System, t: Step) {
    match t
    case Begin(tid, _) => tid !in s.txns
    case Exec(tid) => tid in s.txns && Running(s.txns[tid].l) && !Blocked(s, tid)
    case Commit(tid) => tid in s.txns && s.txns[tid].l.failed.None? && s.txns[tid].l.todo == []
    case Abort(tid) => tid in s.txns
  }

  /** One statement of a transaction, seen over the tables committed at that moment. */
  function Stepped(kinds: Kinds, base: Tables, x: Txn): Txn
    requires Running(x.l)
  {
    var view := Over(base, x.own);
    x.(own := Apply(x.own, MicroWrite(kinds, view, x.l)), l := MicroLocal(kinds, view, x.l), n := x.n + 1)
  }

  function Next(kinds: Kinds, s: System, t: Step): System
    requires Enabled(kinds, s, t)
  {
    match t
    case Begin(tid, script) => s.(txns := s.txns[tid := Txn(script, EMPTY, Begun(script), 0)])
    case Exec(tid) => s.(txns := s.txns[tid := Stepped(kinds, s.base, s.txns[tid])])
    case Commit(tid) =>
      var x := s.txns[tid];
      System(Over(s.base, x.own), s.txns - {tid}, s.history + [Done(x.script, x.l.out)])
    case Abort(tid) => s.(txns := s.txns - {tid})
  }

  // ---------------------------------------------------------------- one at a time

  /** The committed scripts, served one after another. */
  function Scripts(history: seq<Done>): seq<Request> {
    if history == [] then [] else Scripts(history[..|history| - 1]) + history[|history| - 1].script
  }

  function Answers(history: seq<Done>): seq<Response> {
    if history == [] then [] else Answers(history[..|history| - 1]) + history[|history| - 1].out
  }

  lemma ServeAllCons(kinds: Kinds, t: Tables, r: Request, rest: seq<Request>)
    requires Serve(kinds, t, r).Ok? && ServeAll(kinds, Serve(kinds, t, r).value.0, rest).Ok?
    ensures var first := Serve(kinds, t, r).value;
            var others := ServeAll(kinds, first.0, rest).value;
            ServeAll(kinds, t, [r] + rest) == Ok((others.0, [first.1] + others.1))
  {
    assert ([r] + rest)[1..] == rest;
  }

  lemma {:induction false} ServeAllConcat(kinds: Kinds, t: Tables, a: seq<Request>, b: seq<Request>)
    requires ServeAll(kinds, t, a).Ok? && ServeAll(kinds, ServeAll(kinds, t, a).value.0, b).Ok?
    ensures var first := ServeAll(kinds, t, a).value;
            var second := ServeAll(kinds, first.0, b).value;
            ServeAll(kinds, t, a + b) == Ok((second.0, first.1 + second.1))
    decreases |a|
  {
    if a == [] {
      assert a + b == b;
      assert [] + ServeAll(kinds, t, b).value.1 == ServeAll(kinds, t, b).value.1;
    } else {
      var t1 := Serve(kinds, t, a[0]).value;
      ServeAllConcat(kinds, t1.0, a[1..], b);
      ServeAllCons(kinds, t, a[0], a[1..] + b);
      assert a + b == [a[0]] + (a[1..] + b);
      var first := ServeAll(kinds, t1.0, a[1..]).value;
      var second := ServeAll(kinds, first.0, b).value;
      assert ([t1.1] + first.1) + second.1 == [t1.1] + (first.1 + second.1);
    }
  }

  // ---------------------------------------------------------------- invariant

  ghost predicate Holds(s: System, kinds: Kinds, tid: nat)
    requires tid in s.txns
  {
    var x := s.txns[tid];
    && Micros(kinds, s.base, EMPTY, Begun(x.script), x.n) == (x.own, x.l)
    && x.own.ledger.Keys !! s.base.ledger.Keys
  }

  ghost predicate Apart(a: Tables, b: Tables) {
    a.counters.Keys !! b.counters.Keys && a.ledger.Keys !! b.ledger.Keys
  }

  ghost predicate Inv(kinds: Kinds, s: System) {
    && ServeAll(kinds, EMPTY, Scripts(s.history)) == Ok((s.base, Answers(s.history)))
    && (forall tid | tid in s.txns :: Holds(s, kinds, tid) && PcOk(s.txns[tid]))
    && (forall i, j | i in s.txns && j in s.txns && i != j :: Apart(s.txns[i].own, s.txns[j].own))
  }

  /** Inside a request its key is already reserved; between requests nothing is half done. */
  ghost predicate PcOk(x: Txn) {
    if x.l.todo == [] then x.l.pc.Idle?
    else !x.l.pc.Idle? && x.l.todo[0].key.Some? ==> LedgerKey(x.l.todo[0].org, x.l.todo[0].key.value) in x.own.ledger
  }

  lemma OverNothing(base: Tables)
    ensures Over(base, EMPTY) == base
  {
    assert base.events + [] == base.events;
  }

  lemma StatementKeepsPlace(kinds: Kinds, base: Tables, x: Txn)
    requires Running(x.l) && PcOk(x) && x.own.ledger.Keys !! base.ledger.Keys
    ensures PcOk(Stepped(kinds, base, x))
    ensures Stepped(kinds, base, x).own.ledger.Keys !! base.ledger.Keys
  {
    var r := x.l.todo[0];
    var x' := Stepped(kinds, base, x);
    match x.l.pc
    case Idle => if r.key.Some? && MetricError(kinds, r.metric).None? && !Known(Over(base, x.own), r) {
        assert LedgerKey(r.org, r.key.value) !in base.ledger;
      }
    case Reserved =>
    case Inserted =>
    case Incremented(_) => assert x'.own.ledger.Keys == x.own.ledger.Keys;
  }

  lemma ExecHolds(kinds: Kinds, s: System, tid: nat)
    requires Inv(kinds, s) && Enabled(kinds, s, Exec(tid))
    ensures var s' := Next(kinds, s, Exec(tid)); Holds(s', kinds, tid) && PcOk(s'.txns[tid])
  {
    var x := s.txns[tid];
    assert Holds(s, kinds, tid) && PcOk(x);
    MicrosSnoc(kinds, s.base, EMPTY, Begun(x.script), x.n);
    StatementKeepsPlace(kinds, s.base, x);
    assert Next(kinds, s, Exec(tid)).txns[tid] == Stepped(kinds, s.base, x);
  }

  /** The statement's lock keeps its row away from every other open transaction. */
  lemma ExecApart(kinds: Kinds, s: System, tid: nat, o: nat)
    requires Inv(kinds, s) && Enabled(kinds, s, Exec(tid)) && o in s.txns && o != tid
    ensures Apart(Next(kinds, s, Exec(tid)).txns[tid].own, s.txns[o].own)
  {
    var x := s.txns[tid];
    assert Apart(x.own, s.txns[o].own) && PcOk(x);
    var w := MicroWrite(kinds, Over(s.base, x.own), x.l);
    if w.SetLedger? && x.l.pc.Incremented? {
      assert w.lk in x.own.ledger;
      assert Apply(x.own, w).ledger.Keys == x.own.ledger.Keys;
    } else if w.SetLedger? {
      assert w.lk !in s.txns[o].own.ledger;
    } else if w.SetCounter? {
      assert w.b !in s.txns[o].own.counters;
    }
  }

  lemma ExecKeeps(kinds: Kinds, s: System, tid: nat)
    requires Inv(kinds, s) && Enabled(kinds, s, Exec(tid))
    ensures Inv(kinds, Next(kinds, s, Exec(tid)))
  {
    var s' := Next(kinds, s, Exec(tid));
    ExecHolds(kinds, s, tid);
    forall o | o in s.txns && o != tid
      ensures Apart(s'.txns[tid].own, s'.txns[o].own) && Apart(s'.txns[o].own, s'.txns[tid].own)
    {
      ExecApart(kinds, s, tid, o);
    }
    forall o | o in s'.txns ensures Holds(s', kinds, o) && PcOk(s'.txns[o]) {
      if o != tid { assert Holds(s, kinds, o) && PcOk(s.txns[o]); }
    }
  }

  lemma CommitServes(kinds: Kinds, s: System, tid: nat)
    requires Inv(kinds, s) && Enabled(kinds, s, Commit(tid))
    ensures ServeAll(kinds, s.base, s.txns[tid].script) == Ok((Over(s.base, s.txns[tid].own), s.txns[tid].l.out))
  {
    var x := s.txns[tid];
    assert Holds(s, kinds, tid) && PcOk(x);
    OverNothing(s.base);
    MicrosServe(kinds, s.base, EMPTY, Begun(x.script), x.n);
    assert [] + ServeAll(kinds, s.base, x.script).value.1 == ServeAll(kinds, s.base, x.script).value.1;
  }

  lemma CommitKeeps(kinds: Kinds, s: System, tid: nat)
    requires Inv(kinds, s) && Enabled(kinds, s, Commit(tid))
    ensures Inv(kinds, Next(kinds, s, Commit(tid)))
  {
    var s' := Next(kinds, s, Commit(tid));
    var x := s.txns[tid];
    CommitServes(kinds, s, tid);
    assert s'.history[..|s'.history| - 1] == s.history;
    ServeAllConcat(kinds, EMPTY, Scripts(s.history), x.script);
    forall o | o in s'.txns ensures Holds(s', kinds, o) && PcOk(s'.txns[o]) {
      assert Holds(s, kinds, o) && PcOk(s.txns[o]) && Holds(s, kinds, tid) && Apart(s.txns[o].own, x.own);
      CommitsCommute(kinds, s.base, x.own, EMPTY, Begun(s.txns[o].script), s.txns[o].n);
    }
  }

  lemma StepKeeps(kinds: Kinds, s: System, t: Step)
    requires Inv(kinds, s) && Enabled(kinds, s, t)
    ensures Inv(kinds, Next(kinds, s, t))
  {
    match t
    case Exec(tid) => ExecKeeps(kinds, s, tid);
    case Commit(tid) => CommitKeeps(kinds, s, tid);
    case _ =>
      var s' := Next(kinds, s, t);
      forall o | o in s'.txns ensures Holds(s', kinds, o) && PcOk(s'.txns[o]) {
        if o in s.txns { assert Holds(s, kinds, o) && PcOk(s.txns[o]); }
      }
  }

  // ---------------------------------------------------------------- runs

  ghost predicate Run(kinds: Kinds, s: System, steps: seq<Step>)
    decreases |steps|
  {
    steps == [] || (Enabled(kinds, s, steps[0]) && Run(kinds, Next(kinds, s, steps[0]), steps[1..]))
  }

  ghost function After(kinds: Kinds, s: System, steps: seq<Step>): System
    requires Run(kinds, s, steps)
    decreases |steps|
  {
    if steps == [] then s else After(kinds, Next(kinds, s, steps[0]), steps[1..])
  }

  lemma {:induction false} RunKeeps(kinds: Kinds, s: System, steps: seq<Step>)
    requires Inv(kinds, s) && Run(kinds, s, steps)
    ensures Inv(kinds, After(kinds, s, steps))
    decreases |steps|
  {
    if steps != [] {
      StepKeeps(kinds, s, steps[0]);
      RunKeeps(kinds, Next(kinds, s, steps[0]), steps[1..]);
    }
  }

  /** Under any interleaving with waits, aborts and commits, the committed tables and every answer
      given are those of serving the committed scripts one at a time in commit order. */
  lemma Serializable(kinds: Kinds, steps: seq<Step>)
    requires Run(kinds, START, steps)
    ensures var s := After(kinds, START, steps);
            ServeAll(kinds, EMPTY, Scripts(s.history)) == Ok((s.base, Answers(s.history)))
  {
    RunKeeps(kinds, START, steps);
  }

  /** A refused transaction would also be refused if it ran alone against the committed tables. */
  lemma RefusalIsJust(kinds: Kinds, steps: seq<Step>, tid: nat)
    requires Run(kinds, START, steps)
    requires tid in After(kinds, START, steps).txns && After(kinds, START, steps).txns[tid].l.failed.Some?
    ensures var s := After(kinds, START, steps);
            ServeAll(kinds, s.base, s.txns[tid].script) == Err(s.txns[tid].l.failed.value)
  {
    RunKeeps(kinds, START, steps);
    var s := After(kinds, START, steps);
    assert Holds(s, kinds, tid);
    OverNothing(s.base);
    MicrosServe(kinds, s.base, EMPTY, Begun(s.txns[tid].script), s.txns[tid].n);
  }

  /** Committed counters are the sums of the committed events, and each key has at most one event. */
  lemma CommittedCountersAreSums(kinds: Kinds, steps: seq<Step>)
    requires Run(kinds, START, steps)
    ensures var t := After(kinds, START, steps).base;
            && (forall b :: Total(t, b) == Sum(t.events, b))
            && (forall lk :: Uses(t.events, lk) <= 1)
            && (forall lk | lk in t.ledger :: t.ledger[lk].total.Some?)
  {
    Serializable(kinds, steps);
    var s := After(kinds, START, steps);
    ServeAllIsSound(kinds, EMPTY, Scripts(s.history));
    forall lk ensures Uses(s.base.events, lk) <= 1 {
      if lk in s.base.ledger {} else {}
    }
  }

  ghost predicate Scripted(steps: seq<Step>, b: Bucket, cap: int) {
    forall i | 0 <= i < |steps| && steps[i].Begin? ::
      HeldTo(steps[i].script, b, cap) && forall k | 0 <= k < |steps[i].script| :: steps[i].script[k].quantity >= 1
  }

  ghost predicate Capped(rs: seq<Request>, b: Bucket, cap: int) {
    HeldTo(rs, b, cap) && forall i | 0 <= i < |rs| :: rs[i].quantity >= 1
  }

  lemma CappedConcat(a: seq<Request>, c: seq<Request>, b: Bucket, cap: int)
    requires Capped(a, b, cap) && Capped(c, b, cap)
    ensures Capped(a + c, b, cap)
  {
  }

  lemma {:induction false} HistoryCapped(kinds: Kinds, s: System, steps: seq<Step>, b: Bucket, cap: int)
    requires Run(kinds, s, steps) && Scripted(steps, b, cap)
    requires Capped(Scripts(s.history), b, cap) && forall tid | tid in s.txns :: Capped(s.txns[tid].script, b, cap)
    ensures Capped(Scripts(After(kinds, s, steps).history), b, cap)
    decreases |steps|
  {
    if steps != [] {
      var s' := Next(kinds, s, steps[0]);
      if steps[0].Commit? {
        assert s'.history[..|s'.history| - 1] == s.history;
        CappedConcat(Scripts(s.history), s.txns[steps[0].tid].script, b, cap);
      }
      assert Scripted(steps[1..], b, cap);
      HistoryCapped(kinds, s', steps[1..], b, cap);
    }
  }

  /** If every consume of a bucket is held to `cap`, the committed counter exceeds it by at most
      what was recorded without enforcement; with consumes only it never exceeds it. */
  lemma CapNeverExceeded(kinds: Kinds, steps: seq<Step>, b: Bucket, cap: int)
    requires Run(kinds, START, steps) && Scripted(steps, b, cap) && cap >= 0
    ensures var t := After(kinds, START, steps).base;
            Total(t, b) <= cap + Recorded(t.events, b)
    ensures var t := After(kinds, START, steps).base;
            (forall i | 0 <= i < |t.events| && t.events[i].bucket == b :: t.events[i].enforced) ==> Total(t, b) <= cap
  {
    Serializable(kinds, steps);
    HistoryCapped(kinds, START, steps, b, cap);
    var s := After(kinds, START, steps);
    ServeAllStaysWithin(kinds, EMPTY, Scripts(s.history), b, cap);
    if forall i | 0 <= i < |s.base.events| && s.base.events[i].bucket == b :: s.base.events[i].enforced {
      NothingRecorded(s.base.events, b);
    }
  }

  lemma {:induction false} NothingRecorded(events: seq<Event>, b: Bucket)
    requires forall i | 0 <= i < |events| && events[i].bucket == b :: events[i].enforced
    ensures Recorded(events, b) == 0
    decreases |events|
  {
    if events != [] { NothingRecorded(events[..|events| - 1], b); }
  }

  // ---------------------------------------------------------------- idempotency over committed requests

  lemma {:induction false} ServeAllSplit(kinds: Kinds, t: Tables, rs: seq<Request>, i: nat)
    requires ServeAll(kinds, t, rs).Ok? && i <= |rs|
    ensures ServeAll(kinds, t, rs[..i]).Ok?
    ensures var first := ServeAll(kinds, t, rs[..i]).value;
            var second := ServeAll(kinds, first.0, rs[i..]);
            && |ServeAll(kinds, t, rs).value.1| == |rs| && |first.1| == i
            && second == Ok((ServeAll(kinds, t, rs).value.0, ServeAll(kinds, t, rs).value.1[i..]))
    decreases |rs|
  {
    if rs == [] {
    } else if i == 0 {
      ServeAllSplit(kinds, Serve(kinds, t, rs[0]).value.0, rs[1..], 0);
      assert rs[0..] == rs && rs[..0] == [];
    } else {
      var t1 := Serve(kinds, t, rs[0]).value.0;
      ServeAllSplit(kinds, t1, rs[1..], i - 1);
      assert rs[..i][1..] == rs[1..][..i - 1] && rs[i..] == rs[1..][i - 1..];
      var x, rest := Serve(kinds, t, rs[0]).value.1, ServeAll(kinds, t1, rs[1..]).value.1;
      assert ([x] + rest)[i..] == rest[i - 1..];
    }
  }

  /** The tables and the answer of one request of a script. */
  lemma ServeNth(kinds: Kinds, t: Tables, rs: seq<Request>, i: nat)
    requires ServeAll(kinds, t, rs).Ok? && i < |rs|
    ensures ServeAll(kinds, t, rs[..i]).Ok? && |ServeAll(kinds, t, rs).value.1| == |rs|
    ensures var before := ServeAll(kinds, t, rs[..i]).value.0;
            Serve(kinds, before, rs[i]).Ok? && ServeAll(kinds, t, rs).value.1[i] == Serve(kinds, before, rs[i]).value.1
  {
    ServeAllSplit(kinds, t, rs, i);
    assert rs[i..][0] == rs[i];
  }

  lemma ServeOneMore(kinds: Kinds, t: Tables, rs: seq<Request>, i: nat)
    requires ServeAll(kinds, t, rs).Ok? && i < |rs|
    ensures ServeAll(kinds, t, rs[..i]).Ok? && Serve(kinds, ServeAll(kinds, t, rs[..i]).value.0, rs[i]).Ok? && ServeAll(kinds, t, rs[..i + 1]).Ok?
    ensures ServeAll(kinds, t, rs[..i + 1]).value.0 == Serve(kinds, ServeAll(kinds, t, rs[..i]).value.0, rs[i]).value.0
  {
    ServeNth(kinds, t, rs, i);
    assert [rs[i]][1..] == [] && rs[..i + 1] == rs[..i] + [rs[i]];
    ServeAllConcat(kinds, t, rs[..i], [rs[i]]);
  }

  /** Serving up to `j` goes through serving up to `i`. */
  lemma ServeBetween(kinds: Kinds, t: Tables, rs: seq<Request>, i: nat, j: nat)
    requires ServeAll(kinds, t, rs).Ok? && i <= j <= |rs|
    ensures ServeAll(kinds, t, rs[..i]).Ok? && ServeAll(kinds, t, rs[..j]).Ok?
    ensures ServeAll(kinds, ServeAll(kinds, t, rs[..i]).value.0, rs[i..j]).Ok?
    ensures ServeAll(kinds, ServeAll(kinds, t, rs[..i]).value.0, rs[i..j]).value.0 == ServeAll(kinds, t, rs[..j]).value.0
  {
    ServeAllSplit(kinds, t, rs, j);
    ServeAllSplit(kinds, t, rs[..j], i);
    assert rs[..j][..i] == rs[..i] && rs[..j][i..] == rs[i..j];
  }

  lemma RetryInScript(kinds: Kinds, rs: seq<Request>, i: nat, j: nat)
    requires ServeAll(kinds, EMPTY, rs).Ok? && i < j < |rs|
    requires rs[i].key.Some? && rs[j].key == rs[i].key && rs[j].org == rs[i].org
    ensures var out := ServeAll(kinds, EMPTY, rs).value.1; |out| == |rs| && out[j] == out[i].(deduplicated := true)
    ensures ServeAll(kinds, EMPTY, rs[..j]).Ok? && ServeAll(kinds, EMPTY, rs[..j + 1]).Ok?
    ensures ServeAll(kinds, EMPTY, rs[..j + 1]).value.0 == ServeAll(kinds, EMPTY, rs[..j]).value.0
  {
    ServeNth(kinds, EMPTY, rs, i);
    ServeNth(kinds, EMPTY, rs, j);
    ServeOneMore(kinds, EMPTY, rs, i);
    ServeOneMore(kinds, EMPTY, rs, j);
    ServeBetween(kinds, EMPTY, rs, i + 1, j);
    ServeAllIsSound(kinds, EMPTY, rs[..i]);
    RetryReplays(kinds, ServeAll(kinds, EMPTY, rs[..i]).value.0, rs[i], rs[i + 1..j], rs[j]);
  }

  /** Among committed requests, a later one with the same key as an earlier one changed nothing and
      got the earlier one's answer back, marked as a replay. */
  lemma CommittedRetriesReplay(kinds: Kinds, steps: seq<Step>, i: nat, j: nat)
    requires Run(kinds, START, steps)
    requires var rs := Scripts(After(kinds, START, steps).history);
             i < j < |rs| && rs[i].key.Some? && rs[j].key == rs[i].key && rs[j].org == rs[i].org
    ensures var s := After(kinds, START, steps);
            var rs, out := Scripts(s.history), Answers(s.history);
            && |out| == |rs| && out[j] == out[i].(deduplicated := true)
            && ServeAll(kinds, EMPTY, rs[..j]).Ok? && ServeAll(kinds, EMPTY, rs[..j + 1]).Ok?
            && ServeAll(kinds, EMPTY, rs[..j + 1]).value.0 == ServeAll(kinds, EMPTY, rs[..j]).value.0
  {
    Serializable(kinds, steps);
    RetryInScript(kinds, Scripts(After(kinds, START, steps).history), i, j);
  }

  /** A key is taken only by a committed request: an aborted first attempt leaves it free. */
  lemma KeyTakenOnlyByCommits(kinds: Kinds, steps: seq<Step>, lk: LedgerKey)
    requires Run(kinds, START, steps)
    ensures var s := After(kinds, START, steps);
            lk in s.base.ledger <==> exists i :: 0 <= i < |Scripts(s.history)| && Scripts(s.history)[i].org == lk.org && Scripts(s.history)[i].key == Some(lk.key)
  {
    Serializable(kinds, steps);
    LedgerIsWhatWasServed(kinds, EMPTY, Scripts(After(kinds, START, steps).history), lk);
  }

  lemma {:induction false} LedgerIsWhatWasServed(kinds: Kinds, t: Tables, rs: seq<Request>, lk: LedgerKey)
    requires ServeAll(kinds, t, rs).Ok?
    ensures lk in ServeAll(kinds, t, rs).value.0.ledger
            <==> lk in t.ledger || exists i :: 0 <= i < |rs| && rs[i].org == lk.org && rs[i].key == Some(lk.key)
    decreases |rs|
  {
    if rs != [] {
      LedgerIsWhatWasServed(kinds, Serve(kinds, t, rs[0]).value.0, rs[1..], lk);
      forall i | 0 <= i < |rs| ensures i > 0 ==> rs[i] == rs[1..][i - 1] {}
    }
  }
}
