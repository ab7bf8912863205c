/**
 Converging the relationship store to one member's role-based permissions: the diff, the writes and
 deletes sent one tuple at a time, and what an outage in the middle leaves behind.
 */
module FgaSync {
  import opened Fga

  // ---------------------------------------------------------------- the store and its client

  /** What the store answers to one write or delete of one tuple. */
  datatype Reply = Done | AlreadyExists | DoesNotExist | Unreachable

  class FgaStore {
    var tuples: set<Tuple>
    /** Requests answered before the next outage. */
    var answers: nat
    /** Whether the first request that gets no answer is carried out all the same. */
    var lands: bool

    constructor (initial: set<Tuple>, requests: nat, lands: bool)
      ensures tuples == initial && answers == requests && this.lands == lands
    {
      tuples := initial;
      answers := requests;
      this.lands := lands;
    }

    /** Of `n` requests in a row, how many are carried out. */
    function CarriedOut(n: nat): (c: nat)
      reads this
      ensures c <= n
    {
      if answers >= n then n else answers + if lands then 1 else 0
    }

    /** One request. A tuple written twice or deleted while absent is an error reply; one that gets no
        answer may have been carried out. */
    method Post(t: Tuple, write: bool) returns (r: Reply)
      modifies this
      ensures r == Unreachable <==> old(answers) == 0
      ensures r == Unreachable ==> answers == 0 && !lands
      ensures r != Unreachable ==> answers == old(answers) - 1 && lands == old(lands)
      ensures tuples == if old(CarriedOut(1)) == 0 then old(tuples) else if write then old(tuples) + {t} else old(tuples) - {t}
      ensures r == AlreadyExists <==> old(answers) > 0 && write && t in old(tuples)
      ensures r == DoesNotExist <==> old(answers) > 0 && !write && t !in old(tuples)
    {
      if answers == 0 {
        if lands { tuples := if write then tuples + {t} else tuples - {t}; }
        lands := false;
        return Unreachable;
      }
      answers := answers - 1;
      if write {
        if t in tuples { return AlreadyExists; }
        tuples := tuples + {t};
      } else {
        if t !in tuples { return DoesNotExist; }
        tuples := tuples - {t};
      }
      return Done;
    }

    /** All writes, then all deletes; only an unreachable store stops it. */
    method Write(writes: seq<Tuple>, deletes: seq<Tuple>) returns (ok: bool)
      modifies this
      ensures ok <==> old(answers) >= |writes| + |deletes|
      ensures tuples == Prefix(old(tuples), writes, deletes, old(CarriedOut(|writes| + |deletes|)))
      ensures answers == (if ok then old(answers) - |writes| - |deletes| else 0) && lands == (ok && old(lands))
    {
      var i := 0;
      while i < |writes|
        invariant 0 <= i <= |writes| && answers == old(answers) - i && lands == old(lands)
        invariant tuples == Prefix(old(tuples), writes, deletes, i)
      {
        assert writes[..i + 1] == writes[..i] + [writes[i]];
        var r := Post(writes[i], true);
        if r == Unreachable { return false; }
        i := i + 1;
      }
      var j := 0;
      while j < |deletes|
        invariant 0 <= j <= |deletes| && answers == old(answers) - |writes| - j && lands == old(lands)
        invariant tuples == Prefix(old(tuples), writes, deletes, |writes| + j)
      {
        assert deletes[..j + 1] == deletes[..j] + [deletes[j]];
        assert writes[..|writes|] == writes;
        var r := Post(deletes[j], false);
        if r == Unreachable { return false; }
        j := j + 1;
      }
      return true;
    }

    /** Bring `user`'s tuples in `org` to `desired`, given the tuples `page` a read returned. */
    method ApplyTupleSync(user: Object, org: Object, desired: set<Tuple>, page: set<Tuple>) returns (writes: seq<Tuple>, deletes: seq<Tuple>, ok: bool)
      requires page <= set t | t in tuples && t.target == org
      requires forall t | t in desired :: t.user == user && t.target == org
      modifies this
      ensures IsDiff(Mine(page, user, org), desired, writes, deletes)
      ensures ok <==> old(answers) >= |writes| + |deletes|
      ensures tuples == Prefix(old(tuples), writes, deletes, old(CarriedOut(|writes| + |deletes|)))
      ensures old(CarriedOut(|writes| + |deletes|)) == |writes| + |deletes| ==>
                (Mine(tuples, user, org) == desired <==> Mine(old(tuples), user, org) - desired <= page)
    {
      var current := Mine(page, user, org);
      writes := Enumerate(desired - current);
      deletes := Enumerate(current - desired);
      ok := Write(writes, deletes);
      FullSync(old(tuples), page, user, org, desired, writes, deletes);
    }
  }

  function Elements(s: seq<Tuple>): set<Tuple> { set t | t in s }

  lemma NoElements(s: seq<Tuple>)
    ensures Elements(s) == {} <==> s == []
  {
    if s != [] { assert s[0] in Elements(s); }
  }

  /** The store after the first `n` requests of a list of writes followed by a list of deletes. */
  function Prefix(store: set<Tuple>, writes: seq<Tuple>, deletes: seq<Tuple>, n: nat): set<Tuple>
    requires n <= |writes| + |deletes|
  {
    if n <= |writes| then store + Elements(writes[..n])
    else store + Elements(writes) - Elements(deletes[..n - |writes|])
  }

  ghost predicate IsDiff(current: set<Tuple>, desired: set<Tuple>, writes: seq<Tuple>, deletes: seq<Tuple>) {
    Elements(writes) == desired - current && Elements(deletes) == current - desired
  }

  /** The tuples of a set in some order. */
  method Enumerate(s: set<Tuple>) returns (r: seq<Tuple>)
    ensures Elements(r) == s && |r| == |s|
  {
    r := [];
    var rest := s;
    while rest != {}
      invariant rest <= s && Elements(r) == s - rest && |r| + |rest| == |s|
      decreases rest
    {
      var t :| t in rest;
      assert Elements(r + [t]) == Elements(r) + {t};
      r, rest := r + [t], rest - {t};
    }
  }

  // ---------------------------------------------------------------- what a sync does, interrupted or not

  lemma FullSync(store: set<Tuple>, page: set<Tuple>, user: Object, org: Object, desired: set<Tuple>, writes: seq<Tuple>, deletes: seq<Tuple>)
    requires page <= (set t | t in store && t.target == org) && forall t | t in desired :: t.user == user && t.target == org
    requires IsDiff(Mine(page, user, org), desired, writes, deletes)
    ensures Mine(Prefix(store, writes, deletes, |writes| + |deletes|), user, org) == desired + (Mine(store, user, org) - page)
    ensures Mine(Prefix(store, writes, deletes, |writes| + |deletes|), user, org) == desired <==> Mine(store, user, org) - desired <= page
  {
    var final := Prefix(store, writes, deletes, |writes| + |deletes|);
    assert writes[..|writes|] == writes && deletes[..|deletes|] == deletes;
    assert final == store + Elements(writes) - Elements(deletes);
    forall t ensures t in Mine(final, user, org) <==> t in desired + (Mine(store, user, org) - page) {
      assert t in Mine(page, user, org) <==> t in page && t.user == user;
    }
  }

  /** At every intermediate store: tuples of other members and of other organizations are untouched,
      and the member's tuples lie between the old ones and the new ones. */
  lemma PrefixBetween(store: set<Tuple>, user: Object, org: Object, current: set<Tuple>, desired: set<Tuple>, writes: seq<Tuple>, deletes: seq<Tuple>, n: nat)
    requires n <= |writes| + |deletes| && IsDiff(current, desired, writes, deletes) && current <= Mine(store, user, org)
    requires forall t | t in desired :: t.user == user && t.target == org
    ensures var mid := Prefix(store, writes, deletes, n); var final := Prefix(store, writes, deletes, |writes| + |deletes|);
            && mid - Mine(mid, user, org) == store - Mine(store, user, org)
            && (store <= mid || final <= mid)
            && mid <= store + final
  {
    var mid := Prefix(store, writes, deletes, n);
    var final := Prefix(store, writes, deletes, |writes| + |deletes|);
    assert writes[..|writes|] == writes && deletes[..|deletes|] == deletes;
    forall t | t in mid ensures t in store + final {
      if n <= |writes| && t in writes[..n] { assert t in Elements(writes) && t !in Elements(deletes); }
    }
    if n > |writes| {
      forall t | t in deletes[..n - |writes|] ensures t in Elements(deletes) {}
    }
    forall t ensures t in mid - Mine(mid, user, org) <==> t in store - Mine(store, user, org) {
      if t in writes { assert t in Elements(writes); }
      if t in deletes { assert t in Elements(deletes); }
    }
  }

  /** No dip: whatever a user was allowed before the sync and is allowed after it, they are allowed
      at every store in between, whatever the model. */
  lemma NoDip(
    m: Model, store: set<Tuple>, user: Object, org: Object, current: set<Tuple>, desired: set<Tuple>,
    writes: seq<Tuple>, deletes: seq<Tuple>, n: nat, who: Object, relation: string, x: Object)
    requires n <= |writes| + |deletes| && IsDiff(current, desired, writes, deletes) && current <= Mine(store, user, org)
    requires forall t | t in desired :: t.user == user && t.target == org
    requires Check(m, store, who, relation, x)
    requires Check(m, Prefix(store, writes, deletes, |writes| + |deletes|), who, relation, x)
    ensures Check(m, Prefix(store, writes, deletes, n), who, relation, x)
  {
    PrefixBetween(store, user, org, current, desired, writes, deletes, n);
    var mid := Prefix(store, writes, deletes, n);
    if store <= mid {
      CheckMonotone(m, store, mid, who, relation, x);
    } else {
      CheckMonotone(m, Prefix(store, writes, deletes, |writes| + |deletes|), mid, who, relation, x);
    }
  }

  /** No surge: an organization permission allowed at a store in between was allowed before the sync
      or is allowed after it. */
  lemma NoSurge(
    m: Model, c: Catalog, store: set<Tuple>, user: Object, org: Object, current: set<Tuple>, desired: set<Tuple>,
    writes: seq<Tuple>, deletes: seq<Tuple>, n: nat, who: Object, p: string, o: Object)
    requires Projects(m, c) && p in c.permissions && o.kind == Organization
    requires n <= |writes| + |deletes| && IsDiff(current, desired, writes, deletes) && current <= Mine(store, user, org)
    requires forall t | t in desired :: t.user == user && t.target == org
    requires Check(m, Prefix(store, writes, deletes, n), who, RelationFor(p), o)
    ensures Check(m, store, who, RelationFor(p), o) || Check(m, Prefix(store, writes, deletes, |writes| + |deletes|), who, RelationFor(p), o)
  {
    PrefixBetween(store, user, org, current, desired, writes, deletes, n);
    PermissionCheck(m, c, Prefix(store, writes, deletes, n), who, p, o);
    PermissionCheck(m, c, store, who, p, o);
    PermissionCheck(m, c, Prefix(store, writes, deletes, |writes| + |deletes|), who, p, o);
  }

  // ---------------------------------------------------------------- attempts and retries

  /** One attempt at a sync: what it wanted, what its read returned, its diff and how far it got. */
  datatype Attempt = Attempt(desired: set<Tuple>, page: set<Tuple>, writes: seq<Tuple>, deletes: seq<Tuple>, done: nat)

  ghost predicate Possible(a: Attempt, store: set<Tuple>, user: Object, org: Object) {
    && a.page <= (set t | t in store && t.target == org)
    && (forall t | t in a.desired :: t.user == user && t.target == org)
    && IsDiff(Mine(a.page, user, org), a.desired, a.writes, a.deletes)
    && a.done <= |a.writes| + |a.deletes|
  }

  /** `store'` is reached from `store` by the attempts, in order. */
  ghost predicate Attempts(store: set<Tuple>, user: Object, org: Object, run: seq<Attempt>, store': set<Tuple>)
    decreases |run|
  {
    if run == [] then store' == store
    else Possible(run[0], store, user, org)
         && Attempts(Prefix(store, run[0].writes, run[0].deletes, run[0].done), user, org, run[1..], store')
  }

  /** However many attempts were interrupted and whatever they wanted, nothing of anyone else moved. */
  lemma {:induction false} AttemptsSpareOthers(store: set<Tuple>, user: Object, org: Object, run: seq<Attempt>, store': set<Tuple>)
    requires Attempts(store, user, org, run, store')
    ensures store' - Mine(store', user, org) == store - Mine(store, user, org)
    decreases |run|
  {
    if run != [] {
      var a := run[0];
      PrefixBetween(store, user, org, Mine(a.page, user, org), a.desired, a.writes, a.deletes, a.done);
      AttemptsSpareOthers(Prefix(store, a.writes, a.deletes, a.done), user, org, run[1..], store');
    }
  }

  /** One attempt that completes, after any attempts that did not, converges exactly when its read
      showed it every stale tuple; and then a further attempt has nothing left to send. */
  lemma RetriesConverge(store: set<Tuple>, user: Object, org: Object, run: seq<Attempt>, store': set<Tuple>, last: Attempt, again: Attempt)
    requires Attempts(store, user, org, run, store') && Possible(last, store', user, org)
    requires last.done == |last.writes| + |last.deletes|
    ensures var final := Prefix(store', last.writes, last.deletes, last.done);
            && final - Mine(final, user, org) == store - Mine(store, user, org)
            && (Mine(final, user, org) == last.desired <==> Mine(store', user, org) - last.desired <= last.page)
            && (Mine(final, user, org) == last.desired && again.desired == last.desired && Possible(again, final, user, org)
                && Mine(final, user, org) <= again.page
                ==> again.writes == [] && again.deletes == [])
  {
    AttemptsSpareOthers(store, user, org, run, store');
    PrefixBetween(store', user, org, Mine(last.page, user, org), last.desired, last.writes, last.deletes, last.done);
    FullSync(store', last.page, user, org, last.desired, last.writes, last.deletes);
    var final := Prefix(store', last.writes, last.deletes, last.done);
    if Mine(final, user, org) == last.desired && again.desired == last.desired && Possible(again, final, user, org) && Mine(final, user, org) <= again.page {
      assert Mine(again.page, user, org) == again.desired;
      NoElements(again.writes);
      NoElements(again.deletes);
    }
  }
}
