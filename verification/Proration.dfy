/**
 Proration of mid-period plan changes, in whole cents and whole microseconds. A fraction of the
 period is a number of millionths: the quotient rounded half-even to six places.
 */
module Proration {

  const MICRO := 1_000_000

  function Abs(x: int): int {
    if x < 0 then -x else x
  }

  /** num/den to the nearest integer, ties to the even one. */
  function RoundHalfEven(num: int, den: int): (r: int)
    requires num >= 0 && den > 0
    ensures 2 * Abs(r * den - num) <= den
    ensures 2 * Abs(r * den - num) == den ==> r % 2 == 0
  {
    var q, rem := num / den, num % den;
    assert num == q * den + rem;
    assert (q + 1) * den == q * den + den;
    if 2 * rem < den || (2 * rem == den && q % 2 == 0) then q else q + 1
  }

  /** num/den to the nearest integer, ties away from zero. */
  function RoundHalfAway(num: int, den: int): (r: int)
    requires den > 0
    ensures 2 * Abs(r * den - num) <= den
    ensures 2 * Abs(r * den - num) == den ==> Abs(r) * den >= Abs(num)
  {
    if num >= 0 then NearestUp(num, den)
    else
      var r := NearestUp(-num, den);
      assert (-r) * den == -(r * den);
      -r
  }

  function NearestUp(num: int, den: int): (r: int)
    requires num >= 0 && den > 0
    ensures r >= 0 && 2 * Abs(r * den - num) <= den
    ensures 2 * Abs(r * den - num) == den ==> r * den >= num
  {
    var q, rem := num / den, num % den;
    assert num == q * den + rem;
    assert (q + 1) * den == q * den + den;
    if 2 * rem < den then q else q + 1
  }

  function Cents(amount: int, fraction: int): (c: int)
    ensures 2 * Abs(c * MICRO - amount * fraction) <= MICRO
  {
    RoundHalfAway(amount * fraction, MICRO)
  }

  datatype Proration = Proration(credit: int, charge: int, remaining: int)
  {
    function Net(): int { charge - credit }
    function Elapsed(): int { MICRO - remaining }
  }

  function Left(start: int, end: int, now: int): int
    requires start < end
  {
    if end - now < 0 then 0 else if end - now > end - start then end - start else end - now
  }

  function Prorate(oldCents: int, newCents: int, start: int, end: int, now: int): Proration {
    if end <= start then Proration(0, 0, 0)
    else
      var fraction := RoundHalfEven(Left(start, end, now) * MICRO, end - start);
      Proration(Cents(oldCents, fraction), Cents(newCents, fraction), fraction)
  }

  function Arrears(oldCents: int, newCents: int, start: int, end: int, now: int): int {
    Cents(oldCents - newCents, Prorate(oldCents, newCents, start, end, now).Elapsed())
  }

  /** The two views of one change agree: what the in-advance view bills now is what the in-arrears
      view leaves to the full-period charge, to the cent. */
  lemma AdvanceMatchesArrears(oldCents: int, newCents: int, start: int, end: int, now: int)
    ensures var p := Prorate(oldCents, newCents, start, end, now);
            Abs(p.Net() - Arrears(oldCents, newCents, start, end, now) - (newCents - oldCents)) <= 1
  {
    var p := Prorate(oldCents, newCents, start, end, now);
    var a := Arrears(oldCents, newCents, start, end, now);
    SplitBounds(oldCents, newCents, start, end, now);
    ThreeRoundings(oldCents, newCents, p.remaining, p.credit, p.charge, a);
  }

  lemma SplitBounds(oldCents: int, newCents: int, start: int, end: int, now: int)
    ensures var p := Prorate(oldCents, newCents, start, end, now);
            2 * Abs(p.credit * MICRO - oldCents * p.remaining) <= MICRO && 2 * Abs(p.charge * MICRO - newCents * p.remaining) <= MICRO
  {
    var p := Prorate(oldCents, newCents, start, end, now);
    if start < end {
      assert p.credit == Cents(oldCents, p.remaining) && p.charge == Cents(newCents, p.remaining);
    }
  }

  lemma ThreeRoundings(old_: int, new_: int, f: int, credit: int, charge: int, a: int)
    requires 2 * Abs(credit * MICRO - old_ * f) <= MICRO && 2 * Abs(charge * MICRO - new_ * f) <= MICRO
    requires 2 * Abs(a * MICRO - (old_ - new_) * (MICRO - f)) <= MICRO
    ensures Abs(charge - credit - a - (new_ - old_)) <= 1
  {
    assert (old_ - new_) * (MICRO - f) == old_ * MICRO - new_ * MICRO - old_ * f + new_ * f;
  }

  /** Without rounding room to spare: an empty period counts as fully elapsed. */
  lemma EmptyPeriodCorrectsInFull(oldCents: int, newCents: int, start: int, now: int)
    ensures Arrears(oldCents, newCents, start, start, now) == oldCents - newCents
  {
    var d := oldCents - newCents;
    var a := Arrears(oldCents, newCents, start, start, now);
    assert 2 * Abs(a * MICRO - d * MICRO) <= MICRO;
    assert (a - d) * MICRO == a * MICRO - d * MICRO;
  }

  // ---------------------------------------------------------------- chains of changes

  /** A switch to price `cents` at time `at`. */
  datatype Change = Change(cents: int, at: int)

  function FinalPrice(price: int, changes: seq<Change>): int {
    if changes == [] then price else changes[|changes| - 1].cents
  }

  /** All corrections queued by the changes. */
  function Adjustments(price: int, changes: seq<Change>, start: int, end: int): int
    decreases |changes|
  {
    if changes == [] then 0
    else Arrears(price, changes[0].cents, start, end, changes[0].at) + Adjustments(changes[0].cents, changes[1..], start, end)
  }

  /** Price times the time it was held, from `from` to the end of the period. */
  function HeldTime(price: int, since: int, changes: seq<Change>, end: int): int
    decreases |changes|
  {
    if changes == [] then price * (end - since)
    else price * (changes[0].at - since) + HeldTime(changes[0].cents, changes[0].at, changes[1..], end)
  }

  /** The same with the elapsed fractions the rows record (millionths of the period). */
  function HeldFraction(price: int, since: int, changes: seq<Change>, start: int, end: int): int
    decreases |changes|
  {
    if changes == [] then price * (MICRO - since)
    else
      var e := Prorate(price, changes[0].cents, start, end, changes[0].at).Elapsed();
      price * (e - since) + HeldFraction(changes[0].cents, e, changes[1..], start, end)
  }

  /** How far the price moved in total. */
  function Moved(price: int, changes: seq<Change>): nat
    decreases |changes|
  {
    if changes == [] then 0 else Abs(price - changes[0].cents) + Moved(changes[0].cents, changes[1..])
  }

  lemma {:induction false} ChainByFractions(price: int, since: int, changes: seq<Change>, start: int, end: int)
    ensures 2 * Abs(MICRO * (FinalPrice(price, changes) + Adjustments(price, changes, start, end))
                    - HeldFraction(price, since, changes, start, end) - price * since) <= |changes| * MICRO
    decreases |changes|
  {
    if changes == [] {
      assert price * (MICRO - since) + price * since == price * MICRO;
    } else {
      var p1 := changes[0].cents;
      var e := Prorate(price, p1, start, end, changes[0].at).Elapsed();
      ChainByFractions(p1, e, changes[1..], start, end);
      assert FinalPrice(price, changes) == FinalPrice(p1, changes[1..]);
      FractionStep(price, p1, e, since, Arrears(price, p1, start, end, changes[0].at),
                   FinalPrice(p1, changes[1..]) + Adjustments(p1, changes[1..], start, end),
                   HeldFraction(p1, e, changes[1..], start, end), |changes| - 1);
    }
  }

  /** The algebra of one step of `ChainByFractions`. */
  lemma FractionStep(p: int, p1: int, e: int, since: int, a: int, rest: int, held: int, n: nat)
    requires 2 * Abs(MICRO * rest - held - p1 * e) <= n * MICRO
    requires 2 * Abs(a * MICRO - (p - p1) * e) <= MICRO
    ensures 2 * Abs(MICRO * (rest + a) - (p * (e - since) + held) - p * since) <= (n + 1) * MICRO
  {
    assert p * (e - since) + p * since == p * e;
    assert (p - p1) * e == p * e - p1 * e;
  }

  /** For any number n of changes inside one period, the last price plus all queued corrections is
      the sum of each price times the recorded fraction of the period it was held, within n/2 cents. */
  lemma ChangesBillHeldFractions(price: int, changes: seq<Change>, start: int, end: int)
    ensures 2 * Abs(MICRO * (FinalPrice(price, changes) + Adjustments(price, changes, start, end))
                    - HeldFraction(price, 0, changes, start, end)) <= |changes| * MICRO
  {
    ChainByFractions(price, 0, changes, start, end);
  }

  lemma RemainingError(price: int, next: int, start: int, end: int, at: int)
    requires start <= at <= end && start < end
    ensures 2 * Abs(Prorate(price, next, start, end, at).remaining * (end - start) - (end - at) * MICRO) <= end - start
  {
  }

  /** What is not remaining has elapsed. */
  lemma Complement(f: int, total: int, left: int)
    ensures (MICRO - f) * total - (total - left) * MICRO == -(f * total - left * MICRO)
  {
    assert (MICRO - f) * total == MICRO * total - f * total;
  }

  lemma ElapsedError(price: int, next: int, start: int, end: int, at: int)
    requires start <= at <= end && start < end
    ensures 2 * Abs(Prorate(price, next, start, end, at).Elapsed() * (end - start) - (at - start) * MICRO) <= end - start
  {
    RemainingError(price, next, start, end, at);
    Complement(Prorate(price, next, start, end, at).remaining, end - start, end - at);
  }

  /** One correction against the exact time, scaled to avoid fractions. */
  lemma OneChangeByTime(price: int, next: int, start: int, end: int, at: int)
    requires start <= at <= end && start < end
    ensures 2 * Abs(MICRO * ((end - start) * Arrears(price, next, start, end, at)) - MICRO * ((price - next) * (at - start)))
            <= (end - start) * (MICRO + Abs(price - next))
  {
    ElapsedError(price, next, start, end, at);
    TwoErrors(end - start, price - next, at - start, Prorate(price, next, start, end, at).Elapsed(), Arrears(price, next, start, end, at));
  }

  lemma TwoErrors(total: int, d: int, t: int, e: int, a: int)
    requires total > 0 && 2 * Abs(a * MICRO - d * e) <= MICRO && 2 * Abs(e * total - t * MICRO) <= total
    ensures 2 * Abs(MICRO * (total * a) - MICRO * (d * t)) <= total * (MICRO + Abs(d))
  {
    Scale(total, a * MICRO - d * e, MICRO);
    Scale(d, e * total - t * MICRO, total);
    Expand(total, d, t, e, a);
    assert total * (MICRO + Abs(d)) == total * MICRO + Abs(d) * total;
  }

  lemma Expand(total: int, d: int, t: int, e: int, a: int)
    ensures MICRO * (total * a) - MICRO * (d * t) == total * (a * MICRO - d * e) + d * (e * total - t * MICRO)
  {
    assert total * (a * MICRO - d * e) == MICRO * (total * a) - total * (d * e);
    assert d * (e * total - t * MICRO) == total * (d * e) - MICRO * (d * t) by {
      assert d * (e * total) == total * (d * e);
      assert d * (e * total - t * MICRO) == d * (e * total) - d * (t * MICRO);
    }
  }

  lemma Scale(k: int, x: int, bound: int)
    requires 2 * Abs(x) <= bound
    ensures 2 * Abs(k * x) <= Abs(k) * bound
  {
    assert Abs(k * x) == Abs(k) * Abs(x);
    assert Abs(k) * (2 * Abs(x)) <= Abs(k) * bound;
  }

  ghost predicate Inside(changes: seq<Change>, start: int, end: int) {
    forall i | 0 <= i < |changes| :: start <= changes[i].at <= end
  }

  lemma ChainUnfolds(price: int, since: int, changes: seq<Change>, start: int, end: int)
    requires changes != [] && Inside(changes, start, end)
    ensures Inside(changes[1..], start, end) && start <= changes[0].at <= end
    ensures var p1, t1, rest := changes[0].cents, changes[0].at, changes[1..];
            && FinalPrice(price, changes) == FinalPrice(p1, rest)
            && Adjustments(price, changes, start, end) == Arrears(price, p1, start, end, t1) + Adjustments(p1, rest, start, end)
            && HeldTime(price, since, changes, end) == price * (t1 - since) + HeldTime(p1, t1, rest, end)
            && Moved(price, changes) == Abs(price - p1) + Moved(p1, rest)
  {
  }

  lemma {:induction false} ChainByTime(price: int, since: int, changes: seq<Change>, start: int, end: int)
    requires start < end && Inside(changes, start, end)
    ensures 2 * Abs(MICRO * ((end - start) * (FinalPrice(price, changes) + Adjustments(price, changes, start, end)))
                    - MICRO * HeldTime(price, since, changes, end) - MICRO * (price * (since - start)))
            <= (end - start) * (|changes| * MICRO + Moved(price, changes))
    decreases |changes|
  {
    var total := end - start;
    if changes == [] {
      assert price * (end - since) + price * (since - start) == total * price;
    } else {
      var p1, t1 := changes[0].cents, changes[0].at;
      var rest := FinalPrice(p1, changes[1..]) + Adjustments(p1, changes[1..], start, end);
      var a := Arrears(price, p1, start, end, t1);
      ChainUnfolds(price, since, changes, start, end);
      ChainByTime(p1, t1, changes[1..], start, end);
      OneChangeByTime(price, p1, start, end, t1);
      TimeStep(price, p1, t1, since, start, total, a, rest, HeldTime(p1, t1, changes[1..], end),
               |changes| - 1, Moved(p1, changes[1..]));
    }
  }

  /** The algebra of one step of `ChainByTime`. */
  lemma TimeStep(p: int, p1: int, t1: int, since: int, start: int, total: int, a: int, rest: int, held: int, n: nat, moved: nat)
    requires total > 0
    requires 2 * Abs(MICRO * (total * rest) - MICRO * held - MICRO * (p1 * (t1 - start))) <= total * (n * MICRO + moved)
    requires 2 * Abs(MICRO * (total * a) - MICRO * ((p - p1) * (t1 - start))) <= total * (MICRO + Abs(p - p1))
    ensures 2 * Abs(MICRO * (total * (rest + a)) - MICRO * (p * (t1 - since) + held) - MICRO * (p * (since - start)))
            <= total * ((n + 1) * MICRO + (Abs(p - p1) + moved))
  {
    assert total * (rest + a) == total * rest + total * a;
    assert p * (t1 - since) + p * (since - start) == p * (t1 - start);
    assert (p - p1) * (t1 - start) == p * (t1 - start) - p1 * (t1 - start);
    assert total * ((n + 1) * MICRO + (Abs(p - p1) + moved)) == total * (n * MICRO + moved) + total * (MICRO + Abs(p - p1));
  }

  /** Against the clock: the period's bill differs from price times exact time held by at most half
      a cent a change, plus half a millionth of the price moved at each change. */
  lemma ChangesBillHeldTime(price: int, changes: seq<Change>, start: int, end: int)
    requires start < end && Inside(changes, start, end)
    ensures 2 * MICRO * Abs((end - start) * (FinalPrice(price, changes) + Adjustments(price, changes, start, end))
                            - HeldTime(price, start, changes, end))
            <= (end - start) * (|changes| * MICRO + Moved(price, changes))
  {
    ChainByTime(price, start, changes, start, end);
    assert price * (start - start) == 0;
  }
}
