/** Halving a bracket on a falling expected price, and what the final bracket is worth. */
module Bisection {
  import opened Reals
  import opened Tilt

  datatype Bracket = Bracket(low: real, high: real) {
    function Mid(): real {
      (low + high) / 2.0
    }

    function Width(): real {
      high - low
    }
  }

  function Halve(t: Tilted, target: real, b: Bracket): Bracket
    requires t.Valid()
  {
    if t.Ev(b.Mid()) > target then Bracket(b.Mid(), b.high) else Bracket(b.low, b.Mid())
  }

  function Halved(t: Tilted, target: real, b: Bracket, times: nat): Bracket
    requires t.Valid()
    decreases times
  {
    if times == 0 then b else Halved(t, target, Halve(t, target, b), times - 1)
  }

  lemma HalvedStep(t: Tilted, target: real, b: Bracket, times: nat)
    requires t.Valid() && times > 0
    ensures Halved(t, target, b, times) == Halved(t, target, Halve(t, target, b), times - 1)
  {
  }

  /** The target lies between the expected prices at the two ends. */
  ghost predicate Straddles(t: Tilted, target: real, b: Bracket)
    requires t.Valid()
  {
    t.Ev(b.low) > target >= t.Ev(b.high)
  }

  function Clamp(x: real, low: real, high: real): real {
    if x < low then low else if x > high then high else x
  }

  /** The value a search of the bracket can come closest to its target with: the target itself when within reach. */
  function Attainable(t: Tilted, target: real, b: Bracket): real
    requires t.Valid()
  {
    Clamp(target, t.Ev(b.high), t.Ev(b.low))
  }

  function Pow2(n: nat): (power: real)
    ensures power >= (n + 1) as real
  {
    if n == 0 then 1.0 else 2.0 * Pow2(n - 1)
  }

  /** One halving keeps a straddling bracket straddling and cannot create one, and keeps the reachable value. */
  lemma HalveKeeps(t: Tilted, target: real, b: Bracket)
    requires t.Valid() && b.low <= b.high
    ensures var h := Halve(t, target, b);
            && b.low <= h.low <= h.high <= b.high && 2.0 * h.Width() == b.Width()
            && (Straddles(t, target, h) <==> Straddles(t, target, b))
            && Attainable(t, target, h) == Attainable(t, target, b)
  {
    t.EvFalls(b.low, b.Mid());
    t.EvFalls(b.Mid(), b.high);
  }

  /**
   * After any number of halvings the bracket straddles the target exactly
   * when the first one did, and the value within its reach is the same.
   */
  lemma {:induction false} HalvedKeeps(t: Tilted, target: real, b: Bracket, times: nat)
    requires t.Valid() && b.low <= b.high
    ensures var h := Halved(t, target, b, times);
            && b.low <= h.low <= h.high <= b.high && Mul(h.Width(), Pow2(times)) == b.Width()
            && (Straddles(t, target, h) <==> Straddles(t, target, b))
            && Attainable(t, target, h) == Attainable(t, target, b)
    decreases times
  {
    hide Mul, Straddles, Attainable;
    if times == 0 {
      assert Mul(b.Width(), 1.0) == b.Width() by { Unit(b.Width()); }
    } else {
      var h := Halve(t, target, b);
      HalveKeeps(t, target, b);
      HalvedKeeps(t, target, h, times - 1);
      Regroup(Halved(t, target, h, times - 1).Width(), Pow2(times - 1));
    }
  }

  lemma Unit(width: real)
    ensures Mul(width, 1.0) == width
  {
  }

  lemma Regroup(width: real, power: real)
    ensures Mul(width, 2.0 * power) == 2.0 * Mul(width, power)
  {
  }

  /** Whatever the bracket, the exponent returned is this close to the target clamped to the bracket's reach. */
  lemma SolutionIsClose(t: Tilted, target: real, b: Bracket, times: nat, reach: real, low: real, high: real)
    requires t.Valid() && b.low <= b.high
    requires Within(t.scale, 0.0, reach) && Within(t.prices, low, high)
    ensures var gap := Mul(Mul(Div(b.Width(), Pow2(times)), reach), high - low);
            -gap <= t.Ev(Halved(t, target, b, times).Mid()) - Attainable(t, target, b) <= gap
    ensures Straddles(t, target, b) ==> Attainable(t, target, b) == target
  {
    var h := Halved(t, target, b, times);
    HalvedKeeps(t, target, b, times);
    assert h.Width() == Div(b.Width(), Pow2(times)) by {
      SameQuotient(h.Width(), Pow2(times), b.Width());
    }
    hide Div, Mul;
    t.EvFalls(h.low, h.Mid());
    t.EvFalls(h.Mid(), h.high);
    t.EvIsContinuous(h.low, h.Width(), reach, low, high);
    assert h.low + h.Width() == h.high;
  }

  lemma SameQuotient(x: real, y: real, z: real)
    requires y >= 1.0 && Mul(x, y) == z
    ensures x == Div(z, y)
  {
  }

  /** A search whose bracket does not straddle ends on the wrong side of its target. */
  lemma SolutionMisses(t: Tilted, target: real, b: Bracket, times: nat)
    requires t.Valid() && b.low <= b.high
    ensures target >= t.Ev(b.low) ==> t.Ev(Halved(t, target, b, times).Mid()) <= t.Ev(b.low) <= target
    ensures t.Ev(b.high) > target ==> t.Ev(Halved(t, target, b, times).Mid()) >= t.Ev(b.high) > target
  {
    var h := Halved(t, target, b, times);
    HalvedKeeps(t, target, b, times);
    t.EvFalls(b.low, h.Mid());
    t.EvFalls(h.Mid(), b.high);
  }

  // ----- searches that never turn

  /** Every exponent below `end` is worth more than the target. */
  ghost predicate AboveBefore(t: Tilted, target: real, end: real)
    requires t.Valid()
  {
    forall k :: k < end ==> t.Ev(k) > target
  }

  /** Every exponent above `start` is worth no more than the target. */
  ghost predicate NotAboveAfter(t: Tilted, target: real, start: real)
    requires t.Valid()
  {
    forall k :: k > start ==> t.Ev(k) <= target
  }

  /** A search whose every midpoint is worth more than the target runs into its upper end. */
  lemma {:induction false} HighStays(t: Tilted, target: real, b: Bracket, times: nat)
    requires t.Valid() && b.low < b.high && AboveBefore(t, target, b.high)
    ensures Halved(t, target, b, times).high == b.high
    decreases times
  {
    if times > 0 {
      HighStays(t, target, Halve(t, target, b), times - 1);
    }
  }

  lemma {:induction false} LowStays(t: Tilted, target: real, b: Bracket, times: nat)
    requires t.Valid() && b.low < b.high && NotAboveAfter(t, target, b.low)
    ensures Halved(t, target, b, times).low == b.low
    decreases times
  {
    if times > 0 {
      LowStays(t, target, Halve(t, target, b), times - 1);
    }
  }

  /** Such a search ends within one part in `times` of the bracket's end. */
  lemma RunsIntoTheEnd(t: Tilted, target: real, b: Bracket, times: nat)
    requires t.Valid() && b.low < b.high
    ensures var slack := b.Width() / (times + 1) as real;
            && (AboveBefore(t, target, b.high) ==> b.high - slack <= Halved(t, target, b, times).Mid() <= b.high)
            && (NotAboveAfter(t, target, b.low) ==> b.low <= Halved(t, target, b, times).Mid() <= b.low + slack)
  {
    var h := Halved(t, target, b, times);
    HalvedKeeps(t, target, b, times);
    NarrowerThan(h.Width(), Pow2(times), b.Width(), (times + 1) as real);
    if AboveBefore(t, target, b.high) {
      HighStays(t, target, b, times);
    }
    if NotAboveAfter(t, target, b.low) {
      LowStays(t, target, b, times);
    }
  }

  lemma NarrowerThan(x: real, power: real, whole: real, least: real)
    requires x >= 0.0 && power >= least > 0.0 && Mul(x, power) == whole
    ensures x <= whole / least
  {
    ScaleLe(least, power, x);
    assert (whole / least) * least == whole;
    CancelPositive(x, whole / least, least);
  }
}
