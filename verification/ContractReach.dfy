/**
 * What a search that runs into the end of its range leaves behind.
 *
 * The contract solver does not check that its range straddles the target. When
 * it does not, the search ends so far out that the outcome it leans away from
 * is worth less than a ticket, and the check for outcomes without a ticket
 * throws that outcome out. So a table is never laid out from such a search.
 */
module ContractReach {
  import opened Apportion
  import opened Bisection
  import opened ContractOdds
  import opened ContractPool
  import opened Exponential
  import opened LargestRemainder
  import opened Reals
  import opened Tilt
  import opened Weights

  const SLIVER := 0.00000001

  lemma SquareAtLeast(x: real, y: real)
    requires x >= y >= 0.0
    ensures Mul(x, x) >= Mul(y, y)
  {
    ScaleLe(y, x, x);
    ScaleLe(y, x, y);
  }

  lemma ExpIsHuge(exp: real -> real, x: real)
    requires IsExp(exp) && x >= 72.0
    ensures exp(x) >= 100_000_000.0
  {
    ExpTangent(exp, 9.0);
    ExpAdd(exp, 9.0, 9.0);
    ExpAdd(exp, 18.0, 18.0);
    ExpAdd(exp, 36.0, 36.0);
    SquareAtLeast(exp(9.0), 10.0);
    SquareAtLeast(exp(18.0), 100.0);
    SquareAtLeast(exp(36.0), 10_000.0);
    assert 9.0 + 9.0 == 18.0 && 18.0 + 18.0 == 36.0 && 36.0 + 36.0 == 72.0;
    if x > 72.0 {
      ExpGrows(exp, 72.0, x);
    }
  }

  lemma ExpIsTiny(exp: real -> real, x: real)
    requires IsExp(exp) && x <= -72.0
    ensures exp(x) <= SLIVER
  {
    ExpIsHuge(exp, -x);
    ExpPositive(exp, x);
    ExpAdd(exp, x, -x);
    ExpAtZero(exp);
    ScaleLe(100_000_000.0, exp(-x), exp(x));
  }

  lemma {:induction false} SumAtLeast(a: seq<real>, i: nat)
    requires Positive(a) && i < |a|
    ensures a[i] <= Sum(a)
  {
    var n := |a| - 1;
    if i < n {
      SumAtLeast(a[..n], i);
    } else {
      PositiveSum(a[..n]);
    }
  }

  /** An outcome outweighed this much by another has next to no share. */
  lemma OutweighedShare(w: seq<real>, i: nat, j: nat)
    requires Positive(w) && i < |w| && j < |w| && w[j] <= SLIVER * w[i]
    ensures Sum(w) > 0.0 && Normal(w)[j] <= SLIVER
  {
    PositiveSum(w);
    SumAtLeast(w, i);
    ScaleLe(w[i], Sum(w), SLIVER);
    hide Sum, Div;
    QuotientAtMost(w[j], Sum(w), SLIVER);
  }

  lemma QuotientAtMost(a: real, b: real, c: real)
    requires b > 0.0 && a <= c * b
    ensures Div(a, b) <= c
  {
    DivideBack(a, b);
    CancelPositive(Div(a, b), c, b);
  }

  lemma EndsOfScale(m: Maths, prices: seq<real>)
    requires m.Valid() && Solvable(prices)
    ensures var s := PoolTilt(m, prices).scale; s[0] == 0.0 && s[|prices| - 1] == 1.0
  {
    var span := Span(m.ln, prices);
    assert PoolTilt(m, prices).scale[0] == Div(0.0, span);
    assert PoolTilt(m, prices).scale[|prices| - 1] == Div(span, span);
    hide PoolTilt, Solvable, Span;
    OwnQuotient(span);
  }

  lemma OwnQuotient(x: real)
    requires x > 0.0
    ensures Div(x, x) == 1.0 && Div(0.0, x) == 0.0
  {
  }

  lemma SlopeAtEnds(k: real)
    ensures Slope(k, 0.0) == 0.0 && Slope(k, 1.0) == -k
  {
  }

  /** Far out, one end of the pool outweighs the other a hundred million times. */
  lemma EndsOutweigh(m: Maths, prices: seq<real>, k: real)
    requires m.Valid() && Solvable(prices)
    ensures var w := PoolTilt(m, prices).Raw(k); var last := |prices| - 1;
            && (k >= 72.0 ==> w[last] <= SLIVER * w[0])
            && (k <= -72.0 ==> w[0] <= SLIVER * w[last])
  {
    EndsOfScale(m, prices);
    SlopeAtEnds(k);
    ExpAtZero(m.exp);
    hide PoolTilt, Solvable, Slope, Span, IsExp;
    if k >= 72.0 {
      ExpIsTiny(m.exp, -k);
    }
    if k <= -72.0 {
      ExpIsHuge(m.exp, -k);
    }
  }

  /** Tilted this far, the pool gives the outcome it leans away from no ticket. */
  lemma FarOutcomeGetsNothing(m: Maths, prices: seq<real>, k: real)
    requires m.Valid() && Solvable(prices) && |prices| <= CONTRACT_POOL_SIZE && IsShares(PoolWeights(m, prices, k))
    ensures k >= 72.0 ==> Allocation(PoolWeights(m, prices, k))[|prices| - 1] == 0
    ensures k <= -72.0 ==> Allocation(PoolWeights(m, prices, k))[0] == 0
  {
    var w, last := PoolTilt(m, prices).Raw(k), |prices| - 1;
    ShiftCancels(m, prices, k);
    EndsOutweigh(m, prices, k);
    PoolTilt(m, prices).RawIsPositive(k);
    hide PoolTilt, Solvable, IsShares, Allocation, Sum;
    if k >= 72.0 {
      OutweighedShare(w, 0, last);
      ShareIsSliver(PoolWeights(m, prices, k), last);
    }
    if k <= -72.0 {
      OutweighedShare(w, last, 0);
      ShareIsSliver(PoolWeights(m, prices, k), 0);
    }
  }

  lemma ShareIsSliver(weights: seq<real>, j: nat)
    requires IsShares(weights) && j < |weights| <= CONTRACT_POOL_SIZE && weights[j] <= SLIVER
    ensures Allocation(weights)[j] == 0
  {
    ScaleLe(Exact(weights)[j], 0.01, |weights| as real);
    ScaleLe(|weights| as real, 12.0, 0.01);
    SliverGetsNothing(weights, j);
  }

  /** The solver's bracket straddles the target for this pool. */
  ghost predicate PoolStraddles(m: Maths, pool: seq<Candidate>, stake: int)
    requires m.Valid() && GoodPool(pool, stake) && Balanceable(pool, stake)
  {
    PoolIsSolvable(pool, stake);
    var prices := AsReals(PricesOf(pool));
    PoolValue(m, prices, -ALPHA_BOUND) > Target(stake) >= PoolValue(m, prices, ALPHA_BOUND)
  }

  /** The exponent found for a pool. */
  function PoolAlpha(m: Maths, pool: seq<Candidate>, stake: int): real
    requires m.Valid() && GoodPool(pool, stake) && Balanceable(pool, stake)
  {
    PoolIsSolvable(pool, stake);
    SolvedAlpha(m, AsReals(PricesOf(pool)), Target(stake))
  }

  lemma WorthAtEnds(t: Tilted, target: real)
    requires t.Valid()
    ensures t.Ev(ALPHA_BOUND) > target ==> AboveBefore(t, target, WHOLE.high)
    ensures target >= t.Ev(-ALPHA_BOUND) ==> NotAboveAfter(t, target, WHOLE.low)
  {
    forall k | k < ALPHA_BOUND ensures t.Ev(k) >= t.Ev(ALPHA_BOUND) {
      t.EvFalls(k, ALPHA_BOUND);
    }
    forall k | k > -ALPHA_BOUND ensures t.Ev(k) <= t.Ev(-ALPHA_BOUND) {
      t.EvFalls(-ALPHA_BOUND, k);
    }
  }

  lemma SearchEndsFarOut(t: Tilted, target: real)
    requires t.Valid()
    ensures t.Ev(ALPHA_BOUND) > target ==> Halved(t, target, WHOLE, HALVINGS).Mid() >= 72.0
    ensures target >= t.Ev(-ALPHA_BOUND) ==> Halved(t, target, WHOLE, HALVINGS).Mid() <= -72.0
  {
    hide Halved, IsExp, Follows, AboveBefore, NotAboveAfter;
    WorthAtEnds(t, target);
    RunsIntoTheEnd(t, target, WHOLE, HALVINGS);
  }

  /** A search that cannot reach its target ends at the end of its range. */
  lemma UnreachedTargetEndsFarOut(m: Maths, pool: seq<Candidate>, stake: int)
    requires m.Valid() && GoodPool(pool, stake) && Balanceable(pool, stake)
    ensures var prices := AsReals(PricesOf(pool));
            && Solvable(prices)
            && (PoolValue(m, prices, ALPHA_BOUND) > Target(stake) ==> PoolAlpha(m, pool, stake) >= 72.0)
            && (Target(stake) >= PoolValue(m, prices, -ALPHA_BOUND) ==> PoolAlpha(m, pool, stake) <= -72.0)
  {
    hide Halved, PoolValue, PoolWeights, PoolTilt, IsExp, IsLog;
    PoolIsSolvable(pool, stake);
    var prices := AsReals(PricesOf(pool));
    PoolValueIsEv(m, prices, ALPHA_BOUND);
    PoolValueIsEv(m, prices, -ALPHA_BOUND);
    SearchEndsFarOut(PoolTilt(m, prices), Target(stake));
  }

  /**
   * A pool whose target is out of the search's reach never wins a ticket for
   * every outcome: one of its two ends is dropped.
   */
  lemma UnreachedTargetDropsAnEnd(m: Maths, pool: seq<Candidate>, stake: int)
    requires m.Valid() && GoodPool(pool, stake) && Balanceable(pool, stake) && |pool| <= CONTRACT_POOL_SIZE
    requires !PoolStraddles(m, pool, stake)
    ensures PoolCounts(m, pool, stake)[0] == 0 || PoolCounts(m, pool, stake)[|pool| - 1] == 0
    ensures !AllWin(PoolCounts(m, pool, stake))
  {
    UnreachedTargetEndsFarOut(m, pool, stake);
    hide Halved, PoolValue, Allocation, PoolWeights;
    var prices := AsReals(PricesOf(pool));
    TiltedWeightsAddUp(m, prices, PoolAlpha(m, pool, stake));
    FarOutcomeGetsNothing(m, prices, PoolAlpha(m, pool, stake));
  }

  // ----- which outcomes a search drops

  lemma LighterIsFurther(t: Tilted, k: real, i: nat, j: nat)
    requires t.Valid() && i < |t.prices| && j < |t.prices| && t.Raw(k)[j] <= t.Raw(k)[i]
    ensures k > 0.0 ==> t.prices[i] <= t.prices[j]
    ensures k < 0.0 ==> t.prices[j] <= t.prices[i]
  {
    var s := t.scale;
    if k > 0.0 && t.prices[j] < t.prices[i] {
      SlopeOrder(k, s[j], s[i]);
      ExpGrows(t.exp, Slope(k, s[i]), Slope(k, s[j]));
    }
    if k < 0.0 && t.prices[i] < t.prices[j] {
      SlopeOrder(-k, s[i], s[j]);
      MinusSlope(k, s[i]);
      MinusSlope(k, s[j]);
      ExpGrows(t.exp, Slope(k, s[i]), Slope(k, s[j]));
    }
  }

  lemma MinusSlope(k: real, s: real)
    ensures Slope(-k, s) == -Slope(k, s)
  {
  }

  lemma NormalOrder(w: seq<real>, i: nat, j: nat)
    requires Sum(w) > 0.0 && i < |w| && j < |w| && Normal(w)[j] <= Normal(w)[i]
    ensures w[j] <= w[i]
  {
    hide Sum;
    ScaleLe(Normal(w)[j], Normal(w)[i], Sum(w));
    DivideBack(w[i], Sum(w));
    DivideBack(w[j], Sum(w));
  }

  /**
   * What is dropped lies at the far end: with a positive exponent it costs at
   * least as much as anything kept, with a negative one at most as much.
   */
  lemma DroppedIsTheExtreme(m: Maths, pool: seq<Candidate>, stake: int, kept: nat, dropped: nat)
    requires m.Valid() && GoodPool(pool, stake) && Balanceable(pool, stake) && kept < |pool| && dropped < |pool|
    requires PoolCounts(m, pool, stake)[kept] > 0 && PoolCounts(m, pool, stake)[dropped] == 0
    ensures PoolAlpha(m, pool, stake) > 0.0 ==> pool[kept].price <= pool[dropped].price
    ensures PoolAlpha(m, pool, stake) < 0.0 ==> pool[dropped].price <= pool[kept].price
  {
    hide Halved, Allocation;
    PoolIsSolvable(pool, stake);
    var prices, k := AsReals(PricesOf(pool)), PoolAlpha(m, pool, stake);
    TiltedWeightsAddUp(m, prices, k);
    ShiftCancels(m, prices, k);
    UnservedHaveLess(PoolWeights(m, prices, k), kept, dropped);
    var t := PoolTilt(m, prices);
    NormalOrder(t.Raw(k), kept, dropped);
    LighterIsFurther(t, k, kept, dropped);
  }
}
