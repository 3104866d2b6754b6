/**
 * The search range of the contract solver is argued for from a cheapest
 * outcome of a tenth of the stake. A pool whose cheapest prices crowd
 * together just under the target passes the guard before the solver, and its
 * target is out of the range's reach; what turns it away is the check for
 * outcomes without a ticket.
 */
module ContractBracket {
  import opened Apportion
  import opened Bisection
  import opened ContractOdds
  import opened ContractPool
  import opened ContractReach
  import opened Exponential
  import opened Reals
  import opened Tilt
  import opened Weights

  const CROWDED := [
    Candidate(1, 1000), Candidate(2, 1001), Candidate(3, 1002), Candidate(4, 1003), Candidate(5, 5000)]

  const CROWDED_STAKE := 1112

  lemma CrowdedPoolIsGood()
    ensures GoodPool(CROWDED, CROWDED_STAKE) && Balanceable(CROWDED, CROWDED_STAKE)
    ensures AsReals(PricesOf(CROWDED)) == [1000.0, 1001.0, 1002.0, 1003.0, 5000.0]
  {
    assert RewardBand(CROWDED_STAKE) == Band(112, 5560);
  }

  /** A price a little above 1000 lies a little above it on the log scale too. */
  lemma LogExcess(m: Maths, p: real)
    requires m.Valid() && p > 1000.0
    ensures m.ln(p) - m.ln(1000.0) <= p / 1000.0 - 1.0
  {
    LogOfQuotient(m.ln, m.exp, p, 1000.0);
    ExpTangent(m.exp, p / 1000.0 - 1.0);
    LogBelow(m.ln, m.exp, p / 1000.0, p / 1000.0 - 1.0);
  }

  lemma LongSpan(m: Maths)
    requires m.Valid()
    ensures m.ln(5000.0) - m.ln(1000.0) >= 1.0
  {
    LogOfQuotient(m.ln, m.exp, 5000.0, 1000.0);
    ExpOfOneBelowFour(m.exp);
    assert 5000.0 / 1000.0 == 5.0;
    LogAbove(m.ln, m.exp, 5.0, 1.0);
  }

  lemma StillHeavy(exp: real -> real, excess: real, span: real, limit: real)
    requires IsExp(exp) && span >= 1.0 && excess <= limit && 0.0 <= limit
    ensures exp(Slope(100.0, Div(excess, span))) >= 1.0 - 100.0 * limit
  {
    SmallerOverSpan(excess, span, limit);
    ExpTangent(exp, Slope(100.0, Div(excess, span)));
  }

  lemma SmallerOverSpan(excess: real, span: real, limit: real)
    requires span >= 1.0 && excess <= limit && 0.0 <= limit
    ensures Div(excess, span) <= limit
  {
    DivideBack(excess, span);
    ScaleLe(1.0, span, limit);
    CancelPositive(Div(excess, span), limit, span);
  }

  lemma NoSlopeAtZero(k: real, span: real)
    requires span >= 1.0
    ensures Slope(k, Div(0.0, span)) == 0.0
  {
  }

  /** At the end of the range, a price this little above 1000 still weighs nearly one. */
  lemma CrowdedWeight(m: Maths, p: real, span: real, limit: real)
    requires m.Valid() && p > 1000.0 && span >= 1.0 && limit == p / 1000.0 - 1.0
    ensures m.exp(Slope(100.0, Div(m.ln(p) - m.ln(1000.0), span))) >= 1.0 - 100.0 * limit
  {
    hide IsExp, IsLog, Mul, Div, Slope;
    LogExcess(m, p);
    StillHeavy(m.exp, m.ln(p) - m.ln(1000.0), span, limit);
  }

  lemma CrowdedScale(m: Maths, t: Tilted, span: real)
    requires m.Valid() && Solvable([1000.0, 1001.0, 1002.0, 1003.0, 5000.0])
    requires t == PoolTilt(m, [1000.0, 1001.0, 1002.0, 1003.0, 5000.0]) && span == m.ln(5000.0) - m.ln(1000.0)
    ensures |t.scale| == 5 && span > 0.0 && t.scale[0] == Div(0.0, span)
    ensures t.scale[1] == Div(m.ln(1001.0) - m.ln(1000.0), span)
    ensures t.scale[2] == Div(m.ln(1002.0) - m.ln(1000.0), span)
    ensures t.scale[3] == Div(m.ln(1003.0) - m.ln(1000.0), span)
  {
    hide IsExp, IsLog, Mul, Div, Slope, Follows, Within;
  }

  /** So most of the weight is on prices above the target. */
  lemma CrowdedWeights(m: Maths, w: seq<real>)
    requires m.Valid() && Solvable([1000.0, 1001.0, 1002.0, 1003.0, 5000.0])
    requires w == PoolTilt(m, [1000.0, 1001.0, 1002.0, 1003.0, 5000.0]).Raw(100.0)
    ensures |w| == 5 && w[0] == 1.0 && w[1] >= 0.9 && w[2] >= 0.8 && w[3] >= 0.7 && w[4] > 0.0
  {
    hide IsExp, IsLog, Mul, Div, Slope, Solvable, PoolTilt, Follows, Within;
    var t := PoolTilt(m, [1000.0, 1001.0, 1002.0, 1003.0, 5000.0]);
    var span := m.ln(5000.0) - m.ln(1000.0);
    CrowdedScale(m, t, span);
    LongSpan(m);
    ExpAtZero(m.exp);
    NoSlopeAtZero(100.0, span);
    CrowdedWeight(m, 1001.0, span, 0.001);
    CrowdedWeight(m, 1002.0, span, 0.002);
    CrowdedWeight(m, 1003.0, span, 0.003);
    ExpPositive(m.exp, Slope(100.0, t.scale[4]));
  }

  lemma HeavyAboveTarget(w: seq<real>, p: seq<real>)
    requires p == [1000.0, 1001.0, 1002.0, 1003.0, 5000.0] && |w| == 5
    requires w[0] == 1.0 && w[1] >= 0.9 && w[2] >= 0.8 && w[3] >= 0.7 && w[4] > 0.0
    requires Sum(w) > 0.0
    ensures Mean(w, p) > 1000.8
  {
    var gains := Times(w, Above(p, 1000.8));
    assert gains == [Mul(w[0], -0.8), Mul(w[1], 0.2), Mul(w[2], 1.2), Mul(w[3], 2.2), Mul(w[4], 3999.2)];
    SumOfFive(gains);
    MeanIsOver(w, p, 1000.8);
    hide Dot, Sum, Mean;
    QuotientIsPositive(Over(w, p, 1000.8), Sum(w));
  }

  /** The target lies below everything the search can reach. */
  lemma CrowdedIsOutOfReach(m: Maths)
    requires m.Valid()
    ensures GoodPool(CROWDED, CROWDED_STAKE) && Balanceable(CROWDED, CROWDED_STAKE)
    ensures !PoolStraddles(m, CROWDED, CROWDED_STAKE)
  {
    hide Halved, Dot, Mul, PoolWeights;
    CrowdedPoolIsGood();
    var p := [1000.0, 1001.0, 1002.0, 1003.0, 5000.0];
    PoolIsSolvable(CROWDED, CROWDED_STAKE);
    var t := PoolTilt(m, p);
    assert Target(CROWDED_STAKE) == 1000.8;
    t.RawIsPositive(100.0);
    CrowdedWeights(m, t.Raw(100.0));
    HeavyAboveTarget(t.Raw(100.0), p);
    PoolValueIsEv(m, p, ALPHA_BOUND);
  }

  /**
   * The guard before the solver does not keep such a pool out, contrary to
   * the argument for the range; the search loses an end of it, and too few
   * outcomes are left to go on.
   */
  lemma GuardAdmitsUnreachablePool(m: Maths)
    requires m.Valid()
    ensures GoodPool(CROWDED, CROWDED_STAKE) && Balanceable(CROWDED, CROWDED_STAKE)
    ensures !PoolStraddles(m, CROWDED, CROWDED_STAKE)
    ensures BuiltPool(m, CROWDED, CROWDED_STAKE) == Rejected(CannotBalance)
  {
    CrowdedIsOutOfReach(m);
    hide PoolStraddles, PoolCounts, Balanceable, SortedBand, RewardBand;
    UnreachedTargetDropsAnEnd(m, CROWDED, CROWDED_STAKE);
    OrderedIsItsOwnBand(CROWDED, RewardBand(CROWDED_STAKE));
  }
}
