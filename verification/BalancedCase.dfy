/** What an auto-balanced case returns, and the gate every saved case passes. */
module BalancedCase {
  import opened Apportion
  import opened Balancing
  import opened Bisection
  import opened ContractOdds
  import opened Distribution
  import opened Exponential
  import opened Reals
  import opened Rolls
  import opened Tickets
  import opened Tilt
  import opened Weights
  import opened Wrappers

  predicate IsBalanced(r: Result<BalanceOutcome, DistributionError>) {
    r.Ok? && r.value.Balanced?
  }

  /** A balanced case is a valid loot table over the items it was given, and its return is that table's. */
  lemma BalancedTableIsSound(m: Maths, prices: seq<int>, casePrice: int, targetRtp: real)
    requires m.Valid() && IsBalanced(AutoBalanced(m, prices, casePrice, targetRtp))
    ensures var b := AutoBalanced(m, prices, casePrice, targetRtp).value;
            && |b.ranges| == |prices| && TilesFrom(b.ranges, 0) && ExactCover(b.ranges) && AllInSpace(b.ranges)
            && (forall i :: 0 <= i < |prices| ==> Width(b.ranges[i]) >= 1)
            && b.actualRtp == CalculateRtp(b.ranges, prices, casePrice)
  {
    hide EndOfSearch, CurveWeights, CalculateRtp, LayOut, IsExp, IsLog, Div, Mul;
    var s := Shares(m, prices, Mul(casePrice as real, targetRtp));
    LayOutTiles(Widths(s), 0);
    TilesCoverOnce(LayOut(Widths(s), 0), 0);
  }

  /** Shares that fall with the price to the power k, and ranges as wide as they say, up to a few tickets. */
  ghost predicate OddsFollow(m: Maths, shares: seq<real>, prices: seq<int>, k: real, ranges: seq<Range>) {
    && |shares| == |prices| == |ranges| && IsDistribution(shares)
    && (forall i, j :: 0 <= i < |prices| && 0 <= j < |prices| ==>
          Mul(shares[i], Pow(m, prices[i] as real, k)) == Mul(shares[j], Pow(m, prices[j] as real, k)))
    && (forall i :: 0 <= i < |prices| ==> Near(Width(ranges[i]), shares[i] * 1_000_000.0, |prices| + 1))
  }

  predicate Near(width: int, exact: real, most: int) {
    -most as real <= width as real - exact <= most as real
  }

  /** A balanced table's odds fall with the price, at the exponent it reports. */
  lemma BalancedOddsFollowPrices(m: Maths, prices: seq<int>, casePrice: int, targetRtp: real)
    requires m.Valid() && IsBalanced(AutoBalanced(m, prices, casePrice, targetRtp))
    ensures var b := AutoBalanced(m, prices, casePrice, targetRtp).value;
            exists shares :: OddsFollow(m, shares, prices, b.exponent, b.ranges)
  {
    hide EndOfSearch, CurveWeights, CalculateRtp, Exponent, LayOut, Widths, Sum, IsExp, IsLog, Div, Mul, Pow;
    var b, target := AutoBalanced(m, prices, casePrice, targetRtp).value, Mul(casePrice as real, targetRtp);
    var s := Shares(m, prices, target);
    LayOutTiles(Widths(s), 0);
    forall i | 0 <= i < |prices| ensures Near(Width(b.ranges[i]), s[i] * 1_000_000.0, |prices| + 1) {
      EachNearItsShare(s, i);
    }
    forall i, j | 0 <= i < |prices| && 0 <= j < |prices|
      ensures Mul(s[i], Pow(m, prices[i] as real, b.exponent)) == Mul(s[j], Pow(m, prices[j] as real, b.exponent))
    {
      SharesAreInversePowers(m, prices, target, i, j);
    }
    assert OddsFollow(m, s, prices, b.exponent, b.ranges);
  }

  /** The target lies between the expected values at the two ends of the search range. */
  predicate WithinReach(m: Maths, prices: seq<int>, target: real)
    requires m.Valid() && prices != [] && AllPriced(prices)
  {
    EvAt(m, prices, K_BOUND) <= target <= EvAt(m, prices, -K_BOUND)
  }

  /** The target, or the end of that range it lies beyond. */
  function NearestValue(m: Maths, prices: seq<int>, target: real): real
    requires m.Valid() && prices != [] && AllPriced(prices)
  {
    Clamp(target, EvAt(m, prices, K_BOUND), EvAt(m, prices, -K_BOUND))
  }

  function Spread(prices: seq<int>): real
    requires prices != []
  {
    MaxOf(prices) as real - MinOf(prices) as real
  }

  /** The width of the last bracket, in expected value. */
  function SolverGap(m: Maths, prices: seq<int>): real
    requires m.Valid() && prices != [] && AllPriced(prices)
  {
    Mul(Mul(Div(120.0, Pow2(BALANCE_HALVINGS)), Reach(m, prices)), Spread(prices))
  }

  /** How far the balanced table may end from its target: the solver's gap and one ticket per item. */
  function BalanceTolerance(m: Maths, prices: seq<int>): real
    requires m.Valid() && prices != [] && AllPriced(prices)
  {
    SolverGap(m, prices) + Mul(|prices| as real, Spread(prices)) / 1_000_000.0
  }

  lemma PricesWithin(prices: seq<int>)
    requires prices != []
    ensures Within(AsReals(prices), MinOf(prices) as real, MaxOf(prices) as real) && MinOf(prices) <= MaxOf(prices)
  {
    hide MinOf, MaxOf;
    assert MinOf(prices) <= prices[0] <= MaxOf(prices);
  }

  /** The expected value of the shares found, before they are rounded to tickets. */
  function SolvedValue(m: Maths, prices: seq<int>, target: real): real
    requires m.Valid() && prices != [] && AllPriced(prices)
  {
    Dot(Shares(m, prices, target), AsReals(prices))
  }

  lemma SolvedValueIsEvAt(m: Maths, prices: seq<int>, target: real)
    requires m.Valid() && prices != [] && AllPriced(prices)
    ensures EvAt(m, prices, Exponent(m, prices, target)) == SolvedValue(m, prices, target)
  {
    hide Halved, Dot, Exponent;
  }

  /** For every target, the solved value is within the solver's gap of the value nearest to it within reach. */
  lemma SolvedValueIsNearest(m: Maths, prices: seq<int>, target: real)
    requires m.Valid() && prices != [] && AllPriced(prices)
    ensures -SolverGap(m, prices) <= SolvedValue(m, prices, target) - NearestValue(m, prices, target) <= SolverGap(m, prices)
    ensures EvAt(m, prices, K_BOUND) <= SolvedValue(m, prices, target) <= EvAt(m, prices, -K_BOUND)
  {
    hide Halved, Pow2, Mul, Div, Dot, IsExp, IsLog, MinOf, MaxOf, Reach, CurveWeights, AllPriced, Shares, SolvedValue;
    var t, k := CurveTilt(m, prices), Exponent(m, prices, target);
    SolvedValueIsEvAt(m, prices, target);
    EvAtIsEv(m, prices, k);
    EvAtIsEv(m, prices, -K_BOUND);
    EvAtIsEv(m, prices, K_BOUND);
    hide CurveTilt;
    PricesWithin(prices);
    SolutionIsClose(t, target, K_RANGE, BALANCE_HALVINGS, Reach(m, prices), MinOf(prices) as real, MaxOf(prices) as real);
    HalvedKeeps(t, target, K_RANGE, BALANCE_HALVINGS);
    t.EvFalls(-K_BOUND, k);
    t.EvFalls(k, K_BOUND);
  }

  /**
   * When the search meets its target: within the solver's gap if the target is
   * within reach, and only if it is within that gap of what is.
   */
  lemma TargetIsMetWithinReach(m: Maths, prices: seq<int>, target: real)
    requires m.Valid() && prices != [] && AllPriced(prices)
    ensures var gap := SolverGap(m, prices); var miss := SolvedValue(m, prices, target) - target;
            && (WithinReach(m, prices, target) ==> -gap <= miss <= gap)
            && (-gap <= miss <= gap ==>
                  EvAt(m, prices, K_BOUND) - gap <= target <= EvAt(m, prices, -K_BOUND) + gap)
  {
    hide SolvedValue, SolverGap, EvAt, IsExp, IsLog, AllPriced;
    SolvedValueIsNearest(m, prices, target);
  }

  /**
   * Every balanced case is worth the value nearest to its target within reach,
   * up to the tolerance: the target itself when that is within reach.
   */
  lemma BalancedCaseComesNearest(m: Maths, prices: seq<int>, casePrice: int, targetRtp: real)
    requires m.Valid() && IsBalanced(AutoBalanced(m, prices, casePrice, targetRtp))
    ensures var b := AutoBalanced(m, prices, casePrice, targetRtp).value;
            var target := Mul(casePrice as real, targetRtp);
            |b.ranges| == |prices|
            && -BalanceTolerance(m, prices) <= ExpectedValue(b.ranges, prices) - NearestValue(m, prices, target)
            && ExpectedValue(b.ranges, prices) - NearestValue(m, prices, target) <= BalanceTolerance(m, prices)
            && (WithinReach(m, prices, target) ==> NearestValue(m, prices, target) == target)
  {
    hide Halved, Pow2, Mul, Div, Dot, IsExp, IsLog, MinOf, MaxOf, Reach, Spread, CurveWeights, ExpectedValue, LayOut,
         Widths, EndOfSearch, EvAt, SolverGap;
    var target := Mul(casePrice as real, targetRtp);
    var s := Shares(m, prices, target);
    SolvedValueIsNearest(m, prices, target);
    PricesWithin(prices);
    hide Shares, Exponent, AllPriced, NearestValue;
    RoundingMovesLittle(s, prices, MinOf(prices) as real, MaxOf(prices) as real);
    assert Spread(prices) == MaxOf(prices) as real - MinOf(prices) as real by { SpreadIs(prices); }
    assert WithinReach(m, prices, target) ==> NearestValue(m, prices, target) == target by { NearestIsTarget(m, prices, target); }
  }

  lemma NearestIsTarget(m: Maths, prices: seq<int>, target: real)
    requires m.Valid() && prices != [] && AllPriced(prices)
    ensures WithinReach(m, prices, target) ==> NearestValue(m, prices, target) == target
  {
  }

  lemma SpreadIs(prices: seq<int>)
    requires prices != []
    ensures Spread(prices) == MaxOf(prices) as real - MinOf(prices) as real
  {
  }

  // ----- the achievable range

  lemma {:induction false} WidthPayBetween(s: seq<Range>, prices: seq<int>, low: int, high: int)
    requires |s| == |prices| && forall i :: 0 <= i < |s| ==> Width(s[i]) >= 0 && low <= prices[i] <= high
    ensures low * TotalWidth(s) <= WidthPay(s, prices) <= high * TotalWidth(s)
  {
    if s != [] {
      var n := |s| - 1;
      WidthPayBetween(s[..n], prices[..n], low, high);
      BetweenProducts(Width(s[n]), prices[n], low, high, TotalWidth(s[..n]));
    }
  }

  lemma BetweenProducts(w: int, p: int, low: int, high: int, rest: int)
    requires w >= 0 && low <= p <= high
    ensures low * w <= w * p <= high * w
    ensures low * (rest + w) == low * rest + low * w && high * (rest + w) == high * rest + high * w
  {
  }

  function TotalWidth(s: seq<Range>): int {
    if s == [] then 0 else TotalWidth(s[..|s| - 1]) + Width(s[|s| - 1])
  }

  lemma {:induction false} TotalWidthHead(s: seq<Range>)
    requires s != []
    ensures TotalWidth(s) == Width(s[0]) + TotalWidth(s[1..])
  {
    var n := |s| - 1;
    if n > 0 {
      TotalWidthHead(s[..n]);
      assert s[1..][..n - 1] == s[..n][1..];
    }
  }

  lemma {:induction false} TilingWidth(s: seq<Range>, cursor: int)
    requires TilesFrom(s, cursor)
    ensures TotalWidth(s) == TICKET_SPACE - cursor
  {
    if s != [] {
      TilingWidth(s[1..], s[0].rangeTo + 1);
      TotalWidthHead(s);
    }
  }

  /** No table over these items returns less than the cheapest or more than the dearest of them. */
  lemma NoTableReturnsMore(s: seq<Range>, prices: seq<int>, casePrice: int)
    requires |s| == |prices| > 0 && TilesFrom(s, 0) && casePrice > 0
    ensures MinOf(prices) as real / casePrice as real <= CalculateRtp(s, prices, casePrice)
    ensures CalculateRtp(s, prices, casePrice) <= MaxOf(prices) as real / casePrice as real
  {
    hide MinOf, MaxOf;
    TilesCoverOnce(s, 0);
    TilingWidth(s, 0);
    WidthPayBetween(s, prices, MinOf(prices), MaxOf(prices));
    ExpectedIsWidthPay(s, prices);
    hide WidthPay, ExpectedValue;
    DivideThrough(MinOf(prices), MaxOf(prices), WidthPay(s, prices), casePrice);
  }

  lemma DivideThrough(low: int, high: int, pay: int, casePrice: int)
    requires low * 1_000_000 <= pay <= high * 1_000_000 && casePrice > 0
    ensures low as real / casePrice as real <= pay as real / 1_000_000.0 / casePrice as real
    ensures pay as real / 1_000_000.0 / casePrice as real <= high as real / casePrice as real
  {
    var x, c := pay as real / 1_000_000.0, casePrice as real;
    assert low as real <= x <= high as real;
    QuotientOrder(low as real, c, x, c);
    QuotientOrder(x, c, high as real, c);
    ScaleLe(low as real, x, c);
    ScaleLe(x, high as real, c);
  }

  // ----- when a case is balanced

  /** Some item costs no more than the target and some item no less. */
  predicate WithinPrices(prices: seq<int>, target: real) {
    && (exists i :: 0 <= i < |prices| && prices[i] as real <= target)
    && (exists i :: 0 <= i < |prices| && target <= prices[i] as real)
  }

  /** One of the prices, and none is lower. */
  predicate IsCheapest(prices: seq<int>, low: int) {
    low in prices && forall i :: 0 <= i < |prices| ==> low <= prices[i]
  }

  predicate IsDearest(prices: seq<int>, high: int) {
    high in prices && forall i :: 0 <= i < |prices| ==> prices[i] <= high
  }

  lemma RangeIsPrices(prices: seq<int>, casePrice: int, targetRtp: real)
    requires prices != [] && casePrice > 0
    ensures TargetOutOfRange(prices, casePrice, targetRtp) <==> !WithinPrices(prices, Mul(casePrice as real, targetRtp))
    ensures IsCheapest(prices, MinOf(prices)) && IsDearest(prices, MaxOf(prices))
  {
    var c, low, high := casePrice as real, MinOf(prices) as real, MaxOf(prices) as real;
    var target := Mul(c, targetRtp);
    AgainstQuotient(targetRtp, low, c);
    AgainstQuotient(targetRtp, high, c);
    hide MinOf, MaxOf, Mul, Div;
    var i :| 0 <= i < |prices| && prices[i] == MinOf(prices);
    var j :| 0 <= j < |prices| && prices[j] == MaxOf(prices);
    assert low <= target ==> prices[i] as real <= target;
    assert target <= high ==> target <= prices[j] as real;
  }

  lemma AgainstQuotient(x: real, a: real, c: real)
    requires c > 0.0
    ensures x < Div(a, c) <==> Mul(c, x) < a
    ensures x > Div(a, c) <==> Mul(c, x) > a
  {
    DivideBack(a, c);
    Reassociate(Div(a, c), c, 0.0);
    if x < Div(a, c) {
      ScaleLt(x, Div(a, c), c);
    } else if x > Div(a, c) {
      ScaleLt(Div(a, c), x, c);
    }
  }

  /**
   * Exactly when a case is balanced: there are items, a positive case price,
   * a price on every item, the target lies among the prices, and no more items
   * than tickets. Every refusal has its own condition, and the one for the
   * target reports the returns of the cheapest and of the dearest item.
   */
  lemma BalancesExactlyWhen(m: Maths, prices: seq<int>, casePrice: int, targetRtp: real)
    requires m.Valid()
    ensures var r := AutoBalanced(m, prices, casePrice, targetRtp);
            var priced := forall i :: 0 <= i < |prices| ==> prices[i] > 0;
            var within := WithinPrices(prices, Mul(casePrice as real, targetRtp));
            && (r == Ok(Failed(FailureCode.NoItems, 0.0, 0.0)) <==> prices == [])
            && (r == Ok(Failed(BadPrice, 0.0, 0.0)) <==> prices != [] && casePrice <= 0)
            && (r == Ok(Failed(NoPrices, 0.0, 0.0)) <==> prices != [] && casePrice > 0 && !priced)
            && (IsBalanced(r) <==> prices != [] && casePrice > 0 && priced && within && |prices| <= TICKET_SPACE)
            && (r.Err? <==> prices != [] && casePrice > 0 && priced && within && |prices| > TICKET_SPACE)
            && (r.Ok? && r.value.Failed? && r.value.code == OutOfRange <==> prices != [] && casePrice > 0 && priced && !within)
            && (r.Ok? && r.value.Failed? && r.value.code == OutOfRange ==>
                  forall low, high :: IsCheapest(prices, low) && IsDearest(prices, high) ==>
                    Mul(r.value.minRtp, casePrice as real) == low as real && Mul(r.value.maxRtp, casePrice as real) == high as real)
  {
    hide Shares, Exponent, CalculateRtp, LayOut, Widths, IsExp, IsLog, Mul, Div, MinOf, MaxOf, WithinPrices, TargetOutOfRange;
    if prices != [] && casePrice > 0 {
      RangeIsPrices(prices, casePrice, targetRtp);
      DivideBack(MinOf(prices) as real, casePrice as real);
      DivideBack(MaxOf(prices) as real, casePrice as real);
      forall low, high | IsCheapest(prices, low) && IsDearest(prices, high)
        ensures low == MinOf(prices) && high == MaxOf(prices)
      {
      }
    }
  }

  // ----- the range k is searched in

  /** Two items whose prices nearly agree: even at the end of the range the dearer one keeps its weight. */
  lemma CloseCurve(m: Maths)
    requires m.Valid() && AllPriced([1000, 1001])
    ensures EvAt(m, [1000, 1001], K_BOUND) > 1000.4
  {
    hide Mul, Div, CurveTilt, EvAt, IsExp, IsLog, Slope, MinOf, MaxOf, Reach, Sum, RatioScale, Follows;
    var prices := [1000, 1001];
    EvAtIsEv(m, prices, K_BOUND);
    var t := CurveTilt(m, prices);
    CloseScale(m, t);
    var w := t.Raw(K_BOUND);
    t.RawIsPositive(K_BOUND);
    CloseWeights(m, t.scale, w);
    assert AsReals(prices) == [1000.0, 1001.0];
    hide AsReals, AllPriced, Within;
    CloseMean(w);
  }

  lemma MinOfTwo()
    ensures MinOf([1000, 1001]) == 1000
  {
    assert [1000, 1001][..1] == [1000];
  }

  lemma CloseScale(m: Maths, t: Tilted)
    requires m.Valid() && AllPriced([1000, 1001]) && t == CurveTilt(m, [1000, 1001])
    ensures |t.scale| == 2 && t.scale[0] == 0.0 && 0.0 <= t.scale[1] <= 0.001
  {
    MinOfTwo();
    LogOfOne(m.ln, m.exp);
    ExpTangent(m.exp, 0.001);
    LogBelow(m.ln, m.exp, 1.001, 0.001);
    LogNeverFalls(m, 1.0, 1.001);
    assert Div(1000.0, 1000.0) == 1.0 && Div(1001.0, 1000.0) == 1.001;
  }

  lemma CloseWeights(m: Maths, scale: seq<real>, w: seq<real>)
    requires m.Valid() && |scale| == 2 && scale[0] == 0.0 && 0.0 <= scale[1] <= 0.001
    requires |w| == 2 && w[0] == m.exp(Slope(K_BOUND, scale[0])) && w[1] == m.exp(Slope(K_BOUND, scale[1]))
    ensures w[0] == 1.0 && w[1] >= 0.94
  {
    ExpAtZero(m.exp);
    ExpTangent(m.exp, Slope(K_BOUND, scale[1]));
  }

  lemma CloseMean(w: seq<real>)
    requires |w| == 2 && w[0] == 1.0 && w[1] >= 0.94 && Sum(w) > 0.0
    ensures Mean(w, [1000.0, 1001.0]) > 1000.4
  {
    var p := [1000.0, 1001.0];
    var gains := Times(w, Above(p, 1000.4));
    assert gains == [Mul(w[0], -0.4), Mul(w[1], 0.6)];
    assert gains[..1][..0] == [] && Sum(gains[..1]) == gains[0] && Sum(gains) == gains[0] + gains[1];
    MeanIsOver(w, p, 1000.4);
    hide Dot, Sum, Mean;
    QuotientIsPositive(Over(w, p, 1000.4), Sum(w));
  }

  /**
   * A target equal to the cheapest item's return is accepted but not met:
   * the search range does not pin everything to the cheapest item, and the
   * expected value stays above 1000.4.
   */
  lemma BalanceCanMissItsTarget(m: Maths)
    requires m.Valid()
    ensures AllPriced([1000, 1001]) && !TargetOutOfRange([1000, 1001], 1000, 1.0)
    ensures !WithinReach(m, [1000, 1001], 1000.0)
    ensures SolvedValue(m, [1000, 1001], 1000.0) > 1000.4
  {
    hide SolvedValue, EvAt, SolverGap;
    MinOfTwo();
    AcceptedTarget();
    CloseCurve(m);
    SolvedValueIsNearest(m, [1000, 1001], 1000.0);
  }

  lemma AcceptedTarget()
    ensures AllPriced([1000, 1001]) && !TargetOutOfRange([1000, 1001], 1000, 1.0)
  {
    MinOfTwo();
    assert MaxOf([1000, 1001]) >= [1000, 1001][1];
    DivideBack(1000.0, 1000.0);
    QuotientOrder(1000.0, 1000.0, MaxOf([1000, 1001]) as real, 1000.0);
    ScaleLe(1000.0, MaxOf([1000, 1001]) as real, 1000.0);
  }
}
