/** `autoBalance` and `judgeRtp`: odds for a target return, and which returns may be saved. */
module Balancing {
  import opened Apportion
  import opened Bisection
  import opened ContractOdds
  import opened Distribution
  import opened Exponential
  import opened Reals
  import opened Rolls
  import opened Tickets
  import opened Tilt
  import opened Weights
  import opened Wrappers

  datatype FailureCode = NoItems | BadPrice | NoPrices | OutOfRange

  datatype BalanceOutcome =
    | Balanced(ranges: seq<Range>, actualRtp: real, exponent: real)
    | Failed(code: FailureCode, minRtp: real, maxRtp: real)

  const K_BOUND := 60.0
  const BALANCE_HALVINGS := 200
  const K_RANGE := Bracket(-K_BOUND, K_BOUND)

  function MinOf(a: seq<int>): (m: int)
    requires a != []
    ensures m in a && forall i :: 0 <= i < |a| ==> m <= a[i]
  {
    if |a| == 1 then a[0] else Min(MinOf(a[..|a| - 1]), a[|a| - 1])
  }

  function MaxOf(a: seq<int>): (m: int)
    requires a != []
    ensures m in a && forall i :: 0 <= i < |a| ==> a[i] <= m
  {
    if |a| == 1 then a[0] else Max(MaxOf(a[..|a| - 1]), a[|a| - 1])
  }

  predicate AllPriced(prices: seq<int>) {
    forall i :: 0 <= i < |prices| ==> prices[i] > 0
  }

  /** `Math.pow` of a positive base. */
  function Pow(m: Maths, base: real, exponent: real): real {
    m.exp(Mul(exponent, m.ln(base)))
  }

  /** `pow(p / minPrice, -k)` for every price. */
  function CurveWeights(m: Maths, prices: seq<int>, k: real): (w: seq<real>)
    requires prices != [] && AllPriced(prices)
    ensures |w| == |prices|
  {
    seq(|prices|, i requires 0 <= i < |prices| => Pow(m, Div(prices[i] as real, MinOf(prices) as real), -k))
  }

  function RatioScale(m: Maths, prices: seq<int>): (u: seq<real>)
    requires prices != [] && AllPriced(prices)
    ensures |u| == |prices|
  {
    seq(|prices|, i requires 0 <= i < |prices| => m.ln(Div(prices[i] as real, MinOf(prices) as real)))
  }

  /** The logarithm of the widest price ratio. */
  function Reach(m: Maths, prices: seq<int>): real
    requires prices != [] && AllPriced(prices)
  {
    m.ln(Div(MaxOf(prices) as real, MinOf(prices) as real))
  }

  lemma SelfQuotient(x: real)
    requires x > 0.0
    ensures Div(x, x) == 1.0
  {
  }

  lemma RatioOrder(m: Maths, a: int, b: int, base: int)
    requires m.Valid() && 0 < a && 0 < b && 0 < base
    ensures a <= b ==> m.ln(Div(a as real, base as real)) <= m.ln(Div(b as real, base as real))
    ensures a < b ==> m.ln(Div(a as real, base as real)) < m.ln(Div(b as real, base as real))
    ensures a == base ==> m.ln(Div(a as real, base as real)) == 0.0
  {
    hide IsExp, IsLog;
    QuotientIsPositive(a as real, base as real);
    QuotientIsPositive(b as real, base as real);
    UnitScale(a as real, b as real, 0.0, base as real);
    LogOfOne(m.ln, m.exp);
    SelfQuotient(base as real);
    if a <= b {
      LogNeverFalls(m, Div(a as real, base as real), Div(b as real, base as real));
    }
  }

  function CurveTilt(m: Maths, prices: seq<int>): (t: Tilted)
    requires m.Valid() && prices != [] && AllPriced(prices)
    ensures t.Valid() && t.prices == AsReals(prices) && t.scale == RatioScale(m, prices) && t.exp == m.exp
    ensures Within(t.scale, 0.0, Reach(m, prices))
  {
    RatioScaleFollows(m, prices);
    Tilted(m.exp, RatioScale(m, prices), AsReals(prices))
  }

  lemma RatioScaleFollows(m: Maths, prices: seq<int>)
    requires m.Valid() && prices != [] && AllPriced(prices)
    ensures Follows(RatioScale(m, prices), AsReals(prices)) && Within(RatioScale(m, prices), 0.0, Reach(m, prices))
  {
    var u, p, min, max := RatioScale(m, prices), AsReals(prices), MinOf(prices), MaxOf(prices);
    hide Div, IsExp, IsLog, MinOf, MaxOf;
    forall i, j | 0 <= i < |p| && 0 <= j < |p|
      ensures (p[i] <= p[j] ==> u[i] <= u[j]) && (p[i] < p[j] ==> u[i] < u[j])
    {
      RatioOrder(m, prices[i], prices[j], min);
    }
    forall i | 0 <= i < |u| ensures 0.0 <= u[i] <= Reach(m, prices) {
      RatioOrder(m, min, prices[i], min);
      RatioOrder(m, prices[i], max, min);
    }
  }

  lemma MinusTimes(k: real, x: real)
    ensures Mul(-k, x) == Slope(k, x)
  {
  }

  /** The source's weights are the pool's, tilted by `k`. */
  lemma CurveIsTilt(m: Maths, prices: seq<int>, k: real)
    requires m.Valid() && prices != [] && AllPriced(prices)
    ensures CurveWeights(m, prices, k) == CurveTilt(m, prices).Raw(k)
    ensures Positive(CurveWeights(m, prices, k)) && Sum(CurveWeights(m, prices, k)) > 0.0
  {
    hide Div, IsExp, IsLog, MinOf, MaxOf, Slope, Mul, Sum;
    var t := CurveTilt(m, prices);
    forall i | 0 <= i < |prices| ensures CurveWeights(m, prices, k)[i] == t.Raw(k)[i] {
      MinusTimes(k, t.scale[i]);
    }
    t.RawIsPositive(k);
  }

  /** `evAt`. */
  function EvAt(m: Maths, prices: seq<int>, k: real): real
    requires m.Valid() && prices != [] && AllPriced(prices)
  {
    CurveIsTilt(m, prices, k);
    Dot(Normal(CurveWeights(m, prices, k)), AsReals(prices))
  }

  lemma EvAtIsEv(m: Maths, prices: seq<int>, k: real)
    requires m.Valid() && prices != [] && AllPriced(prices)
    ensures EvAt(m, prices, k) == CurveTilt(m, prices).Ev(k)
  {
    CurveIsTilt(m, prices, k);
    hide Dot, Sum, CurveWeights, Normal;
    MeanIsNormalDot(CurveWeights(m, prices, k), AsReals(prices));
  }

  /** Expected value never rises in k, and falls strictly unless all prices are equal. */
  lemma EvAtFalls(m: Maths, prices: seq<int>, k: real, k': real)
    requires m.Valid() && prices != [] && AllPriced(prices) && k < k'
    ensures EvAt(m, prices, k') <= EvAt(m, prices, k)
    ensures MinOf(prices) < MaxOf(prices) ==> EvAt(m, prices, k') < EvAt(m, prices, k)
  {
    EvAtIsEv(m, prices, k);
    EvAtIsEv(m, prices, k');
    var t := CurveTilt(m, prices);
    hide EvAt, CurveTilt;
    t.EvFalls(k, k');
    if MinOf(prices) < MaxOf(prices) {
      var a :| 0 <= a < |prices| && prices[a] == MinOf(prices);
      var b :| 0 <= b < |prices| && prices[b] == MaxOf(prices);
      assert t.prices[a] < t.prices[b];
      t.EvFallsStrictly(k, k', if a < b then a else b, if a < b then b else a);
    }
  }

  // ----- the search

  function EndOfSearch(m: Maths, prices: seq<int>, target: real, b: Bracket, times: nat): Bracket
    requires m.Valid() && prices != [] && AllPriced(prices)
  {
    Halved(CurveTilt(m, prices), target, b, times)
  }

  lemma CurveStep(m: Maths, prices: seq<int>, target: real, lo: real, hi: real, times: nat)
    requires m.Valid() && prices != [] && AllPriced(prices)
    ensures times == 0 ==> EndOfSearch(m, prices, target, Bracket(lo, hi), times) == Bracket(lo, hi)
    ensures var mid := (lo + hi) / 2.0;
            times > 0 ==>
              EndOfSearch(m, prices, target, Bracket(lo, hi), times)
              == if EvAt(m, prices, mid) > target
                 then EndOfSearch(m, prices, target, Bracket(mid, hi), times - 1)
                 else EndOfSearch(m, prices, target, Bracket(lo, mid), times - 1)
  {
    if times > 0 {
      EvAtIsEv(m, prices, Bracket(lo, hi).Mid());
      HalvedStep(CurveTilt(m, prices), target, Bracket(lo, hi), times);
      hide CurveTilt, EvAt;
    }
  }

  function Exponent(m: Maths, prices: seq<int>, target: real): real
    requires m.Valid() && prices != [] && AllPriced(prices)
  {
    EndOfSearch(m, prices, target, K_RANGE, BALANCE_HALVINGS).Mid()
  }

  method SearchExponent(m: Maths, prices: seq<int>, target: real) returns (exponent: real)
    requires m.Valid() && prices != [] && AllPriced(prices)
    ensures exponent == Exponent(m, prices, target)
  {
    hide EndOfSearch, EvAt, IsExp, IsLog, AllPriced;
    var lo, hi := -K_BOUND, K_BOUND;
    ghost var end := EndOfSearch(m, prices, target, Bracket(lo, hi), BALANCE_HALVINGS);
    var iter := 0;
    while iter < BALANCE_HALVINGS
      invariant 0 <= iter <= BALANCE_HALVINGS
      invariant end == EndOfSearch(m, prices, target, Bracket(lo, hi), BALANCE_HALVINGS - iter)
    {
      var mid := (lo + hi) / 2.0;
      CurveStep(m, prices, target, lo, hi, BALANCE_HALVINGS - iter);
      if EvAt(m, prices, mid) > target {
        lo := mid;
      } else {
        hi := mid;
      }
      iter := iter + 1;
    }
    CurveStep(m, prices, target, lo, hi, 0);
    exponent := (lo + hi) / 2.0;
  }

  function Shares(m: Maths, prices: seq<int>, target: real): (s: seq<real>)
    requires m.Valid() && prices != [] && AllPriced(prices)
    ensures |s| == |prices| && IsDistribution(s)
  {
    CurveIsTilt(m, prices, Exponent(m, prices, target));
    NormalAddsUp(CurveWeights(m, prices, Exponent(m, prices, target)));
    Normal(CurveWeights(m, prices, Exponent(m, prices, target)))
  }

  lemma PowersMeet(k: real, x: real, y: real)
    ensures Mul(-k, x - y) + Mul(k, x) == Mul(k, y)
  {
  }

  lemma InversePower(m: Maths, price: real, base: real, k: real)
    requires m.Valid() && price > 0.0 && base > 0.0
    ensures Mul(Pow(m, Div(price, base), -k), Pow(m, price, k)) == Pow(m, base, k)
  {
    hide IsExp, IsLog;
    LogOfQuotient(m.ln, m.exp, price, base);
    PowersMeet(k, m.ln(price), m.ln(base));
    ExpAdd(m.exp, Mul(-k, m.ln(price) - m.ln(base)), Mul(k, m.ln(price)));
  }

  lemma QuotientTimes(a: real, b: real, c: real)
    requires b != 0.0
    ensures Mul(Div(a, b), c) == Div(Mul(a, c), b)
  {
  }

  /** An item is as likely as its price to the power -k: the share times the price to the power k is the same for all. */
  lemma SharesAreInversePowers(m: Maths, prices: seq<int>, target: real, i: nat, j: nat)
    requires m.Valid() && prices != [] && AllPriced(prices) && i < |prices| && j < |prices|
    ensures var k := Exponent(m, prices, target);
            Mul(Shares(m, prices, target)[i], Pow(m, prices[i] as real, k))
            == Mul(Shares(m, prices, target)[j], Pow(m, prices[j] as real, k))
  {
    hide Mul, Div, IsExp, IsLog, Sum, Exponent, Pow, MinOf, IsDistribution;
    var k := Exponent(m, prices, target);
    var w, base := CurveWeights(m, prices, k), MinOf(prices) as real;
    CurveIsTilt(m, prices, k);
    InversePower(m, prices[i] as real, base, k);
    InversePower(m, prices[j] as real, base, k);
    QuotientTimes(w[i], Sum(w), Pow(m, prices[i] as real, k));
    QuotientTimes(w[j], Sum(w), Pow(m, prices[j] as real, k));
  }

  predicate TargetOutOfRange(prices: seq<int>, casePrice: int, targetRtp: real)
    requires prices != [] && casePrice > 0
  {
    targetRtp < Div(MinOf(prices) as real, casePrice as real) || targetRtp > Div(MaxOf(prices) as real, casePrice as real)
  }

  /** What the solver answers; a list longer than the ticket space makes `distributeRanges` throw. */
  function AutoBalanced(m: Maths, prices: seq<int>, casePrice: int, targetRtp: real): Result<BalanceOutcome, DistributionError>
    requires m.Valid()
  {
    if prices == [] then Ok(Failed(FailureCode.NoItems, 0.0, 0.0))
    else if casePrice <= 0 then Ok(Failed(BadPrice, 0.0, 0.0))
    else if !AllPriced(prices) then Ok(Failed(NoPrices, 0.0, 0.0))
    else if TargetOutOfRange(prices, casePrice, targetRtp) then
      Ok(Failed(OutOfRange, Div(MinOf(prices) as real, casePrice as real), Div(MaxOf(prices) as real, casePrice as real)))
    else
      var target := Mul(casePrice as real, targetRtp);
      if |prices| > TICKET_SPACE then Err(MoreItemsThanTickets)
      else
        var ranges := LayOut(Widths(Shares(m, prices, target)), 0);
        Ok(Balanced(ranges, CalculateRtp(ranges, prices, casePrice), Exponent(m, prices, target)))
  }

  method AutoBalance(m: Maths, prices: seq<int>, casePrice: int, targetRtp: real)
    returns (r: Result<BalanceOutcome, DistributionError>)
    requires m.Valid()
    ensures r == AutoBalanced(m, prices, casePrice, targetRtp)
  {
    hide Exponent, EndOfSearch, CalculateRtp, LayOut, Widths, CurveWeights, Normal, MinOf, MaxOf, Div, Mul, IsExp, IsLog, TilesFrom;
    if |prices| == 0 {
      return Ok(Failed(FailureCode.NoItems, 0.0, 0.0));
    }
    if casePrice <= 0 {
      return Ok(Failed(BadPrice, 0.0, 0.0));
    }
    if !AllPriced(prices) {
      return Ok(Failed(NoPrices, 0.0, 0.0));
    }
    var minRtp, maxRtp := Div(MinOf(prices) as real, casePrice as real), Div(MaxOf(prices) as real, casePrice as real);
    if targetRtp < minRtp || targetRtp > maxRtp {
      return Ok(Failed(OutOfRange, minRtp, maxRtp));
    }
    var target := Mul(casePrice as real, targetRtp);
    var exponent := SearchExponent(m, prices, target);
    CurveIsTilt(m, prices, exponent);
    var distributed := DistributeRanges(Normal(CurveWeights(m, prices, exponent)));
    match distributed
    case Err(e) => return Err(e);
    case Ok(ranges) => return Ok(Balanced(ranges, CalculateRtp(ranges, prices, casePrice), exponent));
  }
}
