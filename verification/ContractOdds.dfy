/** The contract's odds: an exponential tilt over log-prices, solved for an expected value. */
module ContractOdds {
  import opened Bisection
  import opened Exponential
  import opened Reals
  import opened Tilt
  import opened Weights

  const ALPHA_BOUND := 100.0
  const HALVINGS := 80

  /** `Math.exp` and `Math.log`. */
  datatype Maths = Maths(exp: real -> real, ln: real -> real) {
    ghost predicate Valid() {
      IsExp(exp) && IsLog(ln, exp)
    }
  }

  // ----- the source's functions

  function Exponents(logs: seq<real>, span: real, alpha: real): (e: seq<real>)
    requires logs != [] && span > 0.0
    ensures |e| == |logs|
  {
    seq(|logs|, i requires 0 <= i < |logs| => Div(Mul(-alpha, logs[i] - logs[0]), span))
  }

  /** `Math.max(...a)`. */
  function Peak(a: seq<real>): real
    requires a != []
  {
    if |a| == 1 then a[0]
    else
      var rest := Peak(a[..|a| - 1]);
      if a[|a| - 1] > rest then a[|a| - 1] else rest
  }

  function ShiftedExp(exp: real -> real, exponents: seq<real>): (raw: seq<real>)
    requires exponents != []
    ensures |raw| == |exponents|
  {
    ShiftedBy(exp, exponents, Peak(exponents))
  }

  function ShiftedBy(exp: real -> real, exponents: seq<real>, shift: real): (raw: seq<real>)
    ensures |raw| == |exponents|
  {
    seq(|exponents|, i requires 0 <= i < |exponents| => exp(exponents[i] - shift))
  }

  function TiltedWeights(exp: real -> real, logs: seq<real>, span: real, alpha: real): (w: seq<real>)
    requires IsExp(exp) && logs != [] && span > 0.0
    ensures |w| == |logs|
  {
    var raw := ShiftedExp(exp, Exponents(logs, span, alpha));
    ShiftedExpIsPositive(exp, Exponents(logs, span, alpha));
    Normal(raw)
  }

  function TiltedExpectedValue(exp: real -> real, prices: seq<real>, logs: seq<real>, span: real, alpha: real): real
    requires IsExp(exp) && |logs| == |prices| > 0 && span > 0.0
  {
    Dot(TiltedWeights(exp, logs, span, alpha), prices)
  }

  lemma ShiftedExpIsPositive(exp: real -> real, exponents: seq<real>)
    requires IsExp(exp) && exponents != []
    ensures Positive(ShiftedExp(exp, exponents)) && Sum(ShiftedExp(exp, exponents)) > 0.0
  {
    hide IsExp;
    forall i | 0 <= i < |exponents| ensures ShiftedExp(exp, exponents)[i] > 0.0 {
      ExpPositive(exp, exponents[i] - Peak(exponents));
    }
    PositiveSum(ShiftedExp(exp, exponents));
  }

  // ----- the pool as a tilted pool

  /** The cheapest price is 0, the dearest 1, the others lie between by their logarithms. */
  function LogScale(logs: seq<real>, span: real): (u: seq<real>)
    requires logs != [] && span > 0.0
    ensures |u| == |logs|
  {
    seq(|logs|, i requires 0 <= i < |logs| => Div(logs[i] - logs[0], span))
  }

  function Logs(ln: real -> real, prices: seq<real>): (logs: seq<real>)
    ensures |logs| == |prices|
  {
    seq(|prices|, i requires 0 <= i < |prices| => ln(prices[i]))
  }

  ghost predicate Ascending(a: seq<real>) {
    forall i, j :: 0 <= i < j < |a| ==> a[i] <= a[j]
  }

  /** What the solver is given: prices in ascending order, not all equal. */
  ghost predicate Solvable(prices: seq<real>) {
    prices != [] && Positive(prices) && Ascending(prices) && prices[0] < prices[|prices| - 1]
  }

  function Span(ln: real -> real, prices: seq<real>): real
    requires prices != []
  {
    ln(prices[|prices| - 1]) - ln(prices[0])
  }

  function PoolTilt(m: Maths, prices: seq<real>): (t: Tilted)
    requires m.Valid() && Solvable(prices)
    ensures t.Valid() && t.prices == prices && t.exp == m.exp && Within(t.scale, 0.0, 1.0)
    ensures Span(m.ln, prices) > 0.0 && t.scale == LogScale(Logs(m.ln, prices), Span(m.ln, prices))
  {
    LogGrows(m.ln, m.exp, prices[0], prices[|prices| - 1]);
    LogScaleFollows(m, prices);
    Tilted(m.exp, LogScale(Logs(m.ln, prices), Span(m.ln, prices)), prices)
  }

  lemma LogNeverFalls(m: Maths, x: real, y: real)
    requires m.Valid() && 0.0 < x <= y
    ensures m.ln(x) <= m.ln(y) && (x < y ==> m.ln(x) < m.ln(y))
  {
    if x < y {
      LogGrows(m.ln, m.exp, x, y);
    }
  }

  lemma UnitScale(a: real, b: real, c: real, span: real)
    requires span > 0.0
    ensures a <= b ==> Div(a, span) <= Div(b, span)
    ensures a < b ==> Div(a, span) < Div(b, span)
    ensures 0.0 <= c <= span ==> 0.0 <= Div(c, span) <= 1.0
  {
    QuotientOrder(a, span, b, span);
    if a < b {
      ScaleLt(a, b, span);
    }
    if 0.0 <= c <= span {
      DivideBack(c, span);
      CancelPositive(Div(c, span), 1.0, span);
      CancelPositive(0.0, Div(c, span), span);
    }
  }

  lemma LogScaleFollows(m: Maths, prices: seq<real>)
    requires m.Valid() && Solvable(prices) && Span(m.ln, prices) > 0.0
    ensures Follows(LogScale(Logs(m.ln, prices), Span(m.ln, prices)), prices)
    ensures Within(LogScale(Logs(m.ln, prices), Span(m.ln, prices)), 0.0, 1.0)
  {
    var logs, span, n := Logs(m.ln, prices), Span(m.ln, prices), |prices|;
    var u := LogScale(logs, span);
    hide Div, Mul, IsExp, IsLog;
    forall i, j | 0 <= i < n && 0 <= j < n
      ensures (prices[i] <= prices[j] ==> u[i] <= u[j]) && (prices[i] < prices[j] ==> u[i] < u[j])
    {
      if prices[i] <= prices[j] {
        LogNeverFalls(m, prices[i], prices[j]);
      }
      UnitScale(logs[i] - logs[0], logs[j] - logs[0], 0.0, span);
    }
    forall i | 0 <= i < n ensures 0.0 <= u[i] <= 1.0 {
      LogNeverFalls(m, prices[0], prices[i]);
      LogNeverFalls(m, prices[i], prices[n - 1]);
      UnitScale(0.0, 0.0, logs[i] - logs[0], span);
    }
  }

  lemma ExponentIsSlope(alpha: real, x: real, span: real)
    requires span > 0.0
    ensures Div(Mul(-alpha, x), span) == Slope(alpha, Div(x, span))
  {
  }

  /** The source's weights over a pool of prices. */
  function PoolWeights(m: Maths, prices: seq<real>, alpha: real): (w: seq<real>)
    requires m.Valid() && Solvable(prices)
    ensures |w| == |prices|
  {
    LogNeverFalls(m, prices[0], prices[|prices| - 1]);
    TiltedWeights(m.exp, Logs(m.ln, prices), Span(m.ln, prices), alpha)
  }

  function PoolValue(m: Maths, prices: seq<real>, alpha: real): real
    requires m.Valid() && Solvable(prices)
  {
    LogNeverFalls(m, prices[0], prices[|prices| - 1]);
    TiltedExpectedValue(m.exp, prices, Logs(m.ln, prices), Span(m.ln, prices), alpha)
  }

  lemma ExponentsAreSlopes(m: Maths, prices: seq<real>, alpha: real)
    requires m.Valid() && Solvable(prices)
    ensures var t := PoolTilt(m, prices);
            forall i :: 0 <= i < |prices| ==>
              Exponents(Logs(m.ln, prices), Span(m.ln, prices), alpha)[i] == Slope(alpha, t.scale[i])
  {
    var t := PoolTilt(m, prices);
    var logs, span := Logs(m.ln, prices), Span(m.ln, prices);
    hide Div, Mul, IsExp, IsLog, Slope;
    forall i | 0 <= i < |prices| ensures Exponents(logs, span, alpha)[i] == Slope(alpha, t.scale[i]) {
      ExponentIsSlope(alpha, logs[i] - logs[0], span);
    }
  }

  lemma ShiftOne(exp: real -> real, shift: real, x: real)
    requires IsExp(exp)
    ensures exp(x - shift) == Mul(exp(-shift), exp(x))
  {
    ExpAdd(exp, -shift, x);
    assert -shift + x == x - shift;
  }

  /** Shifting the exponents divides every weight by the same factor. */
  lemma ShiftIsScale(exp: real -> real, exponents: seq<real>, shift: real, raw: seq<real>)
    requires IsExp(exp) && |raw| == |exponents|
    requires forall i :: 0 <= i < |raw| ==> raw[i] == exp(exponents[i])
    ensures ShiftedBy(exp, exponents, shift) == Scale(exp(-shift), raw)
  {
    hide Mul, IsExp;
    forall i | 0 <= i < |raw| ensures ShiftedBy(exp, exponents, shift)[i] == Scale(exp(-shift), raw)[i] {
      ShiftOne(exp, shift, exponents[i]);
      assert raw[i] == exp(exponents[i]);
    }
  }

  /** Shifting by the peak changes no weight: the shift is a common factor. */
  lemma ShiftCancels(m: Maths, prices: seq<real>, alpha: real)
    requires m.Valid() && Solvable(prices)
    ensures var t := PoolTilt(m, prices);
            Sum(t.Raw(alpha)) > 0.0 && PoolWeights(m, prices, alpha) == Normal(t.Raw(alpha))
  {
    var t := PoolTilt(m, prices);
    var exponents := Exponents(Logs(m.ln, prices), Span(m.ln, prices), alpha);
    t.RawIsPositive(alpha);
    ExpPositive(m.exp, -Peak(exponents));
    ExponentsAreSlopes(m, prices, alpha);
    ShiftIsScale(m.exp, exponents, Peak(exponents), t.Raw(alpha));
    NormalForgetsScale(m.exp(-Peak(exponents)), t.Raw(alpha));
  }

  /** The source's expected value is that of the tilted pool. */
  lemma PoolValueIsEv(m: Maths, prices: seq<real>, alpha: real)
    requires m.Valid() && Solvable(prices)
    ensures PoolValue(m, prices, alpha) == PoolTilt(m, prices).Ev(alpha) == Dot(PoolWeights(m, prices, alpha), prices)
  {
    var t := PoolTilt(m, prices);
    ShiftCancels(m, prices, alpha);
    hide TiltedWeights, Dot, Sum;
    MeanIsNormalDot(t.Raw(alpha), prices);
  }

  /** Raising alpha lowers it: the pool's prices are not all equal. */
  lemma TiltedEvFalls(m: Maths, prices: seq<real>, alpha: real, alpha': real)
    requires m.Valid() && Solvable(prices) && alpha < alpha'
    ensures PoolValue(m, prices, alpha') < PoolValue(m, prices, alpha)
  {
    PoolValueIsEv(m, prices, alpha);
    PoolValueIsEv(m, prices, alpha');
    PoolTilt(m, prices).EvFallsStrictly(alpha, alpha', 0, |prices| - 1);
  }

  /** The weights handed to the allocator are positive and add up to one. */
  lemma TiltedWeightsAddUp(m: Maths, prices: seq<real>, alpha: real)
    requires m.Valid() && Solvable(prices)
    ensures Positive(PoolWeights(m, prices, alpha)) && Sum(PoolWeights(m, prices, alpha)) == 1.0
  {
    LogNeverFalls(m, prices[0], prices[|prices| - 1]);
    var exponents := Exponents(Logs(m.ln, prices), Span(m.ln, prices), alpha);
    ShiftedExpIsPositive(m.exp, exponents);
    NormalAddsUp(ShiftedExp(m.exp, exponents));
  }

  lemma ExponentsDiffer(alpha: real, x: real, y: real, base: real, span: real)
    requires span > 0.0
    ensures Div(Mul(-alpha, x - base), span) == Div(Mul(-alpha, y - base), span) + Div(Mul(alpha, y - x), span)
  {
    assert -alpha * (x - base) == -alpha * (y - base) + alpha * (y - x);
  }

  lemma NormalKeepsRatios(w: seq<real>, i: nat, j: nat, factor: real)
    requires Sum(w) > 0.0 && i < |w| && j < |w| && w[i] == Mul(w[j], factor)
    ensures Normal(w)[i] == Mul(Normal(w)[j], factor)
  {
    assert w[j] * factor / Sum(w) == w[j] / Sum(w) * factor;
  }

  /**
   * Two outcomes are weighed by their prices alone: one outweighs the other by
   * the power -alpha of the price ratio, on the scale of the pool's widest one.
   */
  lemma WeightsFollowPrices(m: Maths, prices: seq<real>, alpha: real, i: nat, j: nat)
    requires m.Valid() && Solvable(prices) && i < |prices| && j < |prices|
    ensures m.ln(prices[|prices| - 1]) > m.ln(prices[0])
    ensures var exponent := Div(Mul(alpha, m.ln(prices[j]) - m.ln(prices[i])), m.ln(prices[|prices| - 1]) - m.ln(prices[0]));
            PoolWeights(m, prices, alpha)[i] == Mul(PoolWeights(m, prices, alpha)[j], m.exp(exponent))
  {
    LogNeverFalls(m, prices[0], prices[|prices| - 1]);
    hide Mul, Div, IsExp, IsLog, Sum, Normal, Peak;
    var logs, span := Logs(m.ln, prices), Span(m.ln, prices);
    var e := Exponents(logs, span, alpha);
    var d := Div(Mul(alpha, logs[j] - logs[i]), span);
    ShiftedExpIsPositive(m.exp, e);
    ExponentsDiffer(alpha, logs[i], logs[j], logs[0], span);
    assert e[i] - Peak(e) == (e[j] - Peak(e)) + d;
    ExpAdd(m.exp, e[j] - Peak(e), d);
    NormalKeepsRatios(ShiftedExp(m.exp, e), i, j, m.exp(d));
  }

  // ----- the search

  const WHOLE := Bracket(-ALPHA_BOUND, ALPHA_BOUND)

  function SolvedAlpha(m: Maths, prices: seq<real>, target: real): real
    requires m.Valid() && Solvable(prices)
  {
    Halved(PoolTilt(m, prices), target, WHOLE, HALVINGS).Mid()
  }

  /** Where the search ends from a given bracket. */
  function EndOf(m: Maths, prices: seq<real>, target: real, b: Bracket, times: nat): Bracket
    requires m.Valid() && Solvable(prices)
  {
    Halved(PoolTilt(m, prices), target, b, times)
  }

  lemma SearchStep(m: Maths, prices: seq<real>, logs: seq<real>, span: real, target: real, low: real, high: real, times: nat)
    requires m.Valid() && Solvable(prices) && times > 0
    requires span > 0.0 && logs == Logs(m.ln, prices) && span == Span(m.ln, prices)
    ensures var mid := (low + high) / 2.0;
            EndOf(m, prices, target, Bracket(low, high), times)
            == if TiltedExpectedValue(m.exp, prices, logs, span, mid) > target
               then EndOf(m, prices, target, Bracket(mid, high), times - 1)
               else EndOf(m, prices, target, Bracket(low, mid), times - 1)
  {
    var b := Bracket(low, high);
    PoolValueIsEv(m, prices, b.Mid());
    HalvedStep(PoolTilt(m, prices), target, b, times);
    hide PoolTilt, PoolWeights, TiltedExpectedValue;
  }

  lemma SearchEnds(m: Maths, prices: seq<real>, target: real)
    requires m.Valid() && Solvable(prices)
    ensures forall b :: EndOf(m, prices, target, b, 0) == b
  {
  }

  method SolveAlpha(m: Maths, prices: seq<real>, logs: seq<real>, span: real, target: real) returns (alpha: real)
    requires m.Valid() && Solvable(prices) && span > 0.0 && logs == Logs(m.ln, prices) && span == Span(m.ln, prices)
    ensures alpha == SolvedAlpha(m, prices, target)
  {
    hide Halved;
    var low, high := -ALPHA_BOUND, ALPHA_BOUND;
    ghost var end := EndOf(m, prices, target, Bracket(low, high), HALVINGS);
    assert SolvedAlpha(m, prices, target) == end.Mid();
    SearchEnds(m, prices, target);
    hide SolvedAlpha, EndOf, IsExp, IsLog;
    var i := 0;
    while i < HALVINGS
      invariant 0 <= i <= HALVINGS
      invariant end == EndOf(m, prices, target, Bracket(low, high), HALVINGS - i)
    {
      var mid := (low + high) / 2.0;
      SearchStep(m, prices, logs, span, target, low, high, HALVINGS - i);
      if TiltedExpectedValue(m.exp, prices, logs, span, mid) > target {
        low := mid;
      } else {
        high := mid;
      }
      i := i + 1;
    }
    alpha := (low + high) / 2.0;
  }

  /** The solution is within the last bracket's width of the target clamped to what the bracket reaches. */
  lemma SolvedAlphaIsClose(m: Maths, prices: seq<real>, target: real, low: real, high: real)
    requires m.Valid() && Solvable(prices) && Within(prices, low, high)
    ensures var gap := Mul(Div(200.0, Pow2(HALVINGS)), high - low);
            var reached := PoolValue(m, prices, SolvedAlpha(m, prices, target));
            -gap <= reached - Clamp(target, PoolValue(m, prices, ALPHA_BOUND), PoolValue(m, prices, -ALPHA_BOUND)) <= gap
  {
    hide Halved, Pow2;
    var alpha := SolvedAlpha(m, prices, target);
    PoolValueIsEv(m, prices, alpha);
    PoolValueIsEv(m, prices, ALPHA_BOUND);
    PoolValueIsEv(m, prices, -ALPHA_BOUND);
    hide PoolTilt, PoolValue, PoolWeights;
    SolutionIsClose(PoolTilt(m, prices), target, WHOLE, HALVINGS, 1.0, low, high);
    TimesOne(Div(200.0, Pow2(HALVINGS)), high - low);
  }

  lemma TimesOne(x: real, y: real)
    ensures Mul(Mul(x, 1.0), y) == Mul(x, y)
  {
  }
}
