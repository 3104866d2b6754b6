/**
 * A pool of prices tilted by an exponent, the model both odds solvers search:
 * item `i` weighs `exp(-k * scale[i])`, and the scale grows with the price.
 */
module Tilt {
  import opened Exponential
  import opened Reals
  import opened Weights

  ghost predicate Follows(scale: seq<real>, p: seq<real>)
    requires |scale| == |p|
  {
    forall i, j :: 0 <= i < |p| && 0 <= j < |p| ==>
      (p[i] <= p[j] ==> scale[i] <= scale[j]) && (p[i] < p[j] ==> scale[i] < scale[j])
  }

  predicate Within(a: seq<real>, low: real, high: real) {
    forall i :: 0 <= i < |a| ==> low <= a[i] <= high
  }

  function Slope(k: real, s: real): real {
    -Mul(k, s)
  }

  lemma SlopeAdds(k: real, d: real, s: real)
    ensures Slope(k + d, s) == Slope(k, s) + Slope(d, s)
  {
  }

  lemma SlopeOrder(d: real, s: real, t: real)
    requires d >= 0.0
    ensures s <= t ==> Slope(d, t) <= Slope(d, s)
    ensures s < t && d > 0.0 ==> Slope(d, t) < Slope(d, s)
  {
    if s <= t {
      ScaleLe(s, t, d);
    }
    if d > 0.0 && s < t {
      ScaleLt(s, t, d);
    }
  }

  lemma WeightIsNearOne(exp: real -> real, d: real, s: real, reach: real)
    requires IsExp(exp) && d >= 0.0 && 0.0 <= s <= reach
    ensures 1.0 - Mul(d, reach) <= exp(Slope(d, s)) <= 1.0
  {
    hide Mul;
    var x := Slope(d, s);
    SlopeOrder(d, 0.0, s);
    SlopeOrder(d, s, reach);
    ProductSign(d, 0.0);
    ExpAtZero(exp);
    ExpTangent(exp, x);
    if x < 0.0 {
      ExpGrows(exp, x, 0.0);
    }
  }

  datatype Tilted = Tilted(exp: real -> real, scale: seq<real>, prices: seq<real>) {
    ghost predicate Valid() {
      IsExp(exp) && |scale| == |prices| > 0 && Follows(scale, prices)
    }

    function Raw(k: real): (w: seq<real>)
      ensures |w| == |scale|
    {
      seq(|scale|, i requires 0 <= i < |scale| => exp(Slope(k, scale[i])))
    }

    lemma RawIsPositive(k: real)
      requires Valid()
      ensures Positive(Raw(k)) && Sum(Raw(k)) > 0.0
    {
      forall i | 0 <= i < |scale| ensures Raw(k)[i] > 0.0 {
        ExpPositive(exp, Slope(k, scale[i]));
      }
      PositiveSum(Raw(k));
    }

    /** The expected price at exponent `k`. */
    function Ev(k: real): real
      requires Valid()
    {
      RawIsPositive(k);
      Mean(Raw(k), prices)
    }

    /** Raising the exponent by `d` multiplies every weight by its weight at `d`. */
    lemma RawSplits(k: real, d: real)
      requires Valid()
      ensures Raw(k + d) == Times(Raw(k), Raw(d))
    {
      hide Slope;
      forall i | 0 <= i < |scale| ensures Raw(k + d)[i] == Times(Raw(k), Raw(d))[i] {
        SlopeAdds(k, d, scale[i]);
        ExpAdd(exp, Slope(k, scale[i]), Slope(d, scale[i]));
      }
    }

    lemma RawOpposes(d: real)
      requires Valid() && d >= 0.0
      ensures Opposed(Raw(d), prices) && (d > 0.0 ==> StrictlyOpposed(Raw(d), prices))
    {
      hide Mul;
      forall i, j | 0 <= i < |prices| && 0 <= j < |prices| && prices[i] <= prices[j]
        ensures Raw(d)[i] >= Raw(d)[j]
        ensures d > 0.0 && prices[i] < prices[j] ==> Raw(d)[i] > Raw(d)[j]
      {
        SlopeOrder(d, scale[i], scale[j]);
        hide Slope;
        if Slope(d, scale[j]) < Slope(d, scale[i]) {
          ExpGrows(exp, Slope(d, scale[j]), Slope(d, scale[i]));
        }
      }
    }

    /** The tilted expected price never rises with the exponent, whatever the prices... */
    lemma EvFalls(k: real, k': real)
      requires Valid() && k <= k'
      ensures Ev(k') <= Ev(k)
    {
      hide Mul, Slope, Mean;
      var d := k' - k;
      RawIsPositive(k);
      RawIsPositive(d);
      RawSplits(k, d);
      RawOpposes(d);
      ReweighingLowersTheMean(Raw(k), Raw(d), prices);
      assert k + d == k';
    }

    /** ...and falls strictly unless all prices are equal. */
    lemma EvFallsStrictly(k: real, k': real, a: nat, b: nat)
      requires Valid() && k < k' && a < b < |prices| && prices[a] != prices[b]
      ensures Ev(k') < Ev(k)
    {
      hide Mul, Slope, Mean;
      var d := k' - k;
      RawIsPositive(k);
      RawIsPositive(d);
      RawSplits(k, d);
      RawOpposes(d);
      ReweighingLowersStrictly(Raw(k), Raw(d), prices, a, b);
      assert k + d == k';
    }

    lemma RawIsNearOne(d: real, reach: real)
      requires Valid() && d >= 0.0 && Within(scale, 0.0, reach)
      ensures Within(Raw(d), 1.0 - Mul(d, reach), 1.0)
    {
      hide Mul, Slope, IsExp;
      forall i | 0 <= i < |scale| ensures 1.0 - Mul(d, reach) <= Raw(d)[i] <= 1.0 {
        WeightIsNearOne(exp, d, scale[i], reach);
      }
    }

    /** How fast it can fall: a bracket of width `d` holds expected prices at most this far apart. */
    lemma EvIsContinuous(k: real, d: real, reach: real, low: real, high: real)
      requires Valid() && d >= 0.0 && Within(scale, 0.0, reach) && Within(prices, low, high)
      ensures Ev(k) - Ev(k + d) <= Mul(Mul(d, reach), high - low)
    {
      hide Mul, Slope, Mean;
      RawIsPositive(k);
      RawIsPositive(d);
      RawIsPositive(k + d);
      RawSplits(k, d);
      RawIsNearOne(d, reach);
      assert low <= prices[0] <= high && 0.0 <= scale[0] <= reach;
      ProductSign(d, reach);
      DampedMean(Raw(k), Raw(d), prices, Mul(d, reach), low, high);
    }
  }

  // ----- damping every weight by a factor close to one

  /** The weighted price above a base price. */
  function Over(w: seq<real>, p: seq<real>, base: real): real
    requires |w| == |p|
  {
    Dot(w, Above(p, base))
  }

  lemma OverIsBounded(w: seq<real>, p: seq<real>, low: real, high: real)
    requires |w| == |p| && Positive(w) && Within(p, low, high)
    ensures 0.0 <= Over(w, p, low) <= Mul(high - low, Sum(w))
  {
    hide Mul;
    var none, gains := Scale(0.0, w), Times(w, Above(p, low));
    forall k | 0 <= k < |w| ensures none[k] <= gains[k] <= Scale(high - low, w)[k] {
      ProductSign(0.0, w[k]);
      ProductSign(w[k], p[k] - low);
      ScaleLe(p[k] - low, high - low, w[k]);
      Reassociate(w[k], p[k] - low, 0.0);
    }
    ProductSign(0.0, Sum(w));
    SumLe(none, gains);
    SumLe(gains, Scale(high - low, w));
    SumOfScale(0.0, w);
    SumOfScale(high - low, w);
  }

  /** What is left of an amount damped by `e`. */
  function Keep(e: real, x: real): real {
    Mul(1.0 - e, x)
  }

  lemma DampedTerm(w: real, f: real, e: real, gain: real)
    requires w > 0.0 && 1.0 - e <= f <= 1.0 && gain >= 0.0
    ensures Mul(w, f) <= w && Mul(Mul(w, f), gain) >= Keep(e, Mul(w, gain))
  {
    ScaleLe(f, 1.0, w);
    ScaleLe(1.0 - e, f, w);
    ScaleLe(Mul(1.0 - e, w), Mul(w, f), gain);
    Reassociate(1.0 - e, w, gain);
  }

  lemma OverIsDamped(w: seq<real>, f: seq<real>, p: seq<real>, e: real, low: real, high: real)
    requires |w| == |f| == |p| && Positive(w) && Within(f, 1.0 - e, 1.0) && Within(p, low, high)
    ensures Sum(Times(w, f)) <= Sum(w)
    ensures Over(Times(w, f), p, low) >= Keep(e, Over(w, p, low))
  {
    hide Mul;
    var gains := Times(w, Above(p, low));
    var damped := Times(Times(w, f), Above(p, low));
    forall k | 0 <= k < |w| ensures Times(w, f)[k] <= w[k] && Scale(1.0 - e, gains)[k] <= damped[k] {
      DampedTerm(w[k], f[k], e, p[k] - low);
    }
    SumLe(Times(w, f), w);
    SumLe(Scale(1.0 - e, gains), damped);
    SumOfScale(1.0 - e, gains);
  }

  lemma MeanIsOver(w: seq<real>, p: seq<real>, base: real)
    requires |w| == |p| && Sum(w) > 0.0
    ensures Mean(w, p) - base == Div(Over(w, p, base), Sum(w))
  {
    hide Mul, Div;
    DotAbove(w, p, base);
    QuotientMinus(Dot(w, p), Sum(w), base);
  }

  lemma DampedMean(w: seq<real>, f: seq<real>, p: seq<real>, e: real, low: real, high: real)
    requires |w| == |f| == |p| > 0 && Positive(w) && Within(f, 1.0 - e, 1.0) && Within(p, low, high) && e >= 0.0
    requires Sum(w) > 0.0 && Sum(Times(w, f)) > 0.0
    requires Positive(f) && low <= high
    ensures Mean(w, p) - Mean(Times(w, f), p) <= Mul(e, high - low)
  {
    hide Mul, Div, Over, Mean, Keep, Dot;
    OverIsDamped(w, f, p, e, low, high);
    OverIsBounded(w, p, low, high);
    PositiveTimes(w, f);
    OverIsBounded(Times(w, f), p, low, high);
    MeanIsOver(w, p, low);
    MeanIsOver(Times(w, f), p, low);
    DampedQuotient(Over(w, p, low), Sum(w), Over(Times(w, f), p, low), Sum(Times(w, f)), e, high - low);
  }

  lemma DampedQuotient(x: real, s: real, x': real, s': real, e: real, spread: real)
    requires 0.0 < s' <= s && 0.0 <= x <= Mul(spread, s) && x' >= Keep(e, x) && x' >= 0.0 && e >= 0.0
    ensures Div(x, s) - Div(x', s') <= Mul(e, spread)
  {
    var m, m' := Div(x, s), Div(x', s');
    DivideBack(x, s);
    DivideBack(x', s');
    CancelPositive(m, spread, s);
    CancelPositive(0.0, m, s);
    CancelPositive(0.0, m', s');
    ScaleLe(m, spread, e);
    DampedMeans(m, s, m', s', e);
  }

  lemma DampedMeans(m: real, s: real, m': real, s': real, e: real)
    requires 0.0 < s' <= s && m >= 0.0 && m' >= 0.0 && Mul(m', s') >= Keep(e, Mul(m, s))
    ensures m' >= Keep(e, m)
  {
    ProductSign(1.0 - e, m);
    if 1.0 - e >= 0.0 {
      ScaleLe(s', s, Keep(e, m));
      Reassociate(1.0 - e, m, s);
      CancelPositive(Keep(e, m), m', s');
    }
  }
}
