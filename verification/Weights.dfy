/**
 * Weighted means, and the inequality both odds solvers rest on: reweighting
 * by factors that fall as the price rises never raises the mean price.
 */
module Weights {
  import opened Reals

  function Sum(a: seq<real>): real {
    if a == [] then 0.0 else Sum(a[..|a| - 1]) + a[|a| - 1]
  }

  function Times(w: seq<real>, f: seq<real>): (v: seq<real>)
    requires |w| == |f|
    ensures |v| == |w|
  {
    seq(|w|, i requires 0 <= i < |w| => Mul(w[i], f[i]))
  }

  function Dot(a: seq<real>, b: seq<real>): real
    requires |a| == |b|
  {
    Sum(Times(a, b))
  }

  lemma TimesInit(w: seq<real>, f: seq<real>, n: nat)
    requires |w| == |f| && n <= |w|
    ensures Times(w, f)[..n] == Times(w[..n], f[..n])
  {
    hide Mul;
  }

  lemma DotGrows(a: seq<real>, b: seq<real>)
    requires |a| == |b| > 0
    ensures var n := |a| - 1; Dot(a, b) == Dot(a[..n], b[..n]) + Mul(a[n], b[n])
  {
    hide Mul;
    TimesInit(a, b, |a| - 1);
  }

  predicate Positive(a: seq<real>) {
    forall k :: 0 <= k < |a| ==> a[k] > 0.0
  }

  lemma {:induction false} PositiveSum(a: seq<real>)
    requires Positive(a)
    ensures Sum(a) >= 0.0 && (a != [] ==> Sum(a) > 0.0)
  {
    if a != [] {
      PositiveSum(a[..|a| - 1]);
    }
  }

  lemma PositiveTimes(w: seq<real>, f: seq<real>)
    requires |w| == |f| && Positive(w) && Positive(f)
    ensures Positive(Times(w, f))
  {
    hide Mul;
    forall k | 0 <= k < |w| ensures Times(w, f)[k] > 0.0 {
      ProductSign(w[k], f[k]);
    }
  }

  lemma SumOfFive(a: seq<real>)
    requires |a| == 5
    ensures Sum(a) == a[0] + a[1] + a[2] + a[3] + a[4]
  {
    assert a[..4][..3] == a[..3] && a[..3][..2] == a[..2] && a[..2][..1] == a[..1] && a[..1][..0] == [];
    assert Sum(a[..1]) == a[0];
    assert Sum(a[..2]) == Sum(a[..1]) + a[1];
    assert Sum(a[..3]) == Sum(a[..2]) + a[2];
    assert Sum(a[..4]) == Sum(a[..3]) + a[3];
  }

  // ----- sums term by term

  ghost predicate Below(a: seq<real>, b: seq<real>)
    requires |a| == |b|
  {
    forall k :: 0 <= k < |a| ==> a[k] <= b[k]
  }

  lemma {:induction false} SumLe(a: seq<real>, b: seq<real>)
    requires |a| == |b| && Below(a, b)
    ensures Sum(a) <= Sum(b)
  {
    if a != [] {
      SumLe(a[..|a| - 1], b[..|b| - 1]);
    }
  }

  function Scale(c: real, a: seq<real>): (b: seq<real>)
    ensures |b| == |a|
  {
    seq(|a|, i requires 0 <= i < |a| => Mul(c, a[i]))
  }

  lemma {:induction false} SumOfScale(c: real, a: seq<real>)
    ensures Sum(Scale(c, a)) == Mul(c, Sum(a))
  {
    hide Mul;
    ProductSign(c, 0.0);
    if a != [] {
      var n := |a| - 1;
      SumOfScale(c, a[..n]);
      assert Scale(c, a)[..n] == Scale(c, a[..n]);
      Distribute(c, Sum(a[..n]), a[n]);
    }
  }

  /** How far each price lies above a base price. */
  function Above(p: seq<real>, base: real): (q: seq<real>)
    ensures |q| == |p|
  {
    seq(|p|, i requires 0 <= i < |p| => p[i] - base)
  }

  lemma {:induction false} DotAbove(w: seq<real>, p: seq<real>, base: real)
    requires |w| == |p|
    ensures Dot(w, Above(p, base)) == Dot(w, p) - Mul(base, Sum(w))
  {
    hide Mul;
    ProductSign(base, 0.0);
    if w != [] {
      var n := |w| - 1;
      DotAbove(w[..n], p[..n], base);
      assert Above(p, base)[..n] == Above(p[..n], base);
      DotGrows(w, p);
      DotGrows(w, Above(p, base));
      Distribute(base, Sum(w[..n]), w[n]);
      Distribute(w[n], p[n], base);
      Reassociate(w[n], base, 0.0);
      hide Dot;
    }
  }

  // ----- means

  function Mean(w: seq<real>, p: seq<real>): real
    requires |w| == |p| && Sum(w) > 0.0
  {
    Div(Dot(w, p), Sum(w))
  }

  /** Weights scaled to add up to one. */
  function Normal(w: seq<real>): (v: seq<real>)
    requires Sum(w) > 0.0
    ensures |v| == |w|
  {
    seq(|w|, i requires 0 <= i < |w| => Div(w[i], Sum(w)))
  }

  lemma NormalIsScale(w: seq<real>)
    requires Sum(w) > 0.0
    ensures Normal(w) == Scale(Div(1.0, Sum(w)), w)
  {
    hide Mul, Div, Sum;
    forall k | 0 <= k < |w| ensures Normal(w)[k] == Scale(Div(1.0, Sum(w)), w)[k] {
      QuotientIsProduct(w[k], Sum(w));
    }
  }

  lemma DotOfScale(c: real, w: seq<real>, p: seq<real>)
    requires |w| == |p|
    ensures Dot(Scale(c, w), p) == Mul(c, Dot(w, p))
  {
    hide Mul;
    SumOfScale(c, Times(w, p));
    forall k | 0 <= k < |w| ensures Times(Scale(c, w), p)[k] == Scale(c, Times(w, p))[k] {
      Reassociate(c, w[k], p[k]);
    }
    assert Times(Scale(c, w), p) == Scale(c, Times(w, p));
  }

  lemma NormalAddsUp(w: seq<real>)
    requires Positive(w) && w != []
    ensures Sum(w) > 0.0 && Sum(Normal(w)) == 1.0 && Positive(Normal(w))
  {
    hide Mul, Div;
    PositiveSum(w);
    NormalIsScale(w);
    SumOfScale(Div(1.0, Sum(w)), w);
    DivideBack(1.0, Sum(w));
    forall k | 0 <= k < |w| ensures Normal(w)[k] > 0.0 {
      QuotientIsPositive(w[k], Sum(w));
    }
  }

  /** The mean is the normalised weights times the prices. */
  lemma MeanIsNormalDot(w: seq<real>, p: seq<real>)
    requires |w| == |p| && Sum(w) > 0.0
    ensures Dot(Normal(w), p) == Mean(w, p)
  {
    hide Mul, Div, Dot;
    NormalIsScale(w);
    DotOfScale(Div(1.0, Sum(w)), w, p);
    QuotientIsProduct(Dot(w, p), Sum(w));
  }

  /** A common factor does not change them. */
  lemma NormalForgetsScale(c: real, w: seq<real>)
    requires c > 0.0 && Sum(w) > 0.0
    ensures Sum(Scale(c, w)) > 0.0 && Normal(Scale(c, w)) == Normal(w)
  {
    hide Mul, Div, Sum;
    SumOfScale(c, w);
    ProductSign(c, Sum(w));
    forall k | 0 <= k < |w| ensures Normal(Scale(c, w))[k] == Normal(w)[k] {
      CancelFactor(c, w[k], Sum(w));
    }
  }

  /** The dearer the item, the smaller its factor. */
  ghost predicate Opposed(f: seq<real>, p: seq<real>)
    requires |f| == |p|
  {
    forall i, j :: 0 <= i < |p| && 0 <= j < |p| && p[i] <= p[j] ==> f[i] >= f[j]
  }

  ghost predicate StrictlyOpposed(f: seq<real>, p: seq<real>)
    requires |f| == |p|
  {
    forall i, j :: 0 <= i < |p| && 0 <= j < |p| && p[i] < p[j] ==> f[i] > f[j]
  }

  // ----- the weighted Chebyshev inequality

  function Term(w: real, p: real, f: real, p1: real, f1: real): real {
    w * ((p - p1) * (f - f1))
  }

  lemma TermExpands(w: real, p: real, f: real, p1: real, f1: real)
    ensures Term(w, p, f, p1, f1) == Mul(Mul(w, f), p) - Mul(f1, Mul(w, p)) - Mul(p1, Mul(w, f)) + Mul(Mul(p1, f1), w)
  {
  }

  lemma TermSign(w: real, p: real, f: real, p1: real, f1: real)
    requires w > 0.0 && (p <= p1 ==> f >= f1) && (p1 <= p ==> f1 >= f)
    ensures Term(w, p, f, p1, f1) <= 0.0
    ensures p != p1 && f != f1 ==> Term(w, p, f, p1, f1) < 0.0
  {
    ProductSign(p - p1, f - f1);
    ProductSign(w, (p - p1) * (f - f1));
  }

  /** One more element, with factor `f1` and price `p1`, compared with all the earlier ones. */
  function Cross(w: seq<real>, f: seq<real>, p: seq<real>, f1: real, p1: real): real
    requires |w| == |f| == |p|
  {
    if p == [] then 0.0
    else
      var n := |p| - 1;
      Cross(w[..n], f[..n], p[..n], f1, p1) + Term(w[n], p[n], f[n], p1, f1)
  }

  lemma {:induction false} CrossIs(w: seq<real>, f: seq<real>, p: seq<real>, f1: real, p1: real)
    requires |w| == |f| == |p|
    ensures Cross(w, f, p, f1, p1)
            == Dot(Times(w, f), p) - Mul(f1, Dot(w, p)) - Mul(p1, Dot(w, f)) + Mul(Mul(p1, f1), Sum(w))
  {
    hide Mul, Term;
    if p == [] {
      ProductSign(f1, 0.0);
      ProductSign(p1, 0.0);
      ProductSign(Mul(p1, f1), 0.0);
    } else {
      var n := |p| - 1;
      CrossIs(w[..n], f[..n], p[..n], f1, p1);
      TimesInit(w, f, n);
      DotGrows(Times(w, f), p);
      DotGrows(w, p);
      DotGrows(w, f);
      TermExpands(w[n], p[n], f[n], p1, f1);
      Distribute(f1, Dot(w[..n], p[..n]), Mul(w[n], p[n]));
      Distribute(p1, Dot(w[..n], f[..n]), Mul(w[n], f[n]));
      Distribute(Mul(p1, f1), Sum(w[..n]), w[n]);
      hide Dot;
    }
  }

  /** The new element opposes each earlier one. */
  ghost predicate OpposesAll(f: seq<real>, p: seq<real>, f1: real, p1: real)
    requires |f| == |p|
  {
    forall i :: 0 <= i < |p| ==> (p[i] <= p1 ==> f[i] >= f1) && (p1 <= p[i] ==> f1 >= f[i])
  }

  lemma {:induction false} CrossSign(w: seq<real>, f: seq<real>, p: seq<real>, f1: real, p1: real)
    requires |w| == |f| == |p| && Positive(w) && OpposesAll(f, p, f1, p1)
    ensures Cross(w, f, p, f1, p1) <= 0.0
  {
    hide Term;
    if p != [] {
      var n := |p| - 1;
      CrossSign(w[..n], f[..n], p[..n], f1, p1);
      TermSign(w[n], p[n], f[n], p1, f1);
    }
  }

  lemma {:induction false} CrossSignStrict(w: seq<real>, f: seq<real>, p: seq<real>, f1: real, p1: real, i: nat)
    requires |w| == |f| == |p| && Positive(w) && OpposesAll(f, p, f1, p1)
    requires i < |p| && p[i] != p1 && f[i] != f1
    ensures Cross(w, f, p, f1, p1) < 0.0
  {
    hide Term;
    var n := |p| - 1;
    TermSign(w[n], p[n], f[n], p1, f1);
    if i < n {
      CrossSignStrict(w[..n], f[..n], p[..n], f1, p1, i);
    } else {
      CrossSign(w[..n], f[..n], p[..n], f1, p1);
    }
  }

  function Minor(a: real, b: real, c: real, d: real): real {
    a * b - c * d
  }

  /** Adding an element moves the two sides of the inequality apart by its cross term. */
  lemma GrowCross(vp: real, wp: real, wf: real, sw: real, w1: real, f1: real, p1: real, cross: real)
    requires cross == vp - Mul(f1, wp) - Mul(p1, wf) + Mul(Mul(p1, f1), sw)
    ensures Minor(vp + Mul(Mul(w1, f1), p1), sw + w1, wp + Mul(w1, p1), wf + Mul(w1, f1))
            == Minor(vp, sw, wp, wf) + Mul(w1, cross)
  {
    assert (vp + (w1 * f1) * p1) * (sw + w1) == vp * sw + vp * w1 + w1 * f1 * p1 * sw + w1 * f1 * p1 * w1;
    assert (wp + w1 * p1) * (wf + w1 * f1) == wp * wf + wp * (w1 * f1) + w1 * p1 * wf + w1 * p1 * (w1 * f1);
  }

  /** The two sides of the inequality, cross-multiplied. */
  function Gap(w: seq<real>, f: seq<real>, p: seq<real>): real
    requires |w| == |f| == |p|
  {
    Minor(Dot(Times(w, f), p), Sum(w), Dot(w, p), Dot(w, f))
  }

  lemma GapGrows(w: seq<real>, f: seq<real>, p: seq<real>)
    requires |w| == |f| == |p| && p != []
    ensures var n := |p| - 1;
            Gap(w, f, p) == Gap(w[..n], f[..n], p[..n]) + Mul(w[n], Cross(w[..n], f[..n], p[..n], f[n], p[n]))
  {
    hide Mul, Minor, Cross;
    var n := |p| - 1;
    TimesInit(w, f, n);
    CrossIs(w[..n], f[..n], p[..n], f[n], p[n]);
    GrowCross(Dot(Times(w[..n], f[..n]), p[..n]), Dot(w[..n], p[..n]), Dot(w[..n], f[..n]), Sum(w[..n]),
              w[n], f[n], p[n], Cross(w[..n], f[..n], p[..n], f[n], p[n]));
    DotGrows(Times(w, f), p);
    DotGrows(w, p);
    DotGrows(w, f);
    hide Dot;
  }

  lemma {:induction false} Chebyshev(w: seq<real>, f: seq<real>, p: seq<real>)
    requires |w| == |f| == |p| && Positive(w) && Opposed(f, p)
    ensures Gap(w, f, p) <= 0.0
  {
    if p != [] {
      hide Mul, Gap, Cross;
      var n := |p| - 1;
      Chebyshev(w[..n], f[..n], p[..n]);
      CrossSign(w[..n], f[..n], p[..n], f[n], p[n]);
      GapGrows(w, f, p);
      ProductSign(w[n], Cross(w[..n], f[..n], p[..n], f[n], p[n]));
    }
  }

  /** It is strict as soon as two prices differ. */
  lemma ChebyshevStrict(w: seq<real>, f: seq<real>, p: seq<real>, a: nat, b: nat)
    requires |w| == |f| == |p| && Positive(w) && Opposed(f, p) && StrictlyOpposed(f, p)
    requires a < b < |p| && p[a] != p[b]
    ensures Gap(w, f, p) < 0.0
  {
    hide Mul, Gap, Cross;
    var n := |p| - 1;
    Chebyshev(w[..n], f[..n], p[..n]);
    var c := if p[a] != p[n] then a else b;
    assert p[c] < p[n] || p[n] < p[c];
    CrossSignStrict(w[..n], f[..n], p[..n], f[n], p[n], c);
    GapGrows(w, f, p);
    ProductSign(w[n], Cross(w[..n], f[..n], p[..n], f[n], p[n]));
  }

  lemma MeanOrder(w: seq<real>, v: seq<real>, p: seq<real>)
    requires |w| == |v| == |p| && Sum(w) > 0.0 && Sum(v) > 0.0
    ensures Minor(Dot(v, p), Sum(w), Dot(w, p), Sum(v)) <= 0.0 ==> Mean(v, p) <= Mean(w, p)
    ensures Minor(Dot(v, p), Sum(w), Dot(w, p), Sum(v)) < 0.0 ==> Mean(v, p) < Mean(w, p)
  {
    hide Dot, Sum, Div;
    QuotientOrder(Dot(v, p), Sum(v), Dot(w, p), Sum(w));
  }

  /** Factors that fall with the price never raise the mean... */
  lemma ReweighingLowersTheMean(w: seq<real>, f: seq<real>, p: seq<real>)
    requires |w| == |f| == |p| && p != [] && Positive(w) && Positive(f) && Opposed(f, p)
    ensures Sum(w) > 0.0 && Sum(Times(w, f)) > 0.0 && Mean(Times(w, f), p) <= Mean(w, p)
  {
    hide Minor, Mean, Mul;
    PositiveSum(w);
    PositiveTimes(w, f);
    PositiveSum(Times(w, f));
    Chebyshev(w, f, p);
    MeanOrder(w, Times(w, f), p);
  }

  /** ...and lower it when two prices differ. */
  lemma ReweighingLowersStrictly(w: seq<real>, f: seq<real>, p: seq<real>, a: nat, b: nat)
    requires |w| == |f| == |p| && Positive(w) && Positive(f) && Opposed(f, p) && StrictlyOpposed(f, p)
    requires a < b < |p| && p[a] != p[b]
    ensures Sum(w) > 0.0 && Sum(Times(w, f)) > 0.0 && Mean(Times(w, f), p) < Mean(w, p)
  {
    hide Minor, Mean, Mul;
    PositiveSum(w);
    PositiveTimes(w, f);
    PositiveSum(Times(w, f));
    ChebyshevStrict(w, f, p, a, b);
    MeanOrder(w, Times(w, f), p);
  }
}
