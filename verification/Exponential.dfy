/**
 * What the odds solvers need of `Math.exp` and `Math.log`, over exact reals:
 * sums become products, and the curve lies above its tangent at zero.
 */
module Exponential {
  import opened Reals

  predicate TurnsSumIntoProduct(exp: real -> real, x: real, y: real) {
    exp(x + y) == Mul(exp(x), exp(y))
  }

  predicate AboveTangent(exp: real -> real, x: real) {
    exp(x) >= 1.0 + x
  }

  ghost predicate IsExp(exp: real -> real) {
    && (forall x, y :: TurnsSumIntoProduct(exp, x, y))
    && (forall x :: AboveTangent(exp, x))
  }

  predicate Undoes(ln: real -> real, exp: real -> real, x: real) {
    exp(ln(x)) == x
  }

  ghost predicate IsLog(ln: real -> real, exp: real -> real) {
    forall x :: x > 0.0 ==> Undoes(ln, exp, x)
  }

  lemma ExpAtZero(exp: real -> real)
    requires IsExp(exp)
    ensures exp(0.0) == 1.0
  {
    assert TurnsSumIntoProduct(exp, 0.0, 0.0) && AboveTangent(exp, 0.0);
    var e := exp(0.0);
    assert e == Mul(e, e);
    ProductSign(e, e - 1.0);
  }

  lemma ExpAdd(exp: real -> real, x: real, y: real)
    requires IsExp(exp)
    ensures exp(x + y) == Mul(exp(x), exp(y))
  {
    assert TurnsSumIntoProduct(exp, x, y);
  }

  lemma ExpTangent(exp: real -> real, x: real)
    requires IsExp(exp)
    ensures exp(x) >= 1.0 + x
  {
    assert AboveTangent(exp, x);
  }

  lemma ExpPositive(exp: real -> real, x: real)
    requires IsExp(exp)
    ensures exp(x) > 0.0
  {
    ExpAtZero(exp);
    ExpAdd(exp, x, -x);
    ExpAdd(exp, x / 2.0, x / 2.0);
    SquareOrZero(exp(x), exp(-x), exp(x / 2.0));
  }

  lemma SquareOrZero(e: real, inverse: real, half: real)
    requires Mul(e, inverse) == 1.0 && e == Mul(half, half)
    ensures e > 0.0
  {
    ProductSign(half, half);
    ProductSign(e, inverse);
  }

  lemma ExpGrows(exp: real -> real, x: real, y: real)
    requires IsExp(exp) && x < y
    ensures exp(x) < exp(y)
  {
    ExpPositive(exp, x);
    ExpAdd(exp, x, y - x);
    ExpTangent(exp, y - x);
    ScaleLt(1.0, exp(y - x), exp(x));
  }

  lemma LogGrows(ln: real -> real, exp: real -> real, x: real, y: real)
    requires IsExp(exp) && IsLog(ln, exp) && 0.0 < x < y
    ensures ln(x) < ln(y)
  {
    assert Undoes(ln, exp, x) && Undoes(ln, exp, y);
    if ln(y) < ln(x) {
      ExpGrows(exp, ln(y), ln(x));
    }
  }

  /** A number no larger than `exp(x)` has a logarithm no larger than `x`. */
  lemma LogBelow(ln: real -> real, exp: real -> real, y: real, x: real)
    requires IsExp(exp) && IsLog(ln, exp) && 0.0 < y <= exp(x)
    ensures ln(y) <= x
  {
    assert Undoes(ln, exp, y);
    if x < ln(y) {
      ExpGrows(exp, x, ln(y));
    }
  }

  lemma LogAbove(ln: real -> real, exp: real -> real, y: real, x: real)
    requires IsExp(exp) && IsLog(ln, exp) && 0.0 < y && exp(x) <= y
    ensures x <= ln(y)
  {
    assert Undoes(ln, exp, y);
    if ln(y) < x {
      ExpGrows(exp, ln(y), x);
    }
  }

  lemma LogOfQuotient(ln: real -> real, exp: real -> real, x: real, y: real)
    requires IsExp(exp) && IsLog(ln, exp) && x > 0.0 && y > 0.0
    ensures x / y > 0.0 && ln(x / y) == ln(x) - ln(y)
  {
    assert Undoes(ln, exp, x) && Undoes(ln, exp, y) && Undoes(ln, exp, x / y);
    ExpAdd(exp, ln(x) - ln(y), ln(y));
    var a, b := exp(ln(x) - ln(y)), exp(ln(x / y));
    assert Mul(a, y) == x && b * y == x;
    CancelPositive(a, b, y);
    CancelPositive(b, a, y);
    if ln(x / y) < ln(x) - ln(y) {
      ExpGrows(exp, ln(x / y), ln(x) - ln(y));
    }
    if ln(x / y) > ln(x) - ln(y) {
      ExpGrows(exp, ln(x) - ln(y), ln(x / y));
    }
  }

  lemma LogOfOne(ln: real -> real, exp: real -> real)
    requires IsExp(exp) && IsLog(ln, exp)
    ensures ln(1.0) == 0.0
  {
    LogOfQuotient(ln, exp, 1.0, 1.0);
  }

  /** e is below 4, so every price ratio from 4 up spans at least one unit of logarithm. */
  lemma ExpOfOneBelowFour(exp: real -> real)
    requires IsExp(exp)
    ensures exp(1.0) <= 4.0
  {
    ExpAtZero(exp);
    ExpAdd(exp, 1.0, -1.0);
    ExpAdd(exp, -0.5, -0.5);
    ExpTangent(exp, -0.5);
    ExpPositive(exp, 1.0);
    QuarterAtLeast(exp(1.0), exp(-1.0), exp(-0.5));
  }

  lemma QuarterAtLeast(e: real, inverse: real, root: real)
    requires e > 0.0 && Mul(e, inverse) == 1.0 && inverse == Mul(root, root) && root >= 0.5
    ensures e <= 4.0
  {
    ScaleLe(0.5, root, 0.5);
    ScaleLe(0.5, root, root);
    ScaleLe(0.25, inverse, e);
  }
}
