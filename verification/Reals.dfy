/**
 * The few facts about products and quotients of reals that the proofs use.
 * Sums over lists are stated with `Mul` and `Div`, which their proofs hide, so
 * that only the lemmas here reason about non-linear arithmetic.
 */
module Reals {
  function Mul(a: real, b: real): real {
    a * b
  }

  function Div(a: real, b: real): real
    requires b != 0.0
  {
    a / b
  }

  lemma CancelPositive(a: real, b: real, c: real)
    requires c > 0.0 && a * c <= b * c
    ensures a <= b
  {
  }

  lemma ScaleLe(a: real, b: real, c: real)
    requires c >= 0.0 && a <= b
    ensures a * c <= b * c && c * a <= c * b
    ensures Mul(a, c) <= Mul(b, c) && Mul(c, a) <= Mul(c, b)
  {
  }

  lemma ScaleLt(a: real, b: real, c: real)
    requires c > 0.0 && a < b
    ensures a * c < b * c && c * a < c * b
    ensures Mul(a, c) < Mul(b, c) && Mul(c, a) < Mul(c, b)
  {
  }

  lemma ProductSign(a: real, b: real)
    ensures a >= 0.0 && b <= 0.0 ==> Mul(a, b) <= 0.0
    ensures a <= 0.0 && b >= 0.0 ==> Mul(a, b) <= 0.0
    ensures a >= 0.0 && b >= 0.0 ==> Mul(a, b) >= 0.0
    ensures a > 0.0 && b > 0.0 ==> Mul(a, b) > 0.0
    ensures a > 0.0 && b < 0.0 ==> Mul(a, b) < 0.0
    ensures a < 0.0 && b > 0.0 ==> Mul(a, b) < 0.0
    ensures a == 0.0 || b == 0.0 ==> Mul(a, b) == 0.0
  {
  }

  lemma Reassociate(a: real, b: real, c: real)
    ensures Mul(Mul(a, b), c) == Mul(a, Mul(b, c)) == Mul(Mul(a, c), b)
    ensures Mul(a, b) == Mul(b, a)
  {
  }

  lemma Distribute(a: real, b: real, c: real)
    ensures Mul(a, b + c) == Mul(a, b) + Mul(a, c)
    ensures Mul(a, b - c) == Mul(a, b) - Mul(a, c)
    ensures Mul(b + c, a) == Mul(b, a) + Mul(c, a)
    ensures Mul(b - c, a) == Mul(b, a) - Mul(c, a)
  {
  }

  lemma DivideBack(a: real, b: real)
    requires b != 0.0
    ensures Mul(Div(a, b), b) == a
  {
  }

  /** Comparing two quotients by cross-multiplying. */
  lemma QuotientOrder(a: real, b: real, c: real, d: real)
    requires b > 0.0 && d > 0.0
    ensures Mul(a, d) <= Mul(c, b) ==> Div(a, b) <= Div(c, d)
    ensures Mul(a, d) < Mul(c, b) ==> Div(a, b) < Div(c, d)
  {
    var x, y := Div(a, b), Div(c, d);
    DivideBack(a, b);
    DivideBack(c, d);
    Reassociate(x, b, d);
    Reassociate(y, d, b);
    Reassociate(b, d, 0.0);
    ProductSign(b, d);
    if y < x {
      ScaleLt(y, x, Mul(b, d));
    }
  }

  lemma QuotientMinus(a: real, b: real, base: real)
    requires b != 0.0
    ensures Div(a - Mul(base, b), b) == Div(a, b) - base
  {
  }

  lemma QuotientIsProduct(a: real, b: real)
    requires b != 0.0
    ensures Div(a, b) == Mul(Div(1.0, b), a)
  {
  }

  lemma QuotientIsPositive(a: real, b: real)
    requires a > 0.0 && b > 0.0
    ensures Div(a, b) > 0.0
  {
  }

  lemma CancelFactor(c: real, a: real, b: real)
    requires c > 0.0 && b > 0.0 && Mul(c, b) != 0.0
    ensures Div(Mul(c, a), Mul(c, b)) == Div(a, b)
  {
  }
}
