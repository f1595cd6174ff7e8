/**
 * Order facts about multiplying and dividing reals, stated one step at a time so that
 * the normalisation, progress and percentage proofs need no nonlinear reasoning of their own.
 */
module RealFacts {

  /** A quotient multiplied back by its divisor gives the dividend. */
  lemma ScalesBack(a: real, d: real)
    requires d != 0.0
    ensures a / d * d == a
  {
  }

  /** Dividing by a positive number keeps the order of dividends. */
  lemma DivideMonotone(a: real, b: real, d: real)
    requires a <= b && 0.0 < d
    ensures a / d <= b / d
  {
    var qa, qb := a / d, b / d;
    ScalesBack(a, d);
    ScalesBack(b, d);
    assert (qb - qa) * d == b - a;
    if qb < qa {
      PositiveProduct(qa - qb, d);
    }
  }

  /** The product of two positive numbers is positive. */
  lemma PositiveProduct(x: real, y: real)
    requires 0.0 < x && 0.0 < y
    ensures 0.0 < x * y
  {
  }

  /** For `0 <= a <= d` and positive `d`, the quotient lies in [0, 1], and is 0 or 1 only at the ends. */
  lemma UnitQuotient(a: real, d: real)
    requires 0.0 <= a <= d && 0.0 < d
    ensures 0.0 <= a / d <= 1.0
    ensures a / d == 0.0 <==> a == 0.0
    ensures a / d == 1.0 <==> a == d
  {
    DivideMonotone(0.0, a, d);
    DivideMonotone(a, d, d);
    assert 0.0 / d == 0.0 && d / d == 1.0;
    ScalesBack(a, d);
    if a / d == 0.0 {
      assert a == 0.0 * d;
    }
    if a / d == 1.0 {
      assert a == 1.0 * d;
    }
  }

  /** Multiplying by a non-negative number keeps the order of factors. */
  lemma MultiplyMonotone(a: real, b: real, c: real)
    requires a <= b && 0.0 <= c
    ensures a * c <= b * c
  {
    assert b * c - a * c == (b - a) * c;
    if 0.0 < c && a < b {
      PositiveProduct(b - a, c);
    }
  }

  /** A quotient by a positive number has the sign of the dividend, and reaches 1 exactly when the dividend reaches the divisor. */
  lemma QuotientAgainstUnit(a: real, d: real)
    requires 0.0 < d
    ensures a <= 0.0 ==> a / d <= 0.0
    ensures d <= a ==> 1.0 <= a / d
  {
    assert 0.0 / d == 0.0 && d / d == 1.0;
    if a <= 0.0 {
      DivideMonotone(a, 0.0, d);
    }
    if d <= a {
      DivideMonotone(d, a, d);
    }
  }
}
