/** Facts about real multiplication and division that the solver does not
    find by itself in a large context. */
module Reals {
  lemma ProductNonNegative(a: real, b: real)
    requires a >= 0.0 && b >= 0.0
    ensures a * b >= 0.0
  {
  }

  lemma QuotientSelf(d: real)
    requires d != 0.0
    ensures d / d == 1.0
  {
  }

  lemma QuotientTimes(a: real, d: real)
    requires d != 0.0
    ensures (a / d) * d == a
  {
  }

  lemma ProductQuotient(a: real, d: real)
    requires d != 0.0
    ensures (a * d) / d == a
  {
  }

  lemma QuotientNegated(a: real, d: real)
    requires d != 0.0
    ensures (-1.0 * a) / d == -(a / d)
  {
    assert (-1.0 * a) / d * d == -1.0 * a;
  }

  lemma QuotientMonotone(a: real, b: real, d: real)
    requires a <= b && d > 0.0
    ensures a / d <= b / d
  {
    assert b / d - a / d == (b - a) / d;
  }

  /** A common positive factor cancels. */
  lemma QuotientCancelled(a: real, c: real, d: real)
    requires c > 0.0 && d > 0.0
    ensures (c * a) / (c * d) == a / d
  {
    var cd := c * d;
    assert cd > 0.0;
    var q := (c * a) / cd;
    assert q * cd == c * a;
    assert c * (q * d) == c * a;
    assert q * d == a;
  }

  /** A numerator no larger in size than its positive denominator gives a
      quotient in [-1, 1]. */
  lemma QuotientInUnit(a: real, d: real)
    requires d > 0.0 && -1.0 * d <= a <= d
    ensures -1.0 <= a / d <= 1.0
  {
    QuotientSelf(d);
    QuotientNegated(d, d);
    QuotientMonotone(-1.0 * d, a, d);
    QuotientMonotone(a, d, d);
  }

  lemma ProductPositive(a: real, b: real)
    requires a > 0.0 && b > 0.0
    ensures a * b > 0.0
  {
  }

  /** A numerator in [0, d] over a positive d gives a quotient in [0, 1],
      positive when the numerator is. */
  lemma QuotientInUnitInterval(a: real, d: real)
    requires d > 0.0 && 0.0 <= a <= d
    ensures 0.0 <= a / d <= 1.0
    ensures a > 0.0 ==> a / d > 0.0
  {
    QuotientSelf(d);
    QuotientMonotone(0.0, a, d);
    QuotientMonotone(a, d, d);
  }
}
