/** Facts about products of reals that the solver does not find while it juggles larger terms. */
module Reals {
  lemma ProductSign(a: real, b: real)
    requires a >= 0.0 && b >= 0.0
    ensures a * b >= 0.0
  {}

  lemma SquareNonNegative(e: real)
    ensures e * e >= 0.0
  {
    if e >= 0.0 { ProductSign(e, e); } else { ProductSign(-e, -e); }
  }

  function Product(a: real, b: real): real { a * b }

  lemma ProductPositive(a: real, b: real)
    requires a > 0.0 && b > 0.0
    ensures a * b > 0.0 && Product(a, b) > 0.0
  {}

  lemma SquareBound(e: real, m: real)
    requires m >= 0.0
    ensures e * e <= m * m <==> -m <= e <= m
  {
    assert m * m - e * e == (m - e) * (m + e);
    if -m <= e <= m {
      ProductSign(m - e, m + e);
    } else if e > m {
      ProductPositive(e - m, m + e);
    } else {
      ProductPositive(m - e, -(m + e));
    }
  }

  lemma QuotientPositive(a: real, r: real)
    requires a > 0.0 && r > 0.0
    ensures a / r > 0.0 && a / r * r == a
  {
    assert a / r * r == a;
    if a / r <= 0.0 { ProductSign(-(a / r), r); }
  }

  lemma QuotientNonNegative(a: real, r: real)
    requires a >= 0.0 && r > 0.0
    ensures a / r >= 0.0 && a / r * r == a
  {
    if a > 0.0 { QuotientPositive(a, r); }
  }

  lemma ScaleOrder(d: real, a: real, b: real)
    requires d > 0.0
    ensures a <= b <==> d * a <= d * b
  {
    assert d * b - d * a == d * (b - a);
    if a > b { ProductPositive(d, a - b); } else { ProductSign(d, b - a); }
  }

  lemma RateInUnitInterval(s: real, r: real)
    requires r > 0.0 && 0.0 <= s <= r
    ensures 0.0 <= s / r <= 1.0 && s / r * r == s
  {
    var p := s / r;
    assert p * r == s;
    if p < 0.0 { ProductPositive(-p, r); }
    if p > 1.0 { ProductPositive(p - 1.0, r); }
  }
}
