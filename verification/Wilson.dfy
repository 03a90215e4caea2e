/** The Wilson score interval that both the Go summary and the Python report compute. The square
    root is a parameter; each theorem asks only that it is a root of the number it is applied to. */
module Wilson {
  import opened Domain
  import opened Reals

  const Z95 := 1.96

  ghost predicate IsRoot(r: real, x: real) { r >= 0.0 && r * r == x }

  function Radicand(p: real, n: real, z: real): real
    requires n > 0.0
  {
    (p * (1.0 - p) + z * z / (4.0 * n)) / n
  }

  function Denominator(n: real, z: real): real
    requires n > 0.0
  {
    1.0 + z * z / n
  }

  function Center(p: real, n: real, z: real): real
    requires n > 0.0 && Denominator(n, z) != 0.0
  {
    (p + z * z / (2.0 * n)) / Denominator(n, z)
  }

  function Margin(n: real, z: real, root: real): real
    requires n > 0.0 && Denominator(n, z) != 0.0
  {
    z * root / Denominator(n, z)
  }

  function Low(p: real, n: real, z: real, root: real): real
    requires n > 0.0 && Denominator(n, z) != 0.0
  {
    Max(0.0, Center(p, n, z) - Margin(n, z, root))
  }

  function High(p: real, n: real, z: real, root: real): real
    requires n > 0.0 && Denominator(n, z) != 0.0
  {
    Min(1.0, Center(p, n, z) + Margin(n, z, root))
  }

  lemma DenominatorPositive(n: real, z: real)
    requires n > 0.0
    ensures z * z / n >= 0.0 && Denominator(n, z) >= 1.0
  {
    SquareNonNegative(z);
    QuotientNonNegative(z * z, n);
  }

  function Score(successes: real, n: nat, z: real, sqrt: real -> real): Interval
  {
    if n == 0 then Interval(0.0, 0.0, 0.0, 0) else
      var r := n as real;
      var p := successes / r;
      DenominatorPositive(r, z);
      var root := sqrt(Radicand(p, r, z));
      Interval(p, Low(p, r, z, root), High(p, r, z, root), n)
  }

  /** An observed rate p over n > 0 traces, with a true root at hand. */
  ghost predicate Arm(p: real, n: real, z: real, root: real)
  {
    0.0 <= p <= 1.0 && n > 0.0 && z > 0.0 && IsRoot(root, Radicand(p, n, z))
  }

  /** The arm holds `successes` out of `n`, a proportion, and sqrt is honest where it is used. */
  ghost predicate Admissible(successes: real, n: nat, z: real, sqrt: real -> real)
  {
    && n > 0 && z > 0.0 && 0.0 <= successes <= n as real
    && IsRoot(sqrt(Radicand(successes / n as real, n as real, z)), Radicand(successes / n as real, n as real, z))
  }

  function SquaredDistance(p: real, t: real): real { (p - t) * (p - t) }

  function Spread(k: real, t: real): real { k * (t * (1.0 - t)) }

  /** The score test: the observed rate is within z standard errors of the hypothesis t. */
  predicate NotRejected(p: real, n: real, z: real, t: real)
  {
    n * SquaredDistance(p, t) <= Spread(z * z, t)
  }

  lemma SquareIdentity(p: real, k: real, t: real)
    ensures var d, c := 1.0 + k, p + k / 2.0;
            d * (SquaredDistance(p, t) - Spread(k, t)) ==
            (d * t - c) * (d * t - c) - (k * (p * (1.0 - p)) + k * k / 4.0)
  {
    var d, c := 1.0 + k, p + k / 2.0;
    assert SquaredDistance(p, t) - Spread(k, t) == d * (t * t) - 2.0 * (c * t) + p * p;
    assert (d * t - c) * (d * t - c) == (d * t) * (d * t) - 2.0 * ((d * t) * c) + c * c;
    assert c * c == p * p + k * p + k * k / 4.0;
  }

  /** Both sides of the score inequality, as a quadratic in t whose roots are (c - m)/d, (c + m)/d. */
  lemma CompleteTheSquare(p: real, k: real, m: real, t: real)
    requires k > 0.0 && m >= 0.0 && m * m == k * (p * (1.0 - p)) + k * k / 4.0
    ensures SquaredDistance(p, t) <= Spread(k, t) <==>
            p + k / 2.0 - m <= (1.0 + k) * t <= p + k / 2.0 + m
  {
    hide SquaredDistance, Spread;
    SquareIdentity(p, k, t);
    ScaleOrder(1.0 + k, SquaredDistance(p, t), Spread(k, t));
    SquareBound((1.0 + k) * t - (p + k / 2.0), m);
  }

  /** For a proportion the roots lie in [0, 1]: neither clamp of the implementation ever acts. */
  lemma RootsInUnitInterval(p: real, k: real, m: real)
    requires 0.0 <= p <= 1.0 && k > 0.0
    requires m >= 0.0 && m * m == k * (p * (1.0 - p)) + k * k / 4.0
    ensures 0.0 <= p + k / 2.0 - m && p + k / 2.0 + m <= 1.0 + k
  {
    var c, c' := p + k / 2.0, 1.0 - p + k / 2.0;
    assert c * c == p * p + k * p + k * k / 4.0;
    assert c * c - m * m == (1.0 + k) * (p * p);
    var q := 1.0 - p;
    assert c' * c' == q * q + k * q + k * k / 4.0;
    assert m * m == k * (q * (1.0 - q)) + k * k / 4.0;
    assert c' * c' - m * m == (1.0 + k) * (q * q);
    SquareBound(m, c);
    SquareBound(m, c');
  }

  lemma RatioPositive(n: real, z: real)
    requires n > 0.0 && z > 0.0
    ensures z * z / n > 0.0 && z * z / n * n == z * z
  {
    ProductPositive(z, z);
    QuotientPositive(Product(z, z), n);
  }

  lemma MarginSquared(p: real, r: real, z: real, root: real, k: real)
    requires r > 0.0 && k == z * z / r
    requires root * root == (p * (1.0 - p) + z * z / (4.0 * r)) / r
    ensures (z * root) * (z * root) == k * (p * (1.0 - p)) + k * k / 4.0
  {
    var zz := z * z;
    var v := p * (1.0 - p) + k / 4.0;
    assert zz / (4.0 * r) == k / 4.0;
    assert root * root == v / r;
    assert (z * root) * (z * root) == zz * (root * root);
    assert zz * (v / r) == (zz / r) * v;
    assert k * v == k * (p * (1.0 - p)) + k * k / 4.0;
  }

  lemma Unclamped(d: real, c: real, m: real)
    requires d > 0.0 && 0.0 <= c - m && c + m <= d
    ensures d * Max(0.0, c / d - m / d) == c - m && d * Min(1.0, c / d + m / d) == c + m
  {
    var low, high := c / d - m / d, c / d + m / d;
    assert d * (c / d) == c && d * (m / d) == m;
    assert d * low == c - m && d * high == c + m;
    if low < 0.0 { ProductPositive(d, -low); }
    if high > 1.0 { ProductPositive(d, high - 1.0); }
  }

  lemma MarginFacts(p: real, n: real, z: real, root: real) returns (k: real, m: real)
    requires Arm(p, n, z, root)
    ensures k == z * z / n && k * n == z * z && k > 0.0
    ensures m == z * root && m >= 0.0 && m * m == k * (p * (1.0 - p)) + k * k / 4.0
  {
    k, m := z * z / n, z * root;
    RatioPositive(n, z);
    ProductSign(z, root);
    MarginSquared(p, n, z, root, k);
  }

  /** The endpoints without clamps, in the notation of the lemmas above. */
  lemma Endpoints(p: real, n: real, z: real, root: real) returns (k: real, m: real)
    requires Arm(p, n, z, root)
    ensures k * n == z * z && k > 0.0
    ensures m >= 0.0 && m * m == k * (p * (1.0 - p)) + k * k / 4.0
    ensures Denominator(n, z) == 1.0 + k
    ensures (1.0 + k) * Low(p, n, z, root) == p + k / 2.0 - m
    ensures (1.0 + k) * High(p, n, z, root) == p + k / 2.0 + m
  {
    k, m := MarginFacts(p, n, z, root);
    RootsInUnitInterval(p, k, m);
    UnclampedEndpoints(p, n, z, root, k, m);
  }

  lemma UnclampedEndpoints(p: real, n: real, z: real, root: real, k: real, m: real)
    requires n > 0.0 && k == z * z / n && k > 0.0 && m == z * root
    requires 0.0 <= p + k / 2.0 - m && p + k / 2.0 + m <= 1.0 + k
    ensures Denominator(n, z) == 1.0 + k
    ensures (1.0 + k) * Low(p, n, z, root) == p + k / 2.0 - m
    ensures (1.0 + k) * High(p, n, z, root) == p + k / 2.0 + m
  {
    assert z * z / (2.0 * n) == k / 2.0;
    Unclamped(1.0 + k, p + k / 2.0, m);
  }

  /** Scales both the endpoints and the score inequality; stated over plain numbers. */
  lemma Rescale(d: real, low: real, high: real, t: real, lo: real, hi: real, n: real, a: real, b: real, nb: real)
    requires d > 0.0 && d * low == lo && d * high == hi
    requires n > 0.0 && n * b == nb
    requires a <= b <==> lo <= d * t <= hi
    ensures low <= t <= high <==> n * a <= nb
  {
    ScaleOrder(d, low, t);
    ScaleOrder(d, t, high);
    ScaleOrder(n, a, b);
  }

  lemma EndpointsAreScoreTest(p: real, n: real, z: real, root: real, t: real)
    requires Arm(p, n, z, root)
    requires Denominator(n, z) != 0.0
    ensures Low(p, n, z, root) <= t <= High(p, n, z, root) <==> NotRejected(p, n, z, t)
  {
    hide Low, High, SquaredDistance, Spread, Radicand, IsRoot;
    var k, m := Endpoints(p, n, z, root);
    CompleteTheSquare(p, k, m, t);
    SpreadScales(n, k, z * z, t);
    Rescale(1.0 + k, Low(p, n, z, root), High(p, n, z, root), t, p + k / 2.0 - m, p + k / 2.0 + m,
            n, SquaredDistance(p, t), Spread(k, t), Spread(z * z, t));
  }

  lemma SpreadScales(n: real, k: real, zz: real, t: real)
    requires k * n == zz
    ensures n * Spread(k, t) == Spread(zz, t)
  {
    assert n * (k * (t * (1.0 - t))) == k * n * (t * (1.0 - t));
  }

  /** A hypothesis that survives one observed rate survives every rate between it and that one. */
  lemma CloserNotRejected(n: real, z: real, t: real, near: real, far: real)
    requires n > 0.0 && NotRejected(far, n, z, t)
    requires t <= near <= far || far <= near <= t
    ensures NotRejected(near, n, z, t)
  {
    var x, y := near - t, far - t;
    if t <= near <= far { ProductSign(y - x, y + x); } else { ProductSign(x - y, -(y + x)); }
    assert (y - x) * (y + x) == y * y - x * x;
    assert (x - y) * -(y + x) == y * y - x * x;
    ScaleOrder(n, x * x, y * y);
  }

  /** A hypothesis that survives a larger sample survives a smaller one with the same rate. */
  lemma FewerNotRejected(p: real, n1: real, n2: real, z: real, t: real)
    requires n1 <= n2 && NotRejected(p, n2, z, t)
    ensures NotRejected(p, n1, z, t)
  {
    var e := p - t;
    SquareNonNegative(e);
    ProductSign(n2 - n1, e * e);
    assert (n2 - n1) * (e * e) == n2 * (e * e) - n1 * (e * e);
  }

  // ---------- theorems about the interval the two programs report ----------

  lemma ArmOf(successes: real, n: nat, z: real, sqrt: real -> real) returns (p: real, root: real)
    requires Admissible(successes, n, z, sqrt)
    ensures Arm(p, n as real, z, root) && p * n as real == successes && Denominator(n as real, z) != 0.0
    ensures Score(successes, n, z, sqrt) == Interval(p, Low(p, n as real, z, root), High(p, n as real, z, root), n)
  {
    var r := n as real;
    p := successes / r;
    root := sqrt(Radicand(p, r, z));
    RateInUnitInterval(successes, r);
    DenominatorPositive(r, z);
  }

  /** A square root that is right on every non-negative number is right where the formula uses it. */
  lemma HonestRoot(successes: real, n: nat, z: real, sqrt: real -> real)
    requires n > 0 && z > 0.0 && 0.0 <= successes <= n as real
    requires forall x :: x >= 0.0 ==> IsRoot(sqrt(x), x)
    ensures Admissible(successes, n, z, sqrt)
  {
    var r := n as real;
    var p := successes / r;
    RateInUnitInterval(successes, r);
    ProductSign(p, 1.0 - p);
    SquareNonNegative(z);
    QuotientNonNegative(z * z, 4.0 * r);
    QuotientNonNegative(p * (1.0 - p) + z * z / (4.0 * r), r);
  }

  /** The interval is the set of success rates the score test does not reject. */
  lemma {:induction false} IntervalIsScoreTest(successes: real, n: nat, z: real, sqrt: real -> real, t: real)
    requires Admissible(successes, n, z, sqrt)
    ensures var i := Score(successes, n, z, sqrt);
            i.lower <= t <= i.upper <==> NotRejected(i.estimate, n as real, z, t)
  {
    var p, root := ArmOf(successes, n, z, sqrt);
    EndpointsAreScoreTest(p, n as real, z, root, t);
  }

  lemma {:induction false} EstimateInside(successes: real, n: nat, z: real, sqrt: real -> real)
    requires Admissible(successes, n, z, sqrt)
    ensures var i := Score(successes, n, z, sqrt); 0.0 <= i.lower <= i.estimate <= i.upper <= 1.0
  {
    var p, root := ArmOf(successes, n, z, sqrt);
    IntervalIsScoreTest(successes, n, z, sqrt, p);
    ProductSign(p, 1.0 - p);
    SquareNonNegative(z);
    ProductSign(z * z, p * (1.0 - p));
  }

  lemma SameRate(s1: real, n1: real, s2: real, n2: real)
    requires n1 > 0.0 && n2 > 0.0 && s1 * n2 == s2 * n1
    ensures s1 / n1 == s2 / n2
  {
    var p1, p2 := s1 / n1, s2 / n2;
    assert p1 * n1 == s1 && p2 * n2 == s2;
    assert (p1 - p2) * (n1 * n2) == s1 * n2 - s2 * n1;
    ProductPositive(n1, n2);
    if p1 > p2 { ProductPositive(p1 - p2, n1 * n2); } else if p1 < p2 { ProductPositive(p2 - p1, n1 * n2); }
  }

  /** At one observed rate, more traces can only narrow the interval. */
  lemma {:induction false} MoreDataNests(s1: real, n1: nat, s2: real, n2: nat, z: real, sqrt: real -> real)
    requires Admissible(s1, n1, z, sqrt) && Admissible(s2, n2, z, sqrt)
    requires n1 <= n2 && s1 * n2 as real == s2 * n1 as real
    ensures var i, j := Score(s1, n1, z, sqrt), Score(s2, n2, z, sqrt); i.lower <= j.lower && j.upper <= i.upper
  {
    var j := Score(s2, n2, z, sqrt);
    SameRate(s1, n1 as real, s2, n2 as real);
    EstimateInside(s2, n2, z, sqrt);
    IntervalIsScoreTest(s2, n2, z, sqrt, j.lower);
    IntervalIsScoreTest(s2, n2, z, sqrt, j.upper);
    FewerNotRejected(j.estimate, n1 as real, n2 as real, z, j.lower);
    FewerNotRejected(j.estimate, n1 as real, n2 as real, z, j.upper);
    IntervalIsScoreTest(s1, n1, z, sqrt, j.lower);
    IntervalIsScoreTest(s1, n1, z, sqrt, j.upper);
  }

  lemma RatesInOrder(p1: real, s1: real, p2: real, s2: real, n: real)
    requires n > 0.0 && p1 * n == s1 && p2 * n == s2 && s1 <= s2
    ensures p1 <= p2
  {
    assert (p1 - p2) * n == p1 * n - p2 * n;
    if p1 > p2 { ProductPositive(p1 - p2, n); }
  }

  /** With equal sample sizes, more successes move both endpoints up. */
  lemma {:induction false} MoreSuccessesRaise(s1: real, s2: real, n: nat, z: real, sqrt: real -> real)
    requires Admissible(s1, n, z, sqrt) && Admissible(s2, n, z, sqrt) && s1 <= s2
    ensures var i, j := Score(s1, n, z, sqrt), Score(s2, n, z, sqrt); i.lower <= j.lower && i.upper <= j.upper
  {
    hide Score, Low, High, Radicand, NotRejected, Center, Margin;
    var i, j := Score(s1, n, z, sqrt), Score(s2, n, z, sqrt);
    var p1, root1 := ArmOf(s1, n, z, sqrt);
    var p2, root2 := ArmOf(s2, n, z, sqrt);
    var r := n as real;
    RatesInOrder(p1, s1, p2, s2, r);
    EstimateInside(s1, n, z, sqrt);
    EstimateInside(s2, n, z, sqrt);
    if j.lower < i.lower {
      IntervalIsScoreTest(s2, n, z, sqrt, j.lower);
      CloserNotRejected(n as real, z, j.lower, p1, p2);
      IntervalIsScoreTest(s1, n, z, sqrt, j.lower);
    }
    if j.upper < i.upper {
      IntervalIsScoreTest(s1, n, z, sqrt, i.upper);
      CloserNotRejected(n as real, z, i.upper, p2, p1);
      IntervalIsScoreTest(s2, n, z, sqrt, i.upper);
    }
  }
}
