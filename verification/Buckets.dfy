/** Deterministic randomisation (internal/routing/engine.go:86-87, 121-126, 292-296): a 64-bit hash
    is reduced to one of a million residues, and percentages are compared with residue / 10000.
    The hash itself is a parameter; these are the shares of residues each comparison accepts. */
module Buckets {

  const RESIDUES := 1_000_000

  function Percent(hash: nat): real { (hash % RESIDUES) as real / 10_000.0 }

  function Ceiling(x: real): int { -((-x).Floor) }

  ghost function Range(low: int, high: int): (s: set<int>)
    ensures forall r :: r in s <==> low <= r < high
    ensures |s| == if low < high then high - low else 0
    decreases high - low
  {
    if low < high then Range(low, high - 1) + {high - 1} else {}
  }

  ghost function Below(percent: real): set<int> { set r | 0 <= r < RESIDUES && Percent(r) < percent }

  /** Exactly this many of the million residues fall below a percentage: the control group, and
      the explorers, have the size the policy asks for, rounded up to one residue. */
  lemma BelowSize(percent: real)
    requires 0.0 <= percent <= 100.0
    ensures |Below(percent)| == Ceiling(10_000.0 * percent)
  {
    var n := Ceiling(10_000.0 * percent);
    assert 0 <= n <= RESIDUES;
    assert Below(percent) == Range(0, n);
  }

  /** A validated policy explores on at most 3% of residues. */
  lemma ExplorationIsRare(percent: real)
    requires 0.0 <= percent <= 3.0
    ensures |Below(percent)| <= 30_000
  {
    BelowSize(percent);
  }

  /** int(hashPercent(...) / 100 * n), before the modulo. */
  function ArmIndex(hash: nat, n: nat): int { (Percent(hash) / 100.0 * n as real).Floor }

  lemma ArmIndexIsDivision(hash: nat, n: nat)
    ensures ArmIndex(hash, n) == hash % RESIDUES * n / RESIDUES
  {
    var m := hash % RESIDUES * n;
    assert Percent(hash) / 100.0 * n as real == m as real / 1_000_000.0;
    var k := m / RESIDUES;
    assert RESIDUES * k <= m < RESIDUES * k + RESIDUES;
    assert k as real <= m as real / 1_000_000.0 < k as real + 1.0;
  }

  /** The index is already below the number of arms; the modulo in the program never acts. */
  lemma ArmIndexInRange(hash: nat, n: nat)
    requires n > 0
    ensures 0 <= ArmIndex(hash, n) < n && ArmIndex(hash, n) % n == ArmIndex(hash, n)
  {
    hide ArmIndex, Percent;
    var r := hash % RESIDUES;
    ArmIndexIsDivision(hash, n);
    MultiplyOrder(r + 1, RESIDUES, n);
    assert (r + 1) * n == r * n + n;
    Quotient(r * n, n);
    SmallModulo(r * n / RESIDUES, n);
  }

  lemma Quotient(m: nat, n: nat)
    requires m < RESIDUES * n
    ensures 0 <= m / RESIDUES < n
  {}

  lemma SmallModulo(x: nat, n: nat)
    requires x < n
    ensures x % n == x
  {}

  ghost function ArmResidues(k: int, n: nat): set<int> { set r | 0 <= r < RESIDUES && ArmIndex(r, n) == k }

  /** The first residue whose arm index is at least k. */
  function FirstOfArm(k: nat, n: nat): nat
    requires n > 0
  {
    (k * RESIDUES + n - 1) / n
  }

  lemma FirstOfArmIsFirst(k: nat, n: nat, r: nat)
    requires n > 0
    ensures FirstOfArm(k, n) <= r <==> k * RESIDUES <= r * n
    ensures k * RESIDUES <= FirstOfArm(k, n) * n < k * RESIDUES + n
  {
    var a := k * RESIDUES;
    var c := FirstOfArm(k, n);
    DivisionBounds(a + n - 1, n);
    if c <= r { assert c * n <= r * n by { MultiplyOrder(c, r, n); } }
    if r < c { assert (r + 1) * n <= c * n by { MultiplyOrder(r + 1, c, n); } }
  }

  lemma DivisionBounds(x: nat, n: nat)
    requires n > 0
    ensures x / n * n <= x < x / n * n + n
  {
    assert x == n * (x / n) + x % n;
  }

  lemma MultiplyOrder(a: int, b: int, n: nat)
    requires a <= b
    ensures a * n <= b * n
  {
    assert (b - a) * n >= 0;
  }

  lemma ArmEdges(k: nat, n: nat) returns (low: nat, high: nat)
    requires k < n
    ensures low <= high && ArmResidues(k, n) == Range(low, high)
    ensures k * RESIDUES <= low * n < k * RESIDUES + n
    ensures k * RESIDUES + RESIDUES <= high * n < k * RESIDUES + RESIDUES + n
  {
    hide ArmIndex, FirstOfArm;
    low, high := FirstOfArm(k, n), FirstOfArm(k + 1, n);
    FirstOfArmIsFirst(k, n, high);
    FirstOfArmIsFirst(k + 1, n, low);
    forall r: int
      ensures r in ArmResidues(k, n) <==> r in Range(low, high)
    {
      ArmMembership(k, n, r);
    }
  }

  lemma Width(a: int, low: nat, high: nat, n: nat)
    requires a <= low * n < a + n && a + RESIDUES <= high * n < a + RESIDUES + n
    ensures RESIDUES - n < (high - low) * n < RESIDUES + n
  {
    assert (high - low) * n == high * n - low * n;
  }

  /** Every arm gets a share of the residues strictly within one of RESIDUES / n. */
  lemma ArmsAreEven(k: nat, n: nat)
    requires k < n
    ensures RESIDUES - n < |ArmResidues(k, n)| * n < RESIDUES + n
  {
    hide ArmResidues;
    var low, high := ArmEdges(k, n);
    Width(k * RESIDUES, low, high, n);
    assert |ArmResidues(k, n)| == high - low;
  }

  lemma ArmMembership(k: nat, n: nat, r: int)
    requires k < n
    ensures r in ArmResidues(k, n) <==> FirstOfArm(k, n) <= r < FirstOfArm(k + 1, n)
  {
    FirstOfArmIsFirst(k + 1, n, RESIDUES);
    MultiplyOrder(k + 1, n, RESIDUES);
    if 0 <= r {
      FirstOfArmIsFirst(k, n, r);
      FirstOfArmIsFirst(k + 1, n, r);
      if r < RESIDUES {
        ArmIndexIsDivision(r, n);
        DivisionBounds(r * n, RESIDUES);
        assert r % RESIDUES == r;
      }
    }
  }
}
