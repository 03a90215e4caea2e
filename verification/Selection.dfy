/** Choosing among the qualified candidates (internal/routing/engine.go:113-120). The comparator
    treats costs closer than 1e-12 as equal, so it is not transitive and "sorted" does not mean
    cheapest first. This module proves what the sort still guarantees, and exactly when its head
    is a cheapest candidate. */
module Selection {
  import opened Domain
  import opened Sequences

  const EPSILON := 0.000_000_000_001

  function Gap(a: real, b: real): real { if a < b then b - a else a - b }

  /** The comparator of the program. */
  predicate Less(a: Prediction, b: Prediction)
  {
    if Gap(a.estimatedCost, b.estimatedCost) < EPSILON then a.lowerBound > b.lowerBound
    else a.estimatedCost < b.estimatedCost
  }

  /** No element belongs before its left neighbour: all that a sort can promise here. */
  ghost predicate NoInversion(s: seq<Prediction>)
  {
    forall i :: 0 < i < |s| ==> !Less(s[i], s[i - 1])
  }

  // ---------- the sort ----------

  function Insert(s: seq<Prediction>, x: Prediction): (r: seq<Prediction>)
  {
    if s == [] || !Less(x, s[|s| - 1]) then s + [x]
    else Insert(s[..|s| - 1], x) + [s[|s| - 1]]
  }

  function Sorted(s: seq<Prediction>): seq<Prediction>
  {
    if s == [] then [] else Insert(Sorted(s[..|s| - 1]), s[|s| - 1])
  }

  lemma {:induction false} InsertPermutes(s: seq<Prediction>, x: Prediction)
    ensures multiset(Insert(s, x)) == multiset(s) + multiset{x}
  {
    if s != [] && Less(x, s[|s| - 1]) {
      InsertPermutes(s[..|s| - 1], x);
      assert s == s[..|s| - 1] + [s[|s| - 1]];
    }
  }

  lemma {:induction false} SortedPermutes(s: seq<Prediction>)
    ensures multiset(Sorted(s)) == multiset(s) && |Sorted(s)| == |s|
  {
    hide Insert;
    if s != [] {
      var n := |s| - 1;
      SortedPermutes(s[..n]);
      InsertPermutes(Sorted(s[..n]), s[n]);
      assert s == s[..n] + [s[n]];
    }
    SameMembers(Sorted(s), s);
  }

  /** Insertion keeps neighbours in order although the comparator is not transitive: the new
      element only ever lands next to elements it was compared with. */
  lemma {:induction false} InsertKeepsOrder(s: seq<Prediction>, x: Prediction)
    requires NoInversion(s)
    ensures NoInversion(Insert(s, x))
    ensures var r := Insert(s, x); r[|r| - 1] == x || (s != [] && r[|r| - 1] == s[|s| - 1] && Less(x, s[|s| - 1]))
  {
    if s != [] && Less(x, s[|s| - 1]) {
      var n := |s| - 1;
      InsertKeepsOrder(s[..n], x);
      var before := Insert(s[..n], x);
      assert before[|before| - 1] == x || before[|before| - 1] == s[n - 1];
      assert !Less(s[n], before[|before| - 1]);
    }
  }

  lemma {:induction false} SortedHasNoInversion(s: seq<Prediction>)
    ensures NoInversion(Sorted(s))
  {
    if s != [] {
      SortedHasNoInversion(s[..|s| - 1]);
      InsertKeepsOrder(Sorted(s[..|s| - 1]), s[|s| - 1]);
    }
  }

  lemma InsertPeel(s: seq<Prediction>, x: Prediction, j: nat)
    requires 0 < j <= |s| && Less(x, s[j - 1])
    ensures Insert(s[..j], x) + s[j..] == Insert(s[..j - 1], x) + s[j - 1..]
  {
    assert s[..j][..j - 1] == s[..j - 1];
    assert s[j - 1..] == [s[j - 1]] + s[j..];
  }

  /** One round of the outer loop: element i sinks into the sorted prefix. */
  method Sink(a: array<Prediction>, i: nat)
    requires i < a.Length
    modifies a
    ensures a[..i + 1] == Insert(old(a[..i]), old(a[i])) && a[i + 1..] == old(a[i + 1..])
  {
    hide Insert, Less;
    ghost var s, x := a[..i], a[i];
    var j := i;
    assert s[..i] == s;
    while j > 0 && Less(a[j], a[j - 1])
      invariant 0 <= j <= i && a[j] == x
      invariant forall k :: 0 <= k < j ==> a[k] == s[k]
      invariant forall k :: j < k <= i ==> a[k] == s[k - 1]
      invariant forall k :: i < k < a.Length ==> a[k] == old(a[k])
      invariant Insert(s, x) == Insert(s[..j], x) + s[j..]
    {
      InsertPeel(s, x, j);
      a[j], a[j - 1] := a[j - 1], a[j];
      j := j - 1;
    }
    Assembled(a[..i + 1], s, x, j);
  }

  lemma Assembled(b: seq<Prediction>, s: seq<Prediction>, x: Prediction, j: nat)
    requires j <= |s| && |b| == |s| + 1 && b[j] == x && (j == 0 || !Less(x, s[j - 1]))
    requires forall k :: 0 <= k < j ==> b[k] == s[k]
    requires forall k :: j < k <= |s| ==> b[k] == s[k - 1]
    ensures b == Insert(s[..j], x) + s[j..]
  {
    assert b == s[..j] + [x] + s[j..];
  }

  /** The in-place insertion sort Go's sort.Slice runs on at most twelve elements. */
  method SortInPlace(a: array<Prediction>)
    modifies a
    ensures a[..] == Sorted(old(a[..]))
  {
    ghost var was := a[..];
    for i := 0 to a.Length
      invariant a[..i] == Sorted(was[..i]) && a[i..] == was[i..]
    {
      assert a[i] == a[i..][0] && was[..i + 1][..i] == was[..i];
      assert a[i + 1..] == a[i..][1..] && was[i + 1..] == was[i..][1..];
      Sink(a, i);
    }
    assert was[..a.Length] == was && a[..a.Length] == a[..];
  }

  // ---------- what the head of a sorted list is ----------

  lemma {:induction false} HeadIsNearlyCheapest(s: seq<Prediction>, k: nat)
    requires NoInversion(s) && 0 < k < |s|
    ensures s[0].estimatedCost < s[k].estimatedCost + k as real * EPSILON
    decreases k
  {
    assert !Less(s[k], s[k - 1]);
    assert s[k - 1].estimatedCost < s[k].estimatedCost + EPSILON;
    if k > 1 { HeadIsNearlyCheapest(s, k - 1); }
  }

  /** No other candidate's cost lies within the tolerance above this one. */
  ghost predicate Isolated(s: seq<Prediction>, cost: real)
  {
    forall p :: p in s && p.estimatedCost > cost ==> p.estimatedCost >= cost + EPSILON
  }

  ghost predicate IsCheapest(s: seq<Prediction>, cost: real) { forall p :: p in s ==> cost <= p.estimatedCost }

  /** If the minimum cost is isolated, the cheapest candidates come first, best quality leading. */
  lemma {:induction false} CheapestComeFirst(s: seq<Prediction>, cost: real, k: nat)
    requires NoInversion(s) && IsCheapest(s, cost) && Isolated(s, cost)
    requires k < |s| && s[k].estimatedCost == cost
    ensures s[0].estimatedCost == cost && s[k].lowerBound <= s[0].lowerBound
    decreases k
  {
    if k > 0 {
      assert !Less(s[k], s[k - 1]) && s[k - 1] in s;
      CheapestComeFirst(s, cost, k - 1);
    }
  }

  /** The arrangements the sort may start from. */
  ghost predicate Arranges(order: seq<Prediction>, s: seq<Prediction>) { multiset(order) == multiset(s) }

  /** With an isolated minimum the selection is exact, and the same whatever order the candidates
      were listed in: minimal cost, and the highest lower bound among those. */
  lemma {:induction false} SelectionIsExact(s: seq<Prediction>, order: seq<Prediction>, cost: real)
    requires s != [] && Arranges(order, s) && NoInversion(order)
    requires IsCheapest(s, cost) && Isolated(s, cost) && exists p :: p in s && p.estimatedCost == cost
    ensures order != [] && order[0] in s && order[0].estimatedCost == cost
    ensures forall p :: p in s && p.estimatedCost == cost ==> p.lowerBound <= order[0].lowerBound
  {
    SameMembers(order, s);
    forall p | p in s && p.estimatedCost == cost
      ensures order != [] && order[0].estimatedCost == cost && p.lowerBound <= order[0].lowerBound
    {
      assert p in order;
      var k :| 0 <= k < |order| && order[k] == p;
      CheapestComeFirst(order, cost, k);
    }
  }

  /** Costs that differ at all differ by at least the tolerance. */
  ghost predicate Separated(s: seq<Prediction>)
  {
    forall p, q :: p in s && q in s && p.estimatedCost < q.estimatedCost ==>
        p.estimatedCost + EPSILON <= q.estimatedCost
  }

  predicate Tied(a: Prediction, b: Prediction) { !Less(a, b) && !Less(b, a) }

  /** Then the comparator is a strict weak order; without it, a chain of ties can end in an order. */
  lemma SeparatedIsWeakOrder(s: seq<Prediction>, a: Prediction, b: Prediction, c: Prediction)
    requires Separated(s) && a in s && b in s && c in s
    ensures !Less(a, a)
    ensures Less(a, b) && Less(b, c) ==> Less(a, c)
    ensures Tied(a, b) && Tied(b, c) ==> Tied(a, c)
  {}

  lemma TiesAreNotTransitive() returns (a: Prediction, b: Prediction, c: Prediction)
    ensures Tied(a, b) && Tied(b, c) && Less(a, c)
  {
    a, b, c := Candidate(0.0, 0.0), Candidate(EPSILON / 2.0, 0.0), Candidate(EPSILON, 0.0);
  }

  // ---------- exactly when the program selects a cheapest candidate ----------

  function Costs(s: seq<Prediction>): seq<real> { seq(|s|, i requires 0 <= i < |s| => s[i].estimatedCost) }

  ghost predicate CostIsMinimal(costs: seq<real>, c: real) { c in costs && forall x :: x in costs ==> c <= x }

  ghost predicate IsolatedMinimum(costs: seq<real>)
  {
    forall c, x :: CostIsMinimal(costs, c) && x in costs && x > c ==> x >= c + EPSILON
  }

  function HeadCost(s: seq<Prediction>): real { if s == [] then 0.0 else s[0].estimatedCost }

  /** Whatever the qualities and the order of the candidates, the one selected is a cheapest. */
  ghost predicate AlwaysCheapest(costs: seq<real>)
  {
    forall s: seq<Prediction> :: multiset(Costs(s)) == multiset(costs) ==> CostIsMinimal(costs, HeadCost(Sorted(s)))
  }

  /** "Cheapest model above the quality floor" holds for given candidate costs, whatever the
      candidates' qualities, if and only if no cost lies strictly within 1e-12 above the minimum. */
  lemma CheapestIff(costs: seq<real>)
    requires costs != []
    ensures AlwaysCheapest(costs) <==> IsolatedMinimum(costs)
  {
    if IsolatedMinimum(costs) {
      forall s: seq<Prediction> | multiset(Costs(s)) == multiset(costs)
        ensures CostIsMinimal(costs, HeadCost(Sorted(s)))
      {
        IsolatedSelectsCheapest(costs, s);
      }
    } else {
      var c, x :| CostIsMinimal(costs, c) && x in costs && x > c && x < c + EPSILON;
      var s := Misleading(costs, c, x);
      assert HeadCost(Sorted(s)) == x;
    }
  }

  lemma {:induction false} MinimumExists(costs: seq<real>) returns (c: real)
    requires costs != []
    ensures CostIsMinimal(costs, c)
  {
    c := costs[0];
    for i := 1 to |costs|
      invariant c in costs && forall k :: 0 <= k < i ==> c <= costs[k]
    {
      if costs[i] < c { c := costs[i]; }
    }
  }

  lemma {:induction false} IsolatedSelectsCheapest(costs: seq<real>, s: seq<Prediction>)
    requires IsolatedMinimum(costs) && costs != [] && multiset(Costs(s)) == multiset(costs)
    ensures CostIsMinimal(costs, HeadCost(Sorted(s)))
  {
    SameMembers(Costs(s), costs);
    SameIsolation(costs, Costs(s));
    SortedPermutes(s);
    SortedHasNoInversion(s);
    BestComesFirst(s, Sorted(s));
  }

  /** With an isolated minimum, an arrangement without inversions starts with a cheapest candidate, and
      of those with one of the highest lower bound. */
  lemma BestComesFirst(s: seq<Prediction>, order: seq<Prediction>)
    requires s != [] && Arranges(order, s) && NoInversion(order) && IsolatedMinimum(Costs(s))
    ensures order != [] && order[0] in s && CostIsMinimal(Costs(s), order[0].estimatedCost)
    ensures forall p :: p in s && p.estimatedCost == order[0].estimatedCost ==> p.lowerBound <= order[0].lowerBound
  {
    var c := MinimumExists(Costs(s));
    CostsOfMembers(s);
    SelectionIsExact(s, order, c);
  }

  lemma CostsOfMembers(s: seq<Prediction>)
    ensures forall p :: p in s ==> p.estimatedCost in Costs(s)
    ensures forall x :: x in Costs(s) ==> exists p :: p in s && p.estimatedCost == x
  {
    forall p | p in s
      ensures p.estimatedCost in Costs(s)
    {
      var i :| 0 <= i < |s| && s[i] == p;
      assert Costs(s)[i] == p.estimatedCost;
    }
    forall x | x in Costs(s)
      ensures exists p :: p in s && p.estimatedCost == x
    {
      var i :| 0 <= i < |s| && Costs(s)[i] == x;
      assert s[i] in s;
    }
  }

  /** Whether the minimum is isolated, and what it is, depends on the members only. */
  lemma SameIsolation(costs: seq<real>, others: seq<real>)
    requires IsolatedMinimum(costs) && forall x :: x in costs <==> x in others
    ensures IsolatedMinimum(others)
  {
    forall c, x | CostIsMinimal(others, c) && x in others && x > c
      ensures x >= c + EPSILON
    {
      assert CostIsMinimal(costs, c);
    }
  }

  lemma SameCostMembers(s: seq<Prediction>, t: seq<Prediction>)
    requires forall p :: p in s <==> p in t
    ensures forall x :: x in Costs(s) <==> x in Costs(t)
  {
    hide Costs;
    CostsOfMembers(s);
    CostsOfMembers(t);
    forall x
      ensures x in Costs(s) <==> x in Costs(t)
    {
      if x in Costs(s) { var p :| p in s && p.estimatedCost == x; }
      if x in Costs(t) { var p :| p in t && p.estimatedCost == x; }
    }
  }

  lemma MinimaAgree(s: seq<Prediction>, t: seq<Prediction>, c: real, c': real)
    requires forall p :: p in s <==> p in t
    requires CostIsMinimal(Costs(s), c) && CostIsMinimal(Costs(t), c')
    ensures c == c'
  {
    hide Costs;
    SameCostMembers(s, t);
  }

  // A list of candidates that misleads the comparator.

  function Candidate(cost: real, bound: real): Prediction { Prediction("", bound, bound, 0.0, 0, cost, 0, true, "") }

  function Plain(costs: seq<real>): seq<Prediction>
  {
    seq(|costs|, i requires 0 <= i < |costs| => Candidate(costs[i], 0.0))
  }

  ghost predicate Ascending(costs: seq<real>) { forall i :: 0 < i < |costs| ==> costs[i - 1] <= costs[i] }

  lemma {:induction false} AscendingHead(costs: seq<real>, k: nat)
    requires Ascending(costs) && k < |costs|
    ensures costs[0] <= costs[k]
  {
    if k > 0 { AscendingHead(costs, k - 1); }
  }

  lemma TailAscends(r: seq<real>)
    requires Ascending(r) && r != []
    ensures Ascending(r[1..]) && (|r| > 1 ==> r[0] <= r[1])
  {}

  lemma AscendingCons(x: real, t: seq<real>)
    requires Ascending(t) && t != [] && x <= t[0]
    ensures Ascending([x] + t)
  {}

  lemma {:induction false} InsertCost(r: seq<real>, c: real) returns (r': seq<real>)
    requires Ascending(r)
    ensures Ascending(r') && multiset(r') == multiset(r) + multiset{c}
    ensures r' != [] && (r'[0] == c || (r != [] && r'[0] == r[0] < c))
  {
    if r == [] || c <= r[0] {
      r' := [c] + r;
    } else {
      hide Ascending;
      TailAscends(r);
      var t := InsertCost(r[1..], c);
      assert r == [r[0]] + r[1..];
      AscendingCons(r[0], t);
      r' := [r[0]] + t;
    }
  }

  lemma {:induction false} SortCosts(costs: seq<real>) returns (r: seq<real>)
    ensures Ascending(r) && multiset(r) == multiset(costs)
  {
    r := [];
    for i := 0 to |costs|
      invariant Ascending(r) && multiset(r) == multiset(costs[..i])
    {
      assert costs[..i + 1] == costs[..i] + [costs[i]];
      r := InsertCost(r, costs[i]);
    }
    assert costs[..|costs|] == costs;
  }

  lemma {:induction false} SortedList(s: seq<Prediction>)
    requires NoInversion(s)
    ensures Sorted(s) == s
  {
    if s != [] {
      var n := |s| - 1;
      SortedList(s[..n]);
      assert s == s[..n] + [s[n]];
    }
  }

  lemma MisleadingOrder(x: real, rest: seq<real>)
    requires Ascending(rest) && rest != [] && rest[0] < x < rest[0] + EPSILON
    ensures NoInversion([Candidate(x, 1.0)] + Plain(rest))
  {
    var s := [Candidate(x, 1.0)] + Plain(rest);
    forall k | 0 < k < |s|
      ensures !Less(s[k], s[k - 1])
    {
      assert s[k] == Candidate(rest[k - 1], 0.0);
      if k > 1 {
        assert s[k - 1] == Candidate(rest[k - 2], 0.0);
        assert rest[k - 2] <= rest[k - 1];
      }
    }
  }

  lemma RemoveOne(costs: seq<real>, c: real, x: real) returns (others: seq<real>)
    requires CostIsMinimal(costs, c) && x in costs && x != c
    ensures multiset([x] + others) == multiset(costs) && CostIsMinimal(others, c)
  {
    var i :| 0 <= i < |costs| && costs[i] == x;
    others := RemoveAt(costs, i);
    RemovedMembers(costs, i);
    assert c in others && forall y :: y in others ==> y in costs;
  }

  /** The slightly dearer candidate of high quality, then all others, of low quality, by cost. */
  lemma {:induction false} Misleading(costs: seq<real>, c: real, x: real) returns (s: seq<Prediction>)
    requires CostIsMinimal(costs, c) && x in costs && c < x < c + EPSILON
    ensures multiset(Costs(s)) == multiset(costs) && HeadCost(Sorted(s)) == x && !CostIsMinimal(costs, x)
  {
    var others := RemoveOne(costs, c, x);
    var rest := SortCosts(others);
    SameMembers(rest, others);
    assert c in rest && rest[0] in others;
    var k :| 0 <= k < |rest| && rest[k] == c;
    AscendingHead(rest, k);
    s := [Candidate(x, 1.0)] + Plain(rest);
    assert Costs(s) == [x] + rest;
    MisleadingOrder(x, rest);
    SortedList(s);
  }
}
