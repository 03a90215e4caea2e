/** Sums over finite sets. A set has no order, so neither has its sum: this is what makes a
    result computed by iterating over a hash map well defined. */
module FiniteSums {

  ghost function Total<T>(s: set<T>, f: T -> real): real
  {
    if s == {} then 0.0 else var x :| x in s; f(x) + Total(s - {x}, f)
  }

  lemma TotalOfNothing<T>(f: T -> real)
    ensures Total({}, f) == 0.0
  {}

  /** Any element may be taken out first, whatever the definition happens to pick. */
  lemma {:induction false} TotalRemove<T>(s: set<T>, f: T -> real, x: T)
    requires x in s
    ensures Total(s, f) == f(x) + Total(s - {x}, f)
    decreases s
  {
    var y :| y in s && Total(s, f) == f(y) + Total(s - {y}, f);
    if y != x {
      TotalRemove(s - {y}, f, x);
      TotalRemove(s - {x}, f, y);
      assert s - {y} - {x} == s - {x} - {y};
    }
  }

  lemma TotalInsert<T>(s: set<T>, f: T -> real, x: T)
    requires x !in s
    ensures Total(s + {x}, f) == Total(s, f) + f(x)
  {
    TotalRemove(s + {x}, f, x);
    assert s + {x} - {x} == s;
  }

  lemma {:induction false} TotalUnion<T>(a: set<T>, b: set<T>, f: T -> real)
    requires a !! b
    ensures Total(a + b, f) == Total(a, f) + Total(b, f)
    decreases a
  {
    if a == {} {
      assert a + b == b;
    } else {
      var x :| x in a;
      TotalRemove(a, f, x);
      TotalRemove(a + b, f, x);
      assert a + b - {x} == (a - {x}) + b;
      TotalUnion(a - {x}, b, f);
    }
  }

  lemma {:induction false} TotalCongruence<T>(s: set<T>, f: T -> real, g: T -> real)
    requires forall x :: x in s ==> f(x) == g(x)
    ensures Total(s, f) == Total(s, g)
    decreases s
  {
    if s != {} {
      var x :| x in s;
      TotalRemove(s, f, x);
      TotalRemove(s, g, x);
      TotalCongruence(s - {x}, f, g);
    }
  }

  lemma {:induction false} TotalNonNegative<T>(s: set<T>, f: T -> real)
    requires forall x :: x in s ==> f(x) >= 0.0
    ensures Total(s, f) >= 0.0
    decreases s
  {
    if s != {} {
      var x :| x in s;
      TotalRemove(s, f, x);
      TotalNonNegative(s - {x}, f);
    }
  }

  function One<T>(x: T): real { 1.0 }

  lemma {:induction false} TotalOfOnes<T>(s: set<T>)
    ensures Total(s, One) == |s| as real
    decreases s
  {
    if s != {} {
      var x :| x in s;
      TotalRemove(s, One, x);
      TotalOfOnes(s - {x});
    }
  }

  ghost function Fiber<T, K>(s: set<T>, key: T -> K, k: K): set<T> { set x | x in s && key(x) == k }

  /** Grouping by a key and adding up the groups loses nothing and counts nothing twice;
      keys that no element has contribute nothing. */
  lemma {:induction false} TotalByKey<T, K>(s: set<T>, key: T -> K, f: T -> real, keys: set<K>, g: K -> real)
    requires forall x :: x in s ==> key(x) in keys
    requires forall k :: k in keys ==> g(k) == Total(Fiber(s, key, k), f)
    ensures Total(keys, g) == Total(s, f)
    decreases keys
  {
    if keys == {} {
      assert s == {};
    } else {
      var k :| k in keys;
      var fiber := Fiber(s, key, k);
      var rest := s - fiber;
      assert s == fiber + rest;
      TotalUnion(fiber, rest, f);
      forall j | j in keys - {k}
        ensures g(j) == Total(Fiber(rest, key, j), f)
      {
        assert Fiber(rest, key, j) == Fiber(s, key, j);
      }
      TotalByKey(rest, key, f, keys - {k}, g);
      TotalRemove(keys, g, k);
    }
  }

  function SumList<T>(s: seq<T>, f: T -> real): real
  {
    if s == [] then 0.0 else SumList(s[..|s| - 1], f) + f(s[|s| - 1])
  }

  lemma {:induction false} TotalOfList<T>(s: seq<T>, f: T -> real)
    requires forall i, j :: 0 <= i < j < |s| ==> s[i] != s[j]
    ensures Total((set x | x in s), f) == SumList(s, f)
  {
    if s != [] {
      var n := |s| - 1;
      TotalOfList(s[..n], f);
      assert (set x | x in s) == (set x | x in s[..n]) + {s[n]};
      TotalInsert((set x | x in s[..n]), f, s[n]);
    }
  }
}
