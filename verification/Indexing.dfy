/** Ranges of numbers, and the successor of an index going round. */
module Indexing {
  predicate In(x: nat, a: nat, n: nat) {
    a <= x < a + n
  }

  function Range(a: nat, n: nat): (s: set<nat>)
    ensures forall x :: x in s <==> In(x, a, n)
  {
    set x: nat | a <= x < a + n && In(x, a, n)
  }

  function Next(n: nat, i: nat): (j: nat)
    requires i < n
    ensures j < n
  {
    if i + 1 < n then i + 1 else 0
  }

  lemma {:induction false} RangeSize(a: nat, n: nat)
    ensures |Range(a, n)| == n
  {
    if n == 0 {
      assert Range(a, 0) == {};
    } else {
      RangeSize(a, n - 1);
      assert Range(a, n) == Range(a, n - 1) + {a + n - 1};
    }
  }

  lemma SubsetSize<T>(a: set<T>, b: set<T>)
    requires a <= b
    ensures |a| <= |b|
  {
    assert b == a + (b - a);
  }
}
