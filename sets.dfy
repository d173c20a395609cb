/** Facts about finite sets of integers used by several modules. */
module Sets {
  /** The integers 0 .. n-1. */
  function Range(n: nat): (r: set<int>)
    ensures forall t :: t in r <==> 0 <= t < n
    ensures |r| == n
  {
    if n == 0 then {} else Range(n - 1) + {n - 1}
  }

  lemma {:induction false} SubsetCard(a: set<int>, b: set<int>)
    requires a <= b
    ensures |a| <= |b|
  {
    assert b == a + (b - a);
    assert a * (b - a) == {};
  }

  /** A subset that misses an element of the larger set is strictly smaller. */
  lemma {:induction false} ProperSubsetCard(a: set<int>, b: set<int>, x: int)
    requires a <= b && x in b && x !in a
    ensures |a| < |b|
  {
    SubsetCard(a, b - {x});
  }

  /** A non-empty set has a member; lets `:|` pick from a set of integers. */
  lemma {:induction false} NonEmpty(s: set<int>)
    requires s != {}
    ensures exists x :: x in s
  {
    if forall x :: x !in s {
      assert false;
    }
  }
}
