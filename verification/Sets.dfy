/** Finite sets of thread ids. */
module Sets {

  function Range(n: nat): (r: set<nat>)
    ensures forall t :: t in r <==> 0 <= t < n
  {
    if n == 0 then {} else Range(n - 1) + {n - 1}
  }

  lemma {:induction false} RangeSize(n: nat)
    ensures |Range(n)| == n
  {
    if n > 0 {
      RangeSize(n - 1);
    }
  }

  lemma {:induction false} SubsetSize(a: set<nat>, b: set<nat>)
    requires a <= b
    ensures |a| <= |b|
  {
    if x :| x in a {
      SubsetSize(a - {x}, b - {x});
    }
  }

  lemma UnionSize(a: set<nat>, b: set<nat>)
    requires a !! b
    ensures |a + b| == |a| + |b|
  {
  }

  /** A subset of full size is everything. */
  lemma FullSize(a: set<nat>, n: nat)
    requires forall t <- a :: t < n
    ensures |a| <= n && (|a| == n <==> a == Range(n))
  {
    RangeSize(n);
    assert a <= Range(n);
    assert Range(n) == a + (Range(n) - a);
    UnionSize(a, Range(n) - a);
  }
}
