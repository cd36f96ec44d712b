/** Finite sums, used for measures and for conservation laws over all threads. */
module Sums {

  function Sum(s: seq<int>): int {
    if s == [] then 0 else s[0] + Sum(s[1..])
  }

  lemma {:induction false} SumUpdate(s: seq<int>, i: nat, v: int)
    requires i < |s|
    ensures Sum(s[i := v]) == Sum(s) - s[i] + v
  {
    if i == 0 {
      assert s[i := v][1..] == s[1..];
    } else {
      assert s[i := v][1..] == s[1..][i - 1 := v];
      SumUpdate(s[1..], i - 1, v);
    }
  }

  /** A sum whose terms all lie in 0..hi. */
  lemma {:induction false} SumBounds(s: seq<int>, hi: nat)
    requires forall i :: 0 <= i < |s| ==> 0 <= s[i] <= hi
    ensures 0 <= Sum(s) <= hi * |s|
  {
    if s != [] {
      SumBounds(s[1..], hi);
      assert hi * |s| == hi * |s[1..]| + hi;
    }
  }

  /** A sum of equal terms. */
  lemma {:induction false} SumConst(s: seq<int>, c: int)
    requires forall i :: 0 <= i < |s| ==> s[i] == c
    ensures Sum(s) == c * |s|
  {
    if s != [] {
      SumConst(s[1..], c);
      assert c * |s| == c * |s[1..]| + c;
    }
  }

  /** Terms that all go down or stay, one of them by at least `drop`. */
  lemma {:induction false} SumDrop(a: seq<int>, b: seq<int>, j: nat, drop: nat)
    requires |a| == |b| && j < |a|
    requires forall i :: 0 <= i < |a| ==> b[i] <= a[i]
    requires b[j] + drop <= a[j]
    ensures Sum(b) + drop <= Sum(a)
  {
    if j == 0 {
      SumMonotone(a[1..], b[1..]);
    } else {
      SumDrop(a[1..], b[1..], j - 1, drop);
    }
  }

  lemma {:induction false} SumMonotone(a: seq<int>, b: seq<int>)
    requires |a| == |b|
    requires forall i :: 0 <= i < |a| ==> b[i] <= a[i]
    ensures Sum(b) <= Sum(a)
  {
    if a != [] {
      SumMonotone(a[1..], b[1..]);
    }
  }

  /** Non-negative terms that sum to zero are all zero. */
  lemma {:induction false} ZeroSum(s: seq<int>, i: nat)
    requires forall k :: 0 <= k < |s| ==> 0 <= s[k]
    requires i < |s| && Sum(s) <= 0
    ensures s[i] == 0
  {
    SumNonNegative(s[1..]);
    if i > 0 {
      ZeroSum(s[1..], i - 1);
    }
  }

  lemma {:induction false} SumNonNegative(s: seq<int>)
    requires forall k :: 0 <= k < |s| ==> 0 <= s[k]
    ensures 0 <= Sum(s)
  {
    if s != [] {
      SumNonNegative(s[1..]);
    }
  }
}
