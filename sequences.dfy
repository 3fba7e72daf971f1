/**
 * Facts about `Array.prototype.filter` results that both filters of the
 * extension need: the survivors form a subsequence of the input, and there
 * are exactly as many of them as indices that pass the test.
 */
module Sequences {

  /** `a` is `b` with some elements dropped and the rest in their order. */
  ghost predicate IsSubsequence<T>(a: seq<T>, b: seq<T>)
    decreases |b|
  {
    if a == [] then true
    else if b == [] then false
    else if a[0] == b[0] then IsSubsequence(a[1..], b[1..])
    else IsSubsequence(a, b[1..])
  }

  /** Dropping the head of `b` keeps every subsequence of its tail a subsequence. */
  lemma {:induction false} SubsequenceSkip<T>(a: seq<T>, b: seq<T>)
    requires b != []
    requires IsSubsequence(a, b[1..])
    ensures IsSubsequence(a, b)
    decreases |b|, |a|
  {
    if a != [] && a[0] == b[0] {
      // IsSubsequence(a, b) reduces to IsSubsequence(a[1..], b[1..])
      SubsequenceTail(a, b[1..]);
    }
  }

  /** A subsequence stays one when its first element is removed. */
  lemma {:induction false} SubsequenceTail<T>(a: seq<T>, b: seq<T>)
    requires a != []
    requires IsSubsequence(a, b)
    ensures IsSubsequence(a[1..], b)
    decreases |b|, |a|
  {
    if a[0] == b[0] {
      if a[1..] != [] {
        SubsequenceSkip(a[1..], b);
      }
    } else {
      SubsequenceTail(a, b[1..]);
      if a[1..] != [] {
        SubsequenceSkip(a[1..], b);
      }
    }
  }

  /** Every index of `s` moved one place to the right. */
  ghost function Shifted(s: set<int>): set<int>
  {
    set k | k in s :: k + 1
  }

  /** Shifting distributes over adding one index. */
  lemma ShiftedAdd(s: set<int>, x: int)
    ensures Shifted(s + {x}) == Shifted(s) + {x + 1}
  {
    forall y | y in Shifted(s + {x}) ensures y in Shifted(s) + {x + 1} {
      var k :| k in s + {x} && y == k + 1;
      if k != x {
        assert k in s;
      }
    }
  }

  /** Shifting a set of indices below `n` keeps its size. */
  lemma {:induction false} ShiftedSize(s: set<int>, n: nat)
    requires forall k :: k in s ==> 0 <= k < n
    ensures |Shifted(s)| == |s|
    decreases n
  {
    if n == 0 {
      assert forall k :: k !in s;
      assert s == {};
      assert Shifted(s) == {};
    } else {
      var smaller := s - {n - 1};
      ShiftedSize(smaller, n - 1);
      if n - 1 in s {
        assert s == smaller + {n - 1};
        ShiftedAdd(smaller, n - 1);
        assert n !in Shifted(smaller);
      } else {
        assert s == smaller;
      }
    }
  }

  /** Indices passing a test, split into the head and the shifted tail. */
  lemma SplitIndices(passing: set<int>, head: bool, tail: set<int>, n: nat)
    requires forall k :: k in tail ==> 0 <= k < n
    requires passing == (if head then {0} else {}) + Shifted(tail)
    ensures |passing| == (if head then 1 else 0) + |tail|
  {
    ShiftedSize(tail, n);
    assert 0 !in Shifted(tail);
  }
}
