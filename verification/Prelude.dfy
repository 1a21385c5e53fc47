/** Vocabulary shared by the other modules. */
module Prelude {

  datatype Option<+T> = None | Some(value: T)

  datatype Result<+T, +E> = Ok(value: T) | Err(error: E)

  function Min(a: int, b: int): int {
    if a < b then a else b
  }

  /** Strictly increasing, so in particular free of duplicates. */
  ghost predicate Increasing(s: seq<nat>) {
    forall i, j :: 0 <= i < j < |s| ==> s[i] < s[j]
  }

  /** The sequence 0, 1, ..., n-1. */
  function UpTo(n: nat): (r: seq<nat>)
    ensures |r| == n
    ensures forall i :: 0 <= i < n ==> r[i] == i
  {
    seq(n, i => i)
  }

  /** Inserts x before the first larger element: what pushing and sorting does to a sorted list. */
  function InsertSorted(s: seq<nat>, x: nat): (r: seq<nat>)
    ensures |r| == |s| + 1
  {
    if s == [] then [x]
    else if x < s[0] then [x] + s
    else [s[0]] + InsertSorted(s[1..], x)
  }

  lemma {:induction false} InsertSortedMembers(s: seq<nat>, x: nat)
    ensures forall y :: y in InsertSorted(s, x) <==> y == x || y in s
  {
    if s != [] && x >= s[0] {
      InsertSortedMembers(s[1..], x);
      assert s == [s[0]] + s[1..];
      assert forall y :: y in InsertSorted(s, x) <==> y == s[0] || y in InsertSorted(s[1..], x);
    }
  }

  lemma ConsIncreasing(x: nat, rest: seq<nat>)
    requires Increasing(rest) && forall y :: y in rest ==> x < y
    ensures Increasing([x] + rest)
  {
    var s := [x] + rest;
    forall i, j | 0 <= i < j < |s| ensures s[i] < s[j] {
      assert s[j] == rest[j - 1] && rest[j - 1] in rest;
      if i > 0 { assert s[i] == rest[i - 1]; }
    }
  }

  lemma {:induction false} InsertSortedIncreasing(s: seq<nat>, x: nat)
    requires Increasing(s) && x !in s
    ensures Increasing(InsertSorted(s, x))
  {
    if s != [] {
      var tail := s[1..];
      assert forall y :: y in tail ==> y in s && s[0] < y;
      if x < s[0] {
        assert forall y :: y in s ==> y == s[0] || y in tail;
        ConsIncreasing(x, s);
      } else {
        InsertSortedIncreasing(tail, x);
        InsertSortedMembers(tail, x);
        ConsIncreasing(s[0], InsertSorted(tail, x));
      }
    }
  }

  lemma {:induction false} IncreasingAtLeast(s: seq<nat>, k: nat)
    requires Increasing(s) && k < |s|
    ensures k <= s[k]
  {
    if k > 0 {
      IncreasingAtLeast(s, k - 1);
    }
  }

  /** Pigeonhole: n increasing numbers below n can only be 0, 1, ..., n-1. */
  lemma {:induction false} FullMeansUpTo(s: seq<nat>, n: nat)
    requires Increasing(s) && forall x :: x in s ==> x < n
    ensures |s| <= n
    ensures |s| == n ==> s == UpTo(n)
  {
    if |s| > 0 {
      IncreasingAtLeast(s, |s| - 1);
      assert s[|s| - 1] in s;
    }
    if |s| == n {
      forall k | 0 <= k < n ensures s[k] == k {
        IncreasingAtLeast(s, k);
        TopDown(s, n, k);
      }
    }
  }

  lemma {:induction false} TopDown(s: seq<nat>, n: nat, k: nat)
    requires Increasing(s) && (forall x :: x in s ==> x < n) && k < |s| == n
    ensures s[k] <= k
    decreases n - k
  {
    if k == n - 1 {
      assert s[k] in s;
    } else {
      TopDown(s, n, k + 1);
    }
  }
}
