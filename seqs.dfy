/** Kotlin's `filter`, `filterNot` and `indexOfFirst` on lists, and the
    order-preserving subsequence relation they establish. */
module Seqs {

  /** `a` is obtained from `b` by deleting elements, keeping the order. */
  ghost predicate Subsequence<T>(a: seq<T>, b: seq<T>)
    decreases |b|
  {
    if a == [] then true
    else if b == [] then false
    else (a[0] == b[0] && Subsequence(a[1..], b[1..])) || Subsequence(a, b[1..])
  }

  /** Kotlin's `filter { keep(it) }`. */
  function Filter<T>(s: seq<T>, keep: T -> bool): (r: seq<T>)
    ensures |r| <= |s|
    ensures forall x :: x in r ==> x in s && keep(x)
  {
    if s == [] then []
    else (if keep(s[0]) then [s[0]] else []) + Filter(s[1..], keep)
  }

  /** An element survives the filter exactly when it was there and passes. */
  lemma {:induction false} FilterMembership<T>(s: seq<T>, keep: T -> bool, x: T)
    ensures x in Filter(s, keep) <==> x in s && keep(x)
  {
    if s != [] {
      FilterMembership(s[1..], keep, x);
      assert s == [s[0]] + s[1..];
    }
  }

  /** The filter keeps the order of what it keeps. */
  lemma {:induction false} FilterSubsequence<T>(s: seq<T>, keep: T -> bool)
    ensures Subsequence(Filter(s, keep), s)
  {
    if s != [] {
      FilterSubsequence(s[1..], keep);
      var r := Filter(s, keep);
      if keep(s[0]) {
        assert r[0] == s[0] && r[1..] == Filter(s[1..], keep);
      } else {
        assert r == Filter(s[1..], keep);
        SubsequenceDropHead(r, s);
      }
    }
  }

  lemma SubsequenceDropHead<T>(a: seq<T>, b: seq<T>)
    requires b != [] && Subsequence(a, b[1..])
    ensures Subsequence(a, b)
  {
  }

  /** Filtering twice with the same test is filtering once. */
  lemma {:induction false} FilterIdempotent<T>(s: seq<T>, keep: T -> bool)
    ensures Filter(Filter(s, keep), keep) == Filter(s, keep)
  {
    if s != [] {
      FilterIdempotent(s[1..], keep);
      var rest := Filter(s[1..], keep);
      if keep(s[0]) {
        var r := [s[0]] + rest;
        assert r[0] == s[0] && r[1..] == rest;
      } else {
        assert Filter(s, keep) == rest;
      }
    }
  }

  /** A filter that every element passes changes nothing. */
  lemma {:induction false} FilterKeepsAll<T>(s: seq<T>, keep: T -> bool)
    requires forall x :: x in s ==> keep(x)
    ensures Filter(s, keep) == s
  {
    if s != [] {
      FilterKeepsAll(s[1..], keep);
      assert s == [s[0]] + s[1..];
    }
  }

  /** Kotlin's `indexOfFirst { matches(it) }`: the first matching index, or -1. */
  function IndexOfFirst<T>(s: seq<T>, matches: T -> bool): (i: int)
    ensures -1 <= i < |s|
    ensures i == -1 <==> forall j :: 0 <= j < |s| ==> !matches(s[j])
    ensures 0 <= i ==> matches(s[i]) && forall j :: 0 <= j < i ==> !matches(s[j])
  {
    if s == [] then -1
    else if matches(s[0]) then 0
    else
      var k := IndexOfFirst(s[1..], matches);
      if k == -1 then -1 else k + 1
  }
}
