/** Array helpers shared by the pages: `filter`, `indexOf`, `find`, `slice(0, n)`. */
module Seqs {

  /** `xs.filter(p)`: the elements of `xs` that satisfy `p`, in their original order. */
  function Filter<T(!new)>(xs: seq<T>, p: T -> bool): (r: seq<T>)
    ensures |r| <= |xs|
    ensures forall x :: x in r <==> x in xs && p(x)
    ensures forall x :: multiset(r)[x] == if p(x) then multiset(xs)[x] else 0
  {
    assert xs != [] ==> xs == [xs[0]] + xs[1..];
    if xs == [] then []
    else if p(xs[0]) then [xs[0]] + Filter(xs[1..], p)
    else Filter(xs[1..], p)
  }

  /** `a` can be obtained from `b` by deleting elements (order is kept). */
  predicate IsSubsequence<T(==)>(a: seq<T>, b: seq<T>)
    decreases |b|
  {
    a == [] ||
    (b != [] && ((a[0] == b[0] && IsSubsequence(a[1..], b[1..])) || IsSubsequence(a, b[1..])))
  }

  /** Deleting nothing is a way of obtaining a sequence from itself. */
  lemma {:induction false} SubsequenceReflexive<T>(a: seq<T>)
    ensures IsSubsequence(a, a)
  {
    if a != [] {
      SubsequenceReflexive(a[1..]);
    }
  }

  /** Every filter result keeps the relative order of the input. */
  lemma {:induction false} FilterIsSubsequence<T(!new)>(xs: seq<T>, p: T -> bool)
    ensures IsSubsequence(Filter(xs, p), xs)
  {
    if xs != [] {
      FilterIsSubsequence(xs[1..], p);
    }
  }

  /** A predicate that every element satisfies leaves the array unchanged. */
  lemma {:induction false} FilterAll<T(!new)>(xs: seq<T>, p: T -> bool)
    requires forall x :: x in xs ==> p(x)
    ensures Filter(xs, p) == xs
  {
    if xs != [] {
      FilterAll(xs[1..], p);
    }
  }

  /** A predicate that no element satisfies leaves nothing. */
  lemma {:induction false} FilterNone<T(!new)>(xs: seq<T>, p: T -> bool)
    requires forall x :: x in xs ==> !p(x)
    ensures Filter(xs, p) == []
  {
    if xs != [] {
      FilterNone(xs[1..], p);
    }
  }

  /** `xs.indexOf(x)`: the first position of `x`, or -1. */
  function IndexOf<T(==)>(xs: seq<T>, x: T): (r: int)
    ensures -1 <= r < |xs|
    ensures r >= 0 ==> xs[r] == x && forall j :: 0 <= j < r ==> xs[j] != x
    ensures r == -1 <==> x !in xs
  {
    if xs == [] then -1
    else if xs[0] == x then 0
    else
      var i := IndexOf(xs[1..], x);
      if i == -1 then -1 else i + 1
  }

  /** `xs.find(p)`: the position of the first element satisfying `p`, or -1 when there is none. */
  function FindIndex<T>(xs: seq<T>, p: T -> bool): (r: int)
    ensures -1 <= r < |xs|
    ensures r >= 0 ==> p(xs[r]) && forall j :: 0 <= j < r ==> !p(xs[j])
    ensures r == -1 <==> forall j :: 0 <= j < |xs| ==> !p(xs[j])
  {
    if xs == [] then -1
    else if p(xs[0]) then 0
    else
      var i := FindIndex(xs[1..], p);
      assert forall j :: 1 <= j < |xs| ==> xs[j] == xs[1..][j - 1];
      if i == -1 then -1 else i + 1
  }

  /** `xs.slice(0, n)` for `n >= 0`. */
  function Take<T>(xs: seq<T>, n: nat): (r: seq<T>)
    ensures |r| <= n && |r| <= |xs|
    ensures |r| == if n <= |xs| then n else |xs|
    ensures r <= xs
  {
    if n <= |xs| then xs[..n] else xs
  }
}
