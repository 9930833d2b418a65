/** Sequence operations shared by the model: the LINQ `Where` filter,
    a `SelectMany`-style flattening map, and the facts about them. */
module Seqs {

  /** `a` can be obtained from `b` by deleting elements: the relative order
      of the kept elements is the order they have in `b`. */
  predicate IsSubsequence<T(==)>(a: seq<T>, b: seq<T>)
    decreases |b|
  {
    if a == [] then true
    else if b == [] then false
    else if a[0] == b[0] then IsSubsequence(a[1..], b[1..])
    else IsSubsequence(a, b[1..])
  }

  /** The elements of a sequence, as a set. */
  function Elements<T(==,!new)>(s: seq<T>): (r: set<T>)
    ensures forall x :: x in r <==> x in s
  {
    set x | x in s
  }

  /** No element occurs twice. */
  predicate NoDuplicates<T(==)>(s: seq<T>) {
    forall i, j :: 0 <= i < j < |s| ==> s[i] != s[j]
  }

  /** LINQ `Where`: the elements of `s` that satisfy `keep`, in order. */
  function Filter<T(==,!new)>(keep: T -> bool, s: seq<T>): (r: seq<T>)
    ensures |r| <= |s|
    ensures forall x :: x in r <==> x in s && keep(x)
    ensures IsSubsequence(r, s)
    decreases |s|
  {
    if s == [] then []
    else
      var rest := Filter(keep, s[1..]);
      if keep(s[0]) then [s[0]] + rest
      else
        // s[0] is dropped, so it cannot be the head of what is kept
        assert rest == [] || rest[0] != s[0] by {
          if rest != [] { assert rest[0] in rest; }
        }
        rest
  }

  /** Filtering distributes over concatenation. */
  lemma {:induction false} FilterConcat<T(!new)>(keep: T -> bool, a: seq<T>, b: seq<T>)
    ensures Filter(keep, a + b) == Filter(keep, a) + Filter(keep, b)
    decreases |a|
  {
    if a == [] {
      assert a + b == b;
    } else {
      assert (a + b)[1..] == a[1..] + b;
      FilterConcat(keep, a[1..], b);
    }
  }

  /** A filter that keeps every element is the identity. */
  lemma {:induction false} FilterKeepsAll<T(!new)>(keep: T -> bool, s: seq<T>)
    requires forall x :: x in s ==> keep(x)
    ensures Filter(keep, s) == s
    decreases |s|
  {
    if s != [] {
      assert forall x :: x in s[1..] ==> x in s;
      FilterKeepsAll(keep, s[1..]);
    }
  }

  /** A filter that keeps no element leaves nothing. */
  lemma {:induction false} FilterKeepsNone<T(!new)>(keep: T -> bool, s: seq<T>)
    requires forall x :: x in s ==> !keep(x)
    ensures Filter(keep, s) == []
    decreases |s|
  {
    if s != [] {
      assert forall x :: x in s[1..] ==> x in s;
      FilterKeepsNone(keep, s[1..]);
    }
  }

  /** Two successive filters are one filter by the conjunction. */
  lemma {:induction false} FilterFuse<T(!new)>(first: T -> bool, second: T -> bool, both: T -> bool, s: seq<T>)
    requires forall x :: both(x) == (first(x) && second(x))
    ensures Filter(second, Filter(first, s)) == Filter(both, s)
    decreases |s|
  {
    if s != [] {
      FilterFuse(first, second, both, s[1..]);
    }
  }

  /** LINQ `SelectMany`: the concatenation of `f` over `s`, in order. */
  function FlatMap<T, U>(f: T -> seq<U>, s: seq<T>): seq<U>
    decreases |s|
  {
    if s == [] then [] else f(s[0]) + FlatMap(f, s[1..])
  }

  lemma {:induction false} FlatMapConcat<T, U>(f: T -> seq<U>, a: seq<T>, b: seq<T>)
    ensures FlatMap(f, a + b) == FlatMap(f, a) + FlatMap(f, b)
    decreases |a|
  {
    if a == [] {
      assert a + b == b;
    } else {
      assert (a + b)[1..] == a[1..] + b;
      FlatMapConcat(f, a[1..], b);
    }
  }

  /** Elements with empty images contribute nothing. */
  lemma {:induction false} FlatMapNone<T, U>(f: T -> seq<U>, s: seq<T>)
    requires forall i :: 0 <= i < |s| ==> f(s[i]) == []
    ensures FlatMap(f, s) == []
    decreases |s|
  {
    if s != [] {
      FlatMapNone(f, s[1..]);
    }
  }

  /** Appending one element appends its image. */
  lemma FlatMapSnoc<T, U>(f: T -> seq<U>, a: seq<T>, x: T)
    ensures FlatMap(f, a + [x]) == FlatMap(f, a) + f(x)
  {
    FlatMapConcat(f, a, [x]);
    assert FlatMap(f, [x]) == f(x) + FlatMap(f, []);
  }

  /** Two appends in a row are one append of both parts. */
  lemma AppendChain<T>(r0: seq<T>, r1: seq<T>, r2: seq<T>, x: seq<T>, y: seq<T>)
    requires r1 == r0 + x && r2 == r1 + y
    ensures r2 == r0 + (x + y)
  {
  }

  /** Appending a new element keeps a sequence free of duplicates. */
  lemma NoDuplicatesSnoc<T>(s: seq<T>, x: T)
    requires NoDuplicates(s) && x !in s
    ensures NoDuplicates(s + [x])
  {
    var s' := s + [x];
    forall i, j | 0 <= i < j < |s'|
      ensures s'[i] != s'[j]
    {
      if j == |s| {
        assert s'[i] == s[i];
      }
    }
  }
}
