/**
  Descending insertion sort on integers and on (count, rank) pairs: what std::sort
  leaves behind with the evaluator's comparators, and why that result is unique.
  */
module Sorting {

  ghost predicate Descending(s: seq<int>) {
    forall i, j :: 0 <= i < j < |s| ==> s[i] >= s[j]
  }

  function InsertDesc(x: int, s: seq<int>): (r: seq<int>)
    requires Descending(s)
    ensures Descending(r) && |r| == |s| + 1
    ensures multiset(r) == multiset(s) + multiset{x}
  {
    if s == [] || x >= s[0] then [x] + s
    else
      assert s == [s[0]] + s[1..];
      var tail := InsertDesc(x, s[1..]);
      BoundedBy(tail, s[1..], x, s[0]);
      ConsDescends(s[0], tail);
      [s[0]] + tail
  }

  lemma ConsDescends(top: int, t: seq<int>)
    requires Descending(t) && forall i :: 0 <= i < |t| ==> t[i] <= top
    ensures Descending([top] + t) && multiset([top] + t) == multiset(t) + multiset{top}
  {}

  lemma BoundedBy(t: seq<int>, s: seq<int>, x: int, top: int)
    requires multiset(t) == multiset(s) + multiset{x}
    requires x <= top && forall i :: 0 <= i < |s| ==> s[i] <= top
    ensures forall i :: 0 <= i < |t| ==> t[i] <= top
  {
    forall i | 0 <= i < |t| ensures t[i] <= top {
      assert t[i] in multiset(t);
    }
  }

  function SortDesc(s: seq<int>): (r: seq<int>)
    ensures Descending(r) && |r| == |s|
    ensures multiset(r) == multiset(s)
  {
    if s == [] then []
    else
      assert s == [s[0]] + s[1..];
      InsertDesc(s[0], SortDesc(s[1..]))
  }

  /** A descending sequence is determined by its multiset. */
  lemma {:induction false} DescendingUnique(a: seq<int>, b: seq<int>)
    requires Descending(a) && Descending(b) && multiset(a) == multiset(b)
    ensures a == b
  {
    if a == [] || b == [] {
      assert |multiset(a)| == |multiset(b)|;
    } else {
      HeadIsTop(a, b[0]);
      HeadIsTop(b, a[0]);
      assert a[0] == b[0];
      assert multiset(a[1..]) == multiset(b[1..]) by {
        RestOf(a);
        RestOf(b);
      }
      DescendingUnique(a[1..], b[1..]);
    }
  }

  lemma HeadIsTop(s: seq<int>, x: int)
    requires Descending(s) && x in multiset(s)
    ensures s != [] && s[0] >= x
  {
    assert x in s;
  }

  lemma RestOf<T>(s: seq<T>)
    requires s != []
    ensures s == [s[0]] + s[1..] && multiset(s[1..]) == multiset(s) - multiset{s[0]}
  {}

  /** The evaluator's frequency order: higher count first, then higher rank. */
  predicate Before(a: (int, int), b: (int, int)) {
    a.0 > b.0 || (a.0 == b.0 && a.1 > b.1)
  }

  ghost predicate Ordered(s: seq<(int, int)>) {
    forall i, j :: 0 <= i < j < |s| ==> Before(s[i], s[j])
  }

  function InsertPair(x: (int, int), s: seq<(int, int)>): (r: seq<(int, int)>)
    requires Ordered(s) && x !in s
    ensures Ordered(r) && |r| == |s| + 1
    ensures forall y :: y in r <==> y == x || y in s
  {
    if s == [] || Before(x, s[0]) then [x] + s
    else
      assert s == [s[0]] + s[1..];
      var tail := InsertPair(x, s[1..]);
      assert forall i :: 0 <= i < |tail| ==> tail[i] in tail;
      [s[0]] + tail
  }

  function SortPairs(s: seq<(int, int)>): (r: seq<(int, int)>)
    requires forall i, j :: 0 <= i < j < |s| ==> s[i] != s[j]
    ensures Ordered(r)
    ensures forall y :: y in r <==> y in s
  {
    if s == [] then []
    else
      assert s == [s[0]] + s[1..];
      InsertPair(s[0], SortPairs(s[1..]))
  }

  /** An ordered sequence of pairs is determined by its set of elements. */
  lemma {:induction false} OrderedUnique(a: seq<(int, int)>, b: seq<(int, int)>)
    requires Ordered(a) && Ordered(b)
    requires forall y :: y in a <==> y in b
    ensures a == b
  {
    if b != [] {
      assert b[0] in a;
    }
    if a != [] {
      assert a[0] in b;
      assert a[0] == b[0];
      assert a == [a[0]] + a[1..] && b == [b[0]] + b[1..];
      forall y ensures y in a[1..] <==> y in b[1..] {
        assert y in a <==> y in b;
      }
      OrderedUnique(a[1..], b[1..]);
    }
  }

  ghost predicate StrictlyDescending(s: seq<int>) {
    forall i, j :: 0 <= i < j < |s| ==> s[i] > s[j]
  }

  /** A strictly descending sequence is determined by its set of elements. */
  lemma {:induction false} StrictlyDescendingUnique(a: seq<int>, b: seq<int>)
    requires StrictlyDescending(a) && StrictlyDescending(b)
    requires forall x :: x in a <==> x in b
    ensures a == b
  {
    if b != [] {
      assert b[0] in b && b[0] in a;
    }
    if a != [] {
      assert a[0] in a && a[0] in b;
      assert a[0] == b[0];
      assert a == [a[0]] + a[1..] && b == [b[0]] + b[1..];
      forall x ensures x in a[1..] <==> x in b[1..] {
        assert x in a <==> x in b;
      }
      StrictlyDescendingUnique(a[1..], b[1..]);
    }
  }
}
