/** Sorting by insertion, for any total order. */
module Sorting {
  import opened Bags

  ghost predicate Orders<T(!new)>(le: (T, T) -> bool) {
    && (forall a, b :: le(a, b) || le(b, a))
    && (forall a, b, c :: le(a, b) && le(b, c) ==> le(a, c))
  }

  predicate Sorted<T>(xs: seq<T>, le: (T, T) -> bool) {
    forall i, j :: 0 <= i < j < |xs| ==> le(xs[i], xs[j])
  }

  function Inserted<T>(xs: seq<T>, x: T, le: (T, T) -> bool): seq<T> {
    if xs == [] then [x]
    else if le(x, xs[0]) then [x] + xs
    else [xs[0]] + Inserted(xs[1..], x, le)
  }

  function Sort<T>(xs: seq<T>, le: (T, T) -> bool): seq<T> {
    if xs == [] then [] else Inserted(Sort(xs[..|xs| - 1], le), xs[|xs| - 1], le)
  }

  lemma SortedCons<T>(x: T, xs: seq<T>, le: (T, T) -> bool)
    requires Sorted(xs, le) && forall y :: y in xs ==> le(x, y)
    ensures Sorted([x] + xs, le)
  {
    forall j | 0 <= j < |xs| ensures le(x, xs[j]) { assert xs[j] in xs; }
  }

  lemma HeadFirst<T>(xs: seq<T>, le: (T, T) -> bool)
    requires Sorted(xs, le) && xs != []
    ensures forall y :: y in xs[1..] ==> le(xs[0], y)
  {
    forall y | y in xs[1..] ensures le(xs[0], y) {
      var k :| 0 <= k < |xs[1..]| && xs[1..][k] == y;
      assert xs[k + 1] == y;
    }
  }

  lemma {:induction false} InsertedSorted<T(!new)>(xs: seq<T>, x: T, le: (T, T) -> bool)
    requires Orders(le) && Sorted(xs, le)
    ensures Sorted(Inserted(xs, x, le), le) && multiset(Inserted(xs, x, le)) == multiset(xs) + multiset{x}
  {
    if xs == [] {
    } else {
      assert xs == [xs[0]] + xs[1..];
      HeadFirst(xs, le);
      if le(x, xs[0]) {
        SortedCons(x, xs, le);
      } else {
        InsertedSorted(xs[1..], x, le);
        forall y | y in Inserted(xs[1..], x, le) ensures le(xs[0], y) {
          assert y in multiset(Inserted(xs[1..], x, le));
        }
        SortedCons(xs[0], Inserted(xs[1..], x, le), le);
      }
    }
  }

  lemma {:induction false} SortSorts<T(!new)>(xs: seq<T>, le: (T, T) -> bool)
    requires Orders(le)
    ensures Sorted(Sort(xs, le), le) && multiset(Sort(xs, le)) == multiset(xs)
  {
    if xs == [] {
    } else {
      var n := |xs| - 1;
      SortSorts(xs[..n], le);
      InsertedSorted(Sort(xs[..n], le), xs[n], le);
      assert xs == xs[..n] + [xs[n]];
    }
  }

  lemma FirstLeast<T>(xs: seq<T>, ys: seq<T>, le: (T, T) -> bool)
    requires xs != [] && ys != [] && Sorted(ys, le) && multiset(xs) == multiset(ys)
    ensures xs[0] == ys[0] || le(ys[0], xs[0])
  {
    assert xs[0] in multiset(ys);
    var k :| 0 <= k < |ys| && ys[k] == xs[0];
  }

  /** When only equal elements are ordered both ways, there is one way to sort. */
  lemma {:induction false} OneResult<T(!new)>(xs: seq<T>, ys: seq<T>, le: (T, T) -> bool)
    requires forall a, b :: le(a, b) && le(b, a) ==> a == b
    requires Sorted(xs, le) && Sorted(ys, le) && multiset(xs) == multiset(ys)
    ensures xs == ys
    decreases |xs|
  {
    assert |xs| == |multiset(xs)| == |multiset(ys)| == |ys|;
    if xs == [] {
    } else {
      FirstLeast(xs, ys, le);
      FirstLeast(ys, xs, le);
      BagOfTail(xs);
      BagOfTail(ys);
      BagCancel(multiset(xs[1..]), multiset(ys[1..]), xs[0]);
      OneResult(xs[1..], ys[1..], le);
      assert xs == [xs[0]] + xs[1..] && ys == [ys[0]] + ys[1..];
    }
  }
}
