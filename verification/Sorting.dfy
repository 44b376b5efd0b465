// A stable insertion sort over sequences, and the facts the callers of
// `sort_by` and `sort_by_key` rely on: the result is ordered, holds the same
// elements, and is the only ordered arrangement when no two elements tie.
module Sorting {

  ghost predicate TotalPreorder<T(!new)>(le: (T, T) -> bool) {
    && (forall x, y :: le(x, y) || le(y, x))
    && (forall x, y, z :: le(x, y) && le(y, z) ==> le(x, z))
  }

  // No two distinct elements of `xs` tie under `le`.
  ghost predicate TieFree<T>(le: (T, T) -> bool, xs: seq<T>) {
    forall x, y :: x in xs && y in xs && le(x, y) && le(y, x) ==> x == y
  }

  ghost predicate Sorted<T>(le: (T, T) -> bool, xs: seq<T>) {
    forall i, j :: 0 <= i < j < |xs| ==> le(xs[i], xs[j])
  }

  // `x` goes in front of the first element it does not exceed.
  function Insert<T>(le: (T, T) -> bool, x: T, xs: seq<T>): (r: seq<T>)
    ensures multiset(r) == multiset{x} + multiset(xs)
  {
    if xs == [] then [x]
    else if le(x, xs[0]) then [x] + xs
    else
      assert xs == [xs[0]] + xs[1..];
      [xs[0]] + Insert(le, x, xs[1..])
  }

  function Sort<T>(le: (T, T) -> bool, xs: seq<T>): (r: seq<T>)
    ensures multiset(r) == multiset(xs)
  {
    if xs == [] then []
    else
      assert xs == [xs[0]] + xs[1..];
      Insert(le, xs[0], Sort(le, xs[1..]))
  }

  lemma SameMembers<T>(xs: seq<T>, ys: seq<T>)
    requires multiset(xs) == multiset(ys)
    ensures |xs| == |ys|
    ensures forall x :: x in xs <==> x in ys
  {
    assert |multiset(xs)| == |multiset(ys)|;
    forall x ensures x in xs <==> x in ys {
      assert x in xs <==> x in multiset(xs);
      assert x in ys <==> x in multiset(ys);
    }
  }

  lemma {:induction false} InsertKeepsSorted<T(!new)>(le: (T, T) -> bool, x: T, xs: seq<T>)
    requires TotalPreorder(le) && Sorted(le, xs)
    ensures Sorted(le, Insert(le, x, xs))
  {
    if xs == [] {
    } else if le(x, xs[0]) {
    } else {
      var tail := Insert(le, x, xs[1..]);
      InsertKeepsSorted(le, x, xs[1..]);
      forall y | y in tail ensures le(xs[0], y) {
        assert y in multiset(tail);
        if y != x {
          assert y in xs[1..];
        }
      }
    }
  }

  lemma {:induction false} SortSorts<T(!new)>(le: (T, T) -> bool, xs: seq<T>)
    requires TotalPreorder(le)
    ensures Sorted(le, Sort(le, xs))
  {
    if xs == [] {
    } else {
      SortSorts(le, xs[1..]);
      InsertKeepsSorted(le, xs[0], Sort(le, xs[1..]));
    }
  }

  lemma DropFirst<T>(xs: seq<T>)
    requires xs != []
    ensures multiset(xs[1..]) == multiset(xs) - multiset{xs[0]}
  {
    assert xs == [xs[0]] + xs[1..];
  }

  // The first element of an ordered sequence is below every element.
  lemma FirstIsLeast<T>(le: (T, T) -> bool, xs: seq<T>, y: T)
    requires Sorted(le, xs) && y in xs && le(xs[0], xs[0])
    ensures le(xs[0], y)
  {
    var i :| 0 <= i < |xs| && xs[i] == y;
  }

  // Without ties there is one ordered arrangement of a collection.
  lemma {:induction false} SortedUnique<T(!new)>(le: (T, T) -> bool, xs: seq<T>, ys: seq<T>)
    requires TotalPreorder(le) && TieFree(le, xs)
    requires multiset(xs) == multiset(ys)
    requires Sorted(le, xs) && Sorted(le, ys)
    ensures xs == ys
    decreases |xs|
  {
    SameMembers(xs, ys);
    if xs == [] {
    } else {
      FirstIsLeast(le, xs, ys[0]);
      FirstIsLeast(le, ys, xs[0]);
      DropFirst(xs);
      DropFirst(ys);
      assert TieFree(le, xs[1..]) by {
        forall x | x in xs[1..] ensures x in xs {}
      }
      SortedUnique(le, xs[1..], ys[1..]);
      assert xs == [xs[0]] + xs[1..] && ys == [ys[0]] + ys[1..];
    }
  }

  // The order in which the elements arrive does not show in the result.
  lemma SortIgnoresInputOrder<T(!new)>(le: (T, T) -> bool, xs: seq<T>, ys: seq<T>)
    requires TotalPreorder(le) && TieFree(le, xs)
    requires multiset(xs) == multiset(ys)
    ensures Sort(le, xs) == Sort(le, ys)
  {
    SortSorts(le, xs);
    SortSorts(le, ys);
    SameMembers(xs, Sort(le, xs));
    SortedUnique(le, Sort(le, xs), Sort(le, ys));
  }
}
