/**
  Sorting and filtering of sequences, and finite sets of identifiers in order.
 */
module Ordering {
  function Insert<T>(x: T, xs: seq<T>, before: (T, T) -> bool): (r: seq<T>)
    ensures multiset(r) == multiset{x} + multiset(xs)
  {
    if xs == [] || before(x, xs[0]) then
      assert xs == [] || xs == [xs[0]] + xs[1..];
      [x] + xs
    else
      assert xs == [xs[0]] + xs[1..];
      [xs[0]] + Insert(x, xs[1..], before)
  }

  /** Insertion sort: the same elements, in an order no later element precedes. */
  function SortBy<T>(xs: seq<T>, before: (T, T) -> bool): (r: seq<T>)
    ensures multiset(r) == multiset(xs)
  {
    if xs == [] then [] else
      assert xs == [xs[0]] + xs[1..];
      Insert(xs[0], SortBy(xs[1..], before), before)
  }

  ghost predicate TotalOrder<T(!new)>(before: (T, T) -> bool) {
    && (forall x, y :: before(x, y) || before(y, x))
    && (forall x, y, z :: before(x, y) && before(y, z) ==> before(x, z))
  }

  ghost predicate Sorted<T>(xs: seq<T>, before: (T, T) -> bool) {
    forall i, j | 0 <= i < j < |xs| :: before(xs[i], xs[j])
  }

  lemma {:induction false} InsertSorted<T(!new)>(x: T, xs: seq<T>, before: (T, T) -> bool)
    requires TotalOrder(before) && Sorted(xs, before)
    ensures Sorted(Insert(x, xs, before), before)
  {
    if xs != [] && !before(x, xs[0]) {
      var rest := Insert(x, xs[1..], before);
      InsertSorted(x, xs[1..], before);
      assert forall y | y in rest :: y in multiset(rest);
      assert forall y | y in xs[1..] :: exists k :: 0 < k < |xs| && xs[k] == y;
      assert forall y | y in rest :: before(xs[0], y) by {
        forall y | y in rest ensures before(xs[0], y) { assert y in multiset(rest); assert y == x || y in xs[1..]; }
      }
    } else if xs != [] {
      assert forall k | 0 < k < |xs| :: before(x, xs[k]) by {
        forall k | 0 < k < |xs| ensures before(x, xs[k]) { assert before(xs[0], xs[k]); }
      }
    }
  }

  lemma {:induction false} SortBySorts<T(!new)>(xs: seq<T>, before: (T, T) -> bool)
    requires TotalOrder(before)
    ensures Sorted(SortBy(xs, before), before)
  {
    if xs != [] {
      SortBySorts(xs[1..], before);
      InsertSorted(xs[0], SortBy(xs[1..], before), before);
    }
  }

  function Filter<T(!new)>(xs: seq<T>, keep: T -> bool): (r: seq<T>)
    ensures forall x :: x in r <==> x in xs && keep(x)
  {
    if xs == [] then [] else (if keep(xs[0]) then [xs[0]] else []) + Filter(xs[1..], keep)
  }

  predicate Distinct<T(==)>(xs: seq<T>) {
    forall i, j | 0 <= i < j < |xs| :: xs[i] != xs[j]
  }

  lemma {:induction false} DistinctOnce<T>(a: seq<T>)
    ensures Distinct(a) <==> forall t :: multiset(a)[t] <= 1
  {
    if a != [] {
      var rest := a[1..];
      assert a == [a[0]] + rest;
      DistinctOnce(rest);
      if Distinct(a) {
        assert a[0] !in rest;
        assert a[0] !in multiset(rest);
        assert multiset(a) == multiset{a[0]} + multiset(rest);
      }
      if forall t :: multiset(a)[t] <= 1 {
        assert multiset(a) == multiset{a[0]} + multiset(rest);
        assert forall t :: multiset(rest)[t] <= multiset(a)[t];
        assert a[0] !in multiset(rest);
        assert a[0] !in rest;
        forall i, j | 0 <= i < j < |a| ensures a[i] != a[j] {
          if i > 0 { assert a[i] == rest[i - 1] && a[j] == rest[j - 1]; } else { assert a[j] == rest[j - 1]; }
        }
      }
    }
  }

  predicate IsMinimum(s: set<nat>, x: nat) { x in s && forall y | y in s :: x <= y }

  lemma {:induction false} MinimumExists(s: set<nat>)
    requires s != {}
    ensures exists x :: IsMinimum(s, x)
    decreases |s|
  {
    var x :| x in s;
    var rest := s - {x};
    assert s == rest + {x};
    if rest == {} {
      assert IsMinimum(s, x);
    } else {
      MinimumExists(rest);
      var l :| IsMinimum(rest, l);
      assert IsMinimum(s, if x <= l then x else l);
    }
  }

  function Minimum(s: set<nat>): (x: nat)
    requires s != {}
    ensures IsMinimum(s, x)
  {
    MinimumExists(s);
    var x :| IsMinimum(s, x);
    x
  }

  /** The elements of a finite set of identifiers in order. */
  function Ordered(s: set<nat>): (r: seq<nat>)
    ensures forall x :: x in r <==> x in s
    ensures forall i, j | 0 <= i < j < |r| :: r[i] < r[j]
    decreases |s|
  {
    if s == {} then []
    else
      var x := Minimum(s);
      var rest := Ordered(s - {x});
      assert forall i | 0 <= i < |rest| :: rest[i] in rest;
      [x] + rest
  }
}
