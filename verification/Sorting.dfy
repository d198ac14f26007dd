/** A stable sort by an ascending key, as `Array.prototype.sort` gives it. */
module Sorting {

  function InsertBy<T>(x: T, xs: seq<T>, key: T -> real): seq<T> {
    if xs == [] || key(x) <= key(xs[0]) then [x] + xs else [xs[0]] + InsertBy(x, xs[1..], key)
  }

  function SortBy<T>(xs: seq<T>, key: T -> real): seq<T> {
    if xs == [] then [] else InsertBy(xs[0], SortBy(xs[1..], key), key)
  }

  predicate SortedBy<T>(xs: seq<T>, key: T -> real) {
    forall i, j :: 0 <= i < j < |xs| ==> key(xs[i]) <= key(xs[j])
  }

  /** The elements with one key, in the order they stand in. */
  function WithKey<T>(xs: seq<T>, key: T -> real, k: real): seq<T> {
    if xs == [] then [] else (if key(xs[0]) == k then [xs[0]] else []) + WithKey(xs[1..], key, k)
  }

  lemma {:induction false} InsertByKeeps<T>(x: T, xs: seq<T>, key: T -> real)
    ensures multiset(InsertBy(x, xs, key)) == multiset([x] + xs)
  {
    if xs == [] || key(x) <= key(xs[0]) {
    } else {
      InsertByKeeps(x, xs[1..], key);
      assert xs == [xs[0]] + xs[1..];
    }
  }

  lemma {:induction false} InsertBySorts<T>(x: T, xs: seq<T>, key: T -> real)
    requires SortedBy(xs, key)
    ensures SortedBy(InsertBy(x, xs, key), key)
    ensures |InsertBy(x, xs, key)| == |xs| + 1
    ensures key(InsertBy(x, xs, key)[0]) == if xs == [] || key(x) <= key(xs[0]) then key(x) else key(xs[0])
  {
    if xs == [] || key(x) <= key(xs[0]) {
    } else {
      InsertBySorts(x, xs[1..], key);
      var rest := InsertBy(x, xs[1..], key);
      assert key(xs[0]) <= key(rest[0]);
      assert forall j :: 0 < j < |rest| ==> key(rest[0]) <= key(rest[j]);
    }
  }

  lemma {:induction false} InsertByIsStable<T>(x: T, xs: seq<T>, key: T -> real, k: real)
    ensures WithKey(InsertBy(x, xs, key), key, k) == WithKey([x] + xs, key, k)
  {
    if xs == [] || key(x) <= key(xs[0]) {
    } else {
      InsertByIsStable(x, xs[1..], key, k);
      var r := [xs[0]] + InsertBy(x, xs[1..], key);
      assert r[1..] == InsertBy(x, xs[1..], key);
      assert ([x] + xs)[1..] == xs && ([x] + xs[1..])[1..] == xs[1..];
    }
  }

  /** The result is the same elements, ascending, ties in their first order. */
  lemma {:induction false} SortBySorts<T>(xs: seq<T>, key: T -> real)
    ensures SortedBy(SortBy(xs, key), key)
    ensures multiset(SortBy(xs, key)) == multiset(xs)
    ensures forall k: real :: WithKey(SortBy(xs, key), key, k) == WithKey(xs, key, k)
  {
    if xs == [] {
    } else {
      var rest := SortBy(xs[1..], key);
      SortBySorts(xs[1..], key);
      InsertBySorts(xs[0], rest, key);
      InsertByKeeps(xs[0], rest, key);
      assert xs == [xs[0]] + xs[1..];
      forall k: real
        ensures WithKey(SortBy(xs, key), key, k) == WithKey(xs, key, k)
      {
        InsertByIsStable(xs[0], rest, key, k);
        assert ([xs[0]] + rest)[1..] == rest;
      }
    }
  }
}
