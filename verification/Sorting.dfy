/** A stable descending sort by an integer key: what `list.sort(key=..., reverse=True)` does. */
module Sorting {
  import opened Base

  function Insert<T>(x: T, xs: seq<T>, key: T -> int): seq<T> {
    if xs == [] || key(xs[0]) <= key(x) then [x] + xs
    else [xs[0]] + Insert(x, xs[1..], key)
  }

  function SortDescending<T>(xs: seq<T>, key: T -> int): seq<T> {
    if xs == [] then [] else Insert(xs[0], SortDescending(xs[1..], key), key)
  }

  ghost predicate Descending<T>(xs: seq<T>, key: T -> int) {
    forall i, j | 0 <= i < j < |xs| :: key(xs[i]) >= key(xs[j])
  }

  lemma {:induction false} InsertKeepsAll<T>(x: T, xs: seq<T>, key: T -> int)
    ensures multiset(Insert(x, xs, key)) == multiset([x]) + multiset(xs)
    decreases |xs|
  {
    if xs != [] && key(xs[0]) > key(x) {
      InsertKeepsAll(x, xs[1..], key);
      assert xs == [xs[0]] + xs[1..];
    }
  }

  lemma {:induction false} InsertSorts<T>(x: T, xs: seq<T>, key: T -> int)
    requires Descending(xs, key)
    ensures Descending(Insert(x, xs, key), key)
    decreases |xs|
  {
    if xs != [] && key(xs[0]) > key(x) {
      var rest := Insert(x, xs[1..], key);
      InsertSorts(x, xs[1..], key);
      InsertKeepsAll(x, xs[1..], key);
      forall j | 0 <= j < |rest| ensures key(xs[0]) >= key(rest[j]) {
        assert rest[j] in multiset(rest);
        assert rest[j] == x || rest[j] in xs[1..];
      }
    }
  }

  /** The result is a descending permutation. */
  lemma {:induction false} SortDescendingSorts<T>(xs: seq<T>, key: T -> int)
    ensures Descending(SortDescending(xs, key), key)
    ensures multiset(SortDescending(xs, key)) == multiset(xs)
    decreases |xs|
  {
    if xs != [] {
      assert xs == [xs[0]] + xs[1..];
      SortDescendingSorts(xs[1..], key);
      InsertSorts(xs[0], SortDescending(xs[1..], key), key);
      InsertKeepsAll(xs[0], SortDescending(xs[1..], key), key);
    }
  }

  /** Index `i` holds the first of the largest elements. */
  ghost predicate FirstLargest<T>(xs: seq<T>, key: T -> int, i: nat) {
    && i < |xs|
    && (forall j | 0 <= j < |xs| :: key(xs[j]) <= key(xs[i]))
    && (forall j | 0 <= j < i :: key(xs[j]) < key(xs[i]))
  }

  /** The sort is stable, so its head is the first of the largest elements. */
  lemma {:induction false} HeadIsFirstLargest<T>(xs: seq<T>, key: T -> int) returns (i: nat)
    requires xs != []
    ensures FirstLargest(xs, key, i)
    ensures SortDescending(xs, key) != [] && SortDescending(xs, key)[0] == xs[i]
    decreases |xs|
  {
    if |xs| == 1 {
      i := 0;
    } else {
      var k := HeadIsFirstLargest(xs[1..], key);
      assert xs[1..][k] == xs[k + 1];
      forall j | 1 <= j < |xs| ensures key(xs[j]) <= key(xs[k + 1]) {
        assert xs[1..][j - 1] == xs[j];
      }
      if key(xs[k + 1]) <= key(xs[0]) {
        i := 0;
      } else {
        i := k + 1;
        forall j | 0 <= j < i ensures key(xs[j]) < key(xs[i]) {
          if j > 0 { assert xs[1..][j - 1] == xs[j]; }
        }
      }
    }
  }

  function WithKey<T>(xs: seq<T>, key: T -> int, k: int): seq<T> {
    if xs == [] then [] else (if key(xs[0]) == k then [xs[0]] else []) + WithKey(xs[1..], key, k)
  }

  lemma WithKeyOfCons<T>(x: T, xs: seq<T>, key: T -> int, k: int)
    ensures WithKey([x] + xs, key, k) == (if key(x) == k then [x] else []) + WithKey(xs, key, k)
  {
    assert ([x] + xs)[1..] == xs;
  }

  lemma {:induction false} InsertIsStable<T>(x: T, xs: seq<T>, key: T -> int, k: int)
    ensures WithKey(Insert(x, xs, key), key, k) == (if key(x) == k then [x] else []) + WithKey(xs, key, k)
    decreases |xs|
  {
    if xs == [] || key(xs[0]) <= key(x) {
      WithKeyOfCons(x, xs, key, k);
    } else {
      var h, rest := xs[0], Insert(x, xs[1..], key);
      assert xs == [h] + xs[1..] && Insert(x, xs, key) == [h] + rest;
      InsertIsStable(x, xs[1..], key, k);
      WithKeyOfCons(h, xs[1..], key, k);
      WithKeyOfCons(h, rest, key, k);
      hide Insert, WithKey;
    }
  }

  /** Elements with equal keys keep their order. */
  lemma {:induction false} SortIsStable<T>(xs: seq<T>, key: T -> int, k: int)
    ensures WithKey(SortDescending(xs, key), key, k) == WithKey(xs, key, k)
    decreases |xs|
  {
    if xs != [] {
      SortIsStable(xs[1..], key, k);
      InsertIsStable(xs[0], SortDescending(xs[1..], key), key, k);
    }
  }

  lemma InsertLargest<T>(x: T, xs: seq<T>, key: T -> int)
    requires forall j | 0 <= j < |xs| :: key(xs[j]) <= key(x)
    ensures Insert(x, xs, key) == [x] + xs
  {
  }

  lemma SortFromHead<T>(xs: seq<T>, key: T -> int)
    requires FirstLargest(xs, key, 0)
    ensures SortDescending(xs, key) == [xs[0]] + SortDescending(xs[1..], key)
  {
    var sorted := SortDescending(xs[1..], key);
    SortDescendingSorts(xs[1..], key);
    forall j | 0 <= j < |sorted| ensures key(sorted[j]) <= key(xs[0]) {
      assert sorted[j] in multiset(sorted);
      assert sorted[j] in xs[1..];
    }
    InsertLargest(xs[0], sorted, key);
  }

  /** Taking the first of the largest elements away leaves the tail of the sort. */
  lemma {:induction false} SortWithoutHead<T>(xs: seq<T>, key: T -> int, i: nat)
    requires FirstLargest(xs, key, i)
    ensures SortDescending(xs, key) == [xs[i]] + SortDescending(Drop(xs, i), key)
    decreases |xs|
  {
    if i == 0 {
      SortFromHead(xs, key);
      assert Drop(xs, 0) == xs[1..];
    } else {
      var rest := xs[1..];
      forall j | 0 <= j < |rest| ensures rest[j] == xs[j + 1] {}
      assert FirstLargest(rest, key, i - 1);
      SortWithoutHead(rest, key, i - 1);
      assert key(xs[i]) > key(xs[0]);
      assert Drop(xs, i) == [xs[0]] + Drop(rest, i - 1);
    }
  }

  /** The place of a late arrival in a sorted queue: behind everything with the same key. */
  function Arrive<T>(queue: seq<T>, x: T, key: T -> int): seq<T> {
    if queue == [] || key(queue[0]) < key(x) then [x] + queue
    else [queue[0]] + Arrive(queue[1..], x, key)
  }

  lemma {:induction false} InsertArriveCommute<T>(y: T, queue: seq<T>, x: T, key: T -> int)
    requires Descending(queue, key)
    ensures Insert(y, Arrive(queue, x, key), key) == Arrive(Insert(y, queue, key), x, key)
    decreases |queue|
  {
    if queue != [] {
      var h, t := queue[0], queue[1..];
      assert queue == [h] + t;
      InsertArriveCommute(y, t, x, key);
    }
  }

  lemma {:induction false} SortOfArrival<T>(xs: seq<T>, x: T, key: T -> int)
    ensures SortDescending(xs + [x], key) == Arrive(SortDescending(xs, key), x, key)
    decreases |xs|
  {
    if xs != [] {
      assert (xs + [x])[1..] == xs[1..] + [x];
      SortOfArrival(xs[1..], x, key);
      SortDescendingSorts(xs[1..], key);
      InsertArriveCommute(xs[0], SortDescending(xs[1..], key), x, key);
    }
  }
}
