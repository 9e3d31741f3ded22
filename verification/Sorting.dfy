/** The stable descending sort every ranking here uses: equal keys keep their order. */
module Sorting {
  import opened Lists

  /** `x` goes behind everything that is at least as high. */
  function InsertDesc<T>(key: T -> real, x: T, xs: seq<T>): seq<T> {
    if xs == [] || key(Last(xs)) >= key(x) then xs + [x] else InsertDesc(key, x, xs[..|xs| - 1]) + [Last(xs)]
  }

  function StableSort<T>(key: T -> real, xs: seq<T>): seq<T> {
    if xs == [] then [] else InsertDesc(key, Last(xs), StableSort(key, xs[..|xs| - 1]))
  }

  predicate Descending<T>(key: T -> real, xs: seq<T>) {
    forall i, j :: 0 <= i < j < |xs| ==> key(xs[i]) >= key(xs[j])
  }

  lemma {:induction false} InsertPermutes<T>(key: T -> real, x: T, xs: seq<T>)
    ensures multiset(InsertDesc(key, x, xs)) == multiset(xs) + multiset{x}
  {
    if xs != [] && key(Last(xs)) < key(x) {
      InsertPermutes(key, x, xs[..|xs| - 1]);
      assert xs == xs[..|xs| - 1] + [Last(xs)];
    }
  }

  lemma {:induction false} InsertHolds<T>(key: T -> real, x: T, xs: seq<T>, y: T)
    ensures y in InsertDesc(key, x, xs) <==> y in xs || y == x
  {
    if xs != [] && key(Last(xs)) < key(x) {
      InsertHolds(key, x, xs[..|xs| - 1], y);
      assert xs == xs[..|xs| - 1] + [Last(xs)];
    }
  }

  lemma {:induction false} InsertIsSorted<T>(key: T -> real, x: T, xs: seq<T>)
    requires Descending(key, xs)
    ensures Descending(key, InsertDesc(key, x, xs))
  {
    if xs != [] && key(Last(xs)) < key(x) {
      var front := xs[..|xs| - 1];
      InsertIsSorted(key, x, front);
      var r := InsertDesc(key, x, front);
      forall i | 0 <= i < |r| ensures key(r[i]) >= key(Last(xs)) {
        InsertHolds(key, x, front, r[i]);
      }
    }
  }

  /** The sorted list holds the same elements, highest first. */
  lemma {:induction false} SortIsSorted<T>(key: T -> real, xs: seq<T>)
    ensures Descending(key, StableSort(key, xs))
    ensures multiset(StableSort(key, xs)) == multiset(xs)
    ensures |StableSort(key, xs)| == |xs|
  {
    if xs != [] {
      SortIsSorted(key, xs[..|xs| - 1]);
      InsertIsSorted(key, Last(xs), StableSort(key, xs[..|xs| - 1]));
      InsertPermutes(key, Last(xs), StableSort(key, xs[..|xs| - 1]));
      assert xs == xs[..|xs| - 1] + [Last(xs)];
    }
    assert |multiset(StableSort(key, xs))| == |multiset(xs)|;
  }

  lemma SortHolds<T>(key: T -> real, xs: seq<T>, x: T)
    ensures x in StableSort(key, xs) <==> x in xs
  {
    SortIsSorted(key, xs);
    assert x in StableSort(key, xs) <==> x in multiset(StableSort(key, xs));
  }

  lemma {:induction false} InsertIsStable<T>(key: T -> real, x: T, xs: seq<T>, tied: T -> bool, v: real)
    requires forall y :: tied(y) <==> key(y) == v
    ensures Filter(tied, InsertDesc(key, x, xs)) == Filter(tied, xs + [x])
  {
    if xs != [] && key(Last(xs)) < key(x) {
      var front, last := xs[..|xs| - 1], Last(xs);
      assert xs == front + [last];
      InsertIsStable(key, x, front, tied, v);
      FilterPush(tied, InsertDesc(key, x, front), last);
      FilterPush(tied, front, x);
      FilterPush(tied, front, last);
      FilterPush(tied, xs, x);
    }
  }

  /** Elements with one key keep the order they came in. */
  lemma {:induction false} SortIsStable<T(!new)>(key: T -> real, xs: seq<T>, tied: T -> bool, v: real)
    requires forall y :: tied(y) <==> key(y) == v
    ensures Filter(tied, StableSort(key, xs)) == Filter(tied, xs)
  {
    if xs != [] {
      var front := xs[..|xs| - 1];
      SortIsStable(key, front, tied, v);
      InsertIsStable(key, Last(xs), StableSort(key, front), tied, v);
      FilterPush(tied, StableSort(key, front), Last(xs));
    }
  }

  /** Two keys that order these elements alike. */
  predicate SameOrder<T>(a: T -> real, b: T -> real, xs: seq<T>) {
    forall i, j :: 0 <= i < |xs| && 0 <= j < |xs| ==> (a(xs[i]) >= a(xs[j]) <==> b(xs[i]) >= b(xs[j]))
  }

  lemma {:induction false} InsertByOrder<T>(a: T -> real, b: T -> real, x: T, xs: seq<T>)
    requires forall i :: 0 <= i < |xs| ==> (a(xs[i]) >= a(x) <==> b(xs[i]) >= b(x))
    ensures InsertDesc(a, x, xs) == InsertDesc(b, x, xs)
  {
    if xs != [] && a(Last(xs)) < a(x) {
      assert !(b(Last(xs)) >= b(x));
      InsertByOrder(a, b, x, xs[..|xs| - 1]);
    }
  }

  /** Only the order of the keys matters, not their values. */
  lemma {:induction false} SortByOrder<T>(a: T -> real, b: T -> real, xs: seq<T>)
    requires SameOrder(a, b, xs)
    ensures StableSort(a, xs) == StableSort(b, xs)
  {
    if xs != [] {
      var front, r := xs[..|xs| - 1], StableSort(a, xs[..|xs| - 1]);
      SortByOrder(a, b, front);
      forall i | 0 <= i < |r| ensures a(r[i]) >= a(Last(xs)) <==> b(r[i]) >= b(Last(xs)) {
        SortHolds(a, front, r[i]);
        var k :| 0 <= k < |front| && front[k] == r[i];
        assert xs[k] == r[i];
      }
      InsertByOrder(a, b, Last(xs), r);
    }
  }

  /** A strictly higher key stands strictly earlier. */
  lemma HigherIsEarlier<T>(key: T -> real, xs: seq<T>, p: nat, q: nat)
    requires p < |StableSort(key, xs)| && q < |StableSort(key, xs)|
    requires key(StableSort(key, xs)[p]) > key(StableSort(key, xs)[q])
    ensures p < q
  {
    SortIsSorted(key, xs);
  }
}
