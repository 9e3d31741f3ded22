/** Plain sequences: the filtering every component does with a loop and a list. */
module Lists {
  function Last<T>(xs: seq<T>): T
    requires |xs| >= 1
  {
    xs[|xs| - 1]
  }

  function Filter<T>(keep: T -> bool, xs: seq<T>): (r: seq<T>)
    ensures |r| <= |xs|
  {
    if xs == [] then []
    else Filter(keep, xs[..|xs| - 1]) + (if keep(Last(xs)) then [Last(xs)] else [])
  }

  lemma FilterPush<T>(keep: T -> bool, xs: seq<T>, x: T)
    ensures Filter(keep, xs + [x]) == Filter(keep, xs) + (if keep(x) then [x] else [])
  {
    assert (xs + [x])[..|xs + [x]| - 1] == xs;
  }

  lemma {:induction false} FilterConcat<T>(keep: T -> bool, xs: seq<T>, ys: seq<T>)
    ensures Filter(keep, xs + ys) == Filter(keep, xs) + Filter(keep, ys)
  {
    if ys == [] {
      assert xs + ys == xs;
    } else {
      assert (xs + ys)[..|xs + ys| - 1] == xs + ys[..|ys| - 1];
      FilterConcat(keep, xs, ys[..|ys| - 1]);
    }
  }

  lemma {:induction false} FilterAll<T>(keep: T -> bool, xs: seq<T>)
    requires forall i :: 0 <= i < |xs| ==> keep(xs[i])
    ensures Filter(keep, xs) == xs
  {
    if xs != [] {
      FilterAll(keep, xs[..|xs| - 1]);
      assert xs[..|xs| - 1] + [Last(xs)] == xs;
    }
  }

  lemma {:induction false} FilterNone<T>(keep: T -> bool, xs: seq<T>)
    requires forall i :: 0 <= i < |xs| ==> !keep(xs[i])
    ensures Filter(keep, xs) == []
  {
    if xs != [] { FilterNone(keep, xs[..|xs| - 1]); }
  }

  lemma {:induction false} FilterIn<T>(keep: T -> bool, xs: seq<T>, x: T)
    ensures x in Filter(keep, xs) <==> x in xs && keep(x)
  {
    if xs != [] {
      FilterIn(keep, xs[..|xs| - 1], x);
      assert x in xs <==> x in xs[..|xs| - 1] || x == Last(xs);
    }
  }

  lemma {:induction false} FilterAlike<T>(p: T -> bool, q: T -> bool, xs: seq<T>)
    requires forall i :: 0 <= i < |xs| ==> p(xs[i]) == q(xs[i])
    ensures Filter(p, xs) == Filter(q, xs)
  {
    if xs != [] { FilterAlike(p, q, xs[..|xs| - 1]); }
  }

  /** A relation between any two kept elements, in their order, holds all along the filtered list. */
  lemma {:induction false} FilterPairwise<T(!new)>(keep: T -> bool, before: (T, T) -> bool, xs: seq<T>)
    requires forall i, j :: 0 <= i < j < |xs| && keep(xs[i]) && keep(xs[j]) ==> before(xs[i], xs[j])
    ensures forall i, j :: 0 <= i < j < |Filter(keep, xs)| ==> before(Filter(keep, xs)[i], Filter(keep, xs)[j])
  {
    if xs != [] {
      var front, last := xs[..|xs| - 1], Last(xs);
      FilterPairwise(keep, before, front);
      var r := Filter(keep, front);
      if keep(last) {
        forall i | 0 <= i < |r| ensures before(r[i], last) {
          FilterIn(keep, front, r[i]);
          var k :| 0 <= k < |front| && front[k] == r[i];
        }
      }
    }
  }

  // ---- weights: what fits, newest first ----

  function Total<T>(weight: T -> nat, xs: seq<T>): nat {
    if xs == [] then 0 else Total(weight, xs[..|xs| - 1]) + weight(Last(xs))
  }

  /** The longest run of last elements, in order, that a walk from the end can fit into the room. */
  function Newest<T>(weight: T -> nat, xs: seq<T>, room: int): seq<T> {
    if xs == [] || weight(Last(xs)) > room then []
    else Newest(weight, xs[..|xs| - 1], room - weight(Last(xs))) + [Last(xs)]
  }

  lemma {:induction false} TotalOfConcat<T>(weight: T -> nat, a: seq<T>, b: seq<T>)
    ensures Total(weight, a + b) == Total(weight, a) + Total(weight, b)
  {
    if b == [] {
      assert a + b == a;
    } else {
      assert (a + b)[..|a + b| - 1] == a + b[..|b| - 1];
      TotalOfConcat(weight, a, b[..|b| - 1]);
    }
  }

  lemma NewestTakes<T>(weight: T -> nat, front: seq<T>, x: T, room: int, kept: seq<T>)
    ensures Newest(weight, front + [x], room) + kept
            == if weight(x) > room then kept else Newest(weight, front, room - weight(x)) + ([x] + kept)
  {
    assert (front + [x])[..|front + [x]| - 1] == front;
    if weight(x) <= room {
      var older := Newest(weight, front, room - weight(x));
      assert (older + [x]) + kept == older + ([x] + kept);
    }
  }

  lemma NewestOfNone<T>(weight: T -> nat, room: int, kept: seq<T>)
    ensures Newest(weight, [], room) + kept == kept
  {
  }

  lemma {:induction false} NewestIsSuffix<T>(weight: T -> nat, xs: seq<T>, room: int)
    ensures |Newest(weight, xs, room)| <= |xs|
    ensures Newest(weight, xs, room) == xs[|xs| - |Newest(weight, xs, room)|..]
  {
    if xs != [] && weight(Last(xs)) <= room {
      NewestIsSuffix(weight, xs[..|xs| - 1], room - weight(Last(xs)));
    }
  }

  lemma {:induction false} NewestIn<T>(weight: T -> nat, xs: seq<T>, room: int, x: T)
    requires x in Newest(weight, xs, room)
    ensures x in xs
  {
    if x != Last(xs) { NewestIn(weight, xs[..|xs| - 1], room - weight(Last(xs)), x); }
  }

  lemma {:induction false} NewestFits<T>(weight: T -> nat, xs: seq<T>, room: int)
    ensures Total(weight, Newest(weight, xs, room)) <= if room >= 0 then room else 0
  {
    if xs != [] && weight(Last(xs)) <= room {
      var kept := Newest(weight, xs[..|xs| - 1], room - weight(Last(xs)));
      NewestFits(weight, xs[..|xs| - 1], room - weight(Last(xs)));
      assert (kept + [Last(xs)])[..|kept|] == kept;
    }
  }

  /** No longer run would fit. */
  lemma {:induction false} NewestIsLongest<T>(weight: T -> nat, xs: seq<T>, room: int)
    requires |Newest(weight, xs, room)| < |xs|
    ensures Total(weight, xs[|xs| - |Newest(weight, xs, room)| - 1..]) > room
  {
    var kept, front, last := Newest(weight, xs, room), xs[..|xs| - 1], Last(xs);
    var more := xs[|xs| - |kept| - 1..];
    assert more[..|more| - 1] == front[|xs| - |kept| - 1..] && Last(more) == last;
    if weight(last) <= room { NewestIsLongest(weight, front, room - weight(last)); }
  }

  /** A tail that fits is kept whole. */
  lemma {:induction false} NewestKeepsTail<T>(weight: T -> nat, front: seq<T>, tail: seq<T>, room: int)
    requires Total(weight, tail) <= room
    ensures Newest(weight, front + tail, room) == Newest(weight, front, room - Total(weight, tail)) + tail
  {
    if tail == [] {
      assert front + tail == front;
    } else {
      var t, last := tail[..|tail| - 1], Last(tail);
      assert (front + tail)[..|front + tail| - 1] == front + t;
      NewestKeepsTail(weight, front, t, room - weight(last));
      assert t + [last] == tail;
    }
  }

  // ---- trimming one value off either end ----

  function DropLeading<T(==)>(x: T, xs: seq<T>): seq<T> {
    if xs != [] && xs[0] == x then DropLeading(x, xs[1..]) else xs
  }

  function DropTrailing<T(==)>(x: T, xs: seq<T>): seq<T> {
    if xs != [] && Last(xs) == x then DropTrailing(x, xs[..|xs| - 1]) else xs
  }

  // ---- places ----

  function Range(n: nat): (r: seq<nat>)
    ensures |r| == n && forall i :: 0 <= i < n ==> r[i] == i
  {
    if n == 0 then [] else Range(n - 1) + [n - 1]
  }

  lemma RangeHolds(n: nat, i: nat)
    ensures i in Range(n) <==> i < n
  {
    if i < n { assert Range(n)[i] == i; }
  }
}
