/** The cross-encoder rerank of a search, its one cold-start retry, and the fail-closed drop of keyword
    hits it did not score. */
module Reranker {
  import opened Records
  import opened Lists
  import opened Sorting

  // A search result: found by the dense pool, or by the keyword leg alone. `fused` is the fusion score.
  datatype Cand = Cand(id: Id, lexicalOnly: bool, fused: Option<real>, rerankScore: Option<real>)

  // One entry of the reranker's answer; the index is whatever the server sent.
  datatype Item = Item(index: int, score: real)

  // How one HTTP attempt ends; a read timeout is the only failure that may be retried.
  datatype Attempt = Answer(items: seq<Item>) | ReadTimeout | OtherFailure

  datatype Status = SkippedSmallN | SkippedConfident | Ran | OkAfterColdRetry | FailedFallbackDense

  const RERANK_MIN_N := 3
  const COLD_RETRY_TIMEOUT_S := 20.0
  const TOTAL_BUDGET_S := 20.0
  const RETRY_MIN_S := 1.0

  // ---- the order a rerank makes: a result is referred to by its place in the list ----

  datatype Place = Place(at: nat, score: Option<real>)

  const ITEM_SCORE: Item -> real := (it: Item) => it.score

  function InRange(n: nat): Item -> bool { (it: Item) => 0 <= it.index < n }

  function Touches(i: nat): Item -> bool { (it: Item) => it.index == i }

  predicate Touched(items: seq<Item>, i: nat) { exists k :: 0 <= k < |items| && items[k].index == i }

  function Untouched(items: seq<Item>): nat -> bool { (i: nat) => !Touched(items, i) }

  function ScoredPlaces(n: nat, items: seq<Item>): seq<Place> {
    AsPlaces(Filter(InRange(n), StableSort(ITEM_SCORE, items)))
  }

  function AsPlaces(kept: seq<Item>): seq<Place> {
    seq(|kept|, k requires 0 <= k < |kept| => Place(PlaceOf(kept[k]), Some(kept[k].score)))
  }

  function PlaceOf(it: Item): nat { if it.index >= 0 then it.index else 0 }

  function RestPlaces(n: nat, items: seq<Item>): seq<Place> {
    var rest := Filter(Untouched(items), Range(n));
    seq(|rest|, k requires 0 <= k < |rest| => Place(rest[k], None))
  }

  function Places(n: nat, items: seq<Item>): seq<Place> { ScoredPlaces(n, items) + RestPlaces(n, items) }

  function At(results: seq<Cand>, p: Place): Cand
    requires p.at < |results|
  {
    if p.score.Some? then results[p.at].(rerankScore := p.score) else results[p.at]
  }

  /** The answer gave this result this score. */
  predicate Gave(items: seq<Item>, i: nat, score: Option<real>) {
    exists it :: it in items && it.index == i && Some(it.score) == score
  }

  lemma PlaceInRange(n: nat, items: seq<Item>, k: nat)
    requires k < |Places(n, items)|
    ensures Places(n, items)[k].at < n
    ensures k < |ScoredPlaces(n, items)| ==> Places(n, items)[k].score.Some? && Touched(items, Places(n, items)[k].at)
    ensures k < |ScoredPlaces(n, items)| ==> Gave(items, Places(n, items)[k].at, Places(n, items)[k].score)
    ensures k >= |ScoredPlaces(n, items)| ==> Places(n, items)[k].score.None? && !Touched(items, Places(n, items)[k].at)
  {
    var sorted := StableSort(ITEM_SCORE, items);
    var kept, rest := Filter(InRange(n), sorted), Filter(Untouched(items), Range(n));
    if k < |kept| {
      FilterIn(InRange(n), sorted, kept[k]);
      SortHolds(ITEM_SCORE, items, kept[k]);
      assert kept[k] in items && kept[k].index == Places(n, items)[k].at;
    } else {
      FilterIn(Untouched(items), Range(n), rest[k - |kept|]);
      RangeHolds(n, rest[k - |kept|]);
    }
  }

  function Clones(results: seq<Cand>, places: seq<Place>): seq<Cand>
    requires forall k :: 0 <= k < |places| ==> places[k].at < |results|
  {
    seq(|places|, k requires 0 <= k < |places| => At(results, places[k]))
  }

  function Reranked(results: seq<Cand>, items: seq<Item>): seq<Cand> {
    PlacesInRange(|results|, items);
    Clones(results, Places(|results|, items))
  }

  // ---- what it does to the list ----

  function Here(i: nat): Place -> bool { (p: Place) => p.at == i }

  /** How often the result at place `i` stands in the new list. */
  function Copies(n: nat, items: seq<Item>, i: nat): nat { |Filter(Here(i), Places(n, items))| }

  lemma {:induction false} InsertKeepsCount<T>(key: T -> real, p: T -> bool, x: T, xs: seq<T>)
    ensures |Filter(p, InsertDesc(key, x, xs))| == |Filter(p, xs)| + (if p(x) then 1 else 0)
  {
    if xs == [] || key(Last(xs)) >= key(x) {
      FilterPush(p, xs, x);
    } else {
      var front := xs[..|xs| - 1];
      InsertKeepsCount(key, p, x, front);
      FilterPush(p, InsertDesc(key, x, front), Last(xs));
      assert xs == front + [Last(xs)];
      FilterPush(p, front, Last(xs));
    }
  }

  lemma {:induction false} SortKeepsCount<T>(key: T -> real, p: T -> bool, xs: seq<T>)
    ensures |Filter(p, StableSort(key, xs))| == |Filter(p, xs)|
  {
    if xs != [] {
      SortKeepsCount(key, p, xs[..|xs| - 1]);
      InsertKeepsCount(key, p, Last(xs), StableSort(key, xs[..|xs| - 1]));
      assert xs == xs[..|xs| - 1] + [Last(xs)];
      FilterPush(p, xs[..|xs| - 1], Last(xs));
    }
  }

  lemma {:induction false} ScoredCopies(kept: seq<Item>, i: nat)
    requires forall k :: 0 <= k < |kept| ==> kept[k].index >= 0
    ensures |Filter(Here(i), AsPlaces(kept))| == |Filter(Touches(i), kept)|
  {
    if kept != [] {
      var front, last := kept[..|kept| - 1], Last(kept);
      ScoredCopies(front, i);
      assert AsPlaces(kept) == AsPlaces(front) + [Place(PlaceOf(last), Some(last.score))];
      FilterPush(Here(i), AsPlaces(front), Place(PlaceOf(last), Some(last.score)));
    }
  }

  lemma {:induction false} InRangeTouches(n: nat, xs: seq<Item>, i: nat)
    requires i < n
    ensures Filter(Touches(i), Filter(InRange(n), xs)) == Filter(Touches(i), xs)
  {
    if xs != [] {
      var front, last := xs[..|xs| - 1], Last(xs);
      InRangeTouches(n, front, i);
      assert xs == front + [last];
      FilterPush(InRange(n), front, last);
      FilterPush(Touches(i), Filter(InRange(n), front), last);
      FilterPush(Touches(i), front, last);
      if !InRange(n)(last) { assert Filter(InRange(n), xs) == Filter(InRange(n), front); }
    }
  }

  lemma {:induction false} RestCopies(n: nat, m: nat, items: seq<Item>, i: nat)
    requires m <= n
    ensures |Filter(Here(i), RestPlaces(m, items))| == if i < m && !Touched(items, i) then 1 else 0
  {
    hide RestPlaces;
    if m == 0 {
      NoRest(items);
    } else {
      RestCopies(n, m - 1, items, i);
      RestGrows(m - 1, items);
      if !Touched(items, m - 1) { FilterPush(Here(i), RestPlaces(m - 1, items), Place(m - 1, None)); }
    }
  }

  lemma NoRest(items: seq<Item>)
    ensures RestPlaces(0, items) == []
  {
  }

  lemma RestGrows(m: nat, items: seq<Item>)
    ensures RestPlaces(m + 1, items)
            == if Touched(items, m) then RestPlaces(m, items) else RestPlaces(m, items) + [Place(m, None)]
  {
    FilterPush<nat>(Untouched(items), Range(m), m);
    assert Range(m + 1) == Range(m) + [m];
  }

  /** A result stands in the new list as often as the answer names it, and once if it does not. */
  lemma CopiesOfEachResult(n: nat, items: seq<Item>, i: nat)
    requires i < n
    ensures var named := |Filter(Touches(i), items)|;
            Copies(n, items, i) == if named >= 1 then named else 1
  {
    var sorted := StableSort(ITEM_SCORE, items);
    var kept := Filter(InRange(n), sorted);
    FilterConcat(Here(i), ScoredPlaces(n, items), RestPlaces(n, items));
    forall k | 0 <= k < |kept| ensures kept[k].index >= 0 { FilterIn(InRange(n), sorted, kept[k]); }
    ScoredCopies(kept, i);
    InRangeTouches(n, sorted, i);
    SortKeepsCount(ITEM_SCORE, Touches(i), items);
    RestCopies(n, n, items, i);
    TouchedIffNamed(items, i);
  }

  lemma TouchedIffNamed(items: seq<Item>, i: nat)
    ensures Touched(items, i) <==> |Filter(Touches(i), items)| >= 1
  {
    if Touched(items, i) {
      var k :| 0 <= k < |items| && items[k].index == i;
      FilterIn(Touches(i), items, items[k]);
    } else {
      FilterNone(Touches(i), items);
    }
  }

  predicate DistinctInRange(n: nat, items: seq<Item>) {
    forall j, k :: 0 <= j < k < |items| && 0 <= items[j].index < n ==> items[j].index != items[k].index
  }

  lemma {:induction false} NamedOnce(items: seq<Item>, n: nat, i: nat)
    requires i < n && DistinctInRange(n, items)
    ensures |Filter(Touches(i), items)| <= 1
  {
    if items != [] {
      var front := items[..|items| - 1];
      NamedOnce(front, n, i);
      if Last(items).index == i {
        forall k | 0 <= k < |front| ensures !Touches(i)(front[k]) {
          assert 0 <= items[k].index < n ==> items[k].index != Last(items).index;
        }
        FilterNone(Touches(i), front);
      }
    }
  }

  lemma NamedTwice(items: seq<Item>, n: nat, j: nat, k: nat)
    requires j < k < |items| && 0 <= items[j].index < n && items[j].index == items[k].index
    ensures |Filter(Touches(items[j].index), items)| >= 2
  {
    var i := items[j].index;
    var a, b := items[..k], items[k..];
    assert items == a + b;
    FilterConcat(Touches(i), a, b);
    assert a[j] == items[j] && b[0] == items[k];
    FilterIn(Touches(i), a, a[j]);
    FilterIn(Touches(i), b, b[0]);
  }

  /** Every result appears exactly once precisely when no index in range is named twice. */
  lemma EachOnceIffDistinct(n: nat, items: seq<Item>)
    ensures (forall i :: 0 <= i < n ==> Copies(n, items, i) == 1) <==> DistinctInRange(n, items)
  {
    forall i | 0 <= i < n ensures DistinctInRange(n, items) ==> Copies(n, items, i) == 1 {
      CopiesOfEachResult(n, items, i);
      if DistinctInRange(n, items) { NamedOnce(items, n, i); }
    }
    if !DistinctInRange(n, items) {
      var j, k :| 0 <= j < k < |items| && 0 <= items[j].index < n && items[j].index == items[k].index;
      NamedTwice(items, n, j, k);
      CopiesOfEachResult(n, items, items[j].index);
    }
  }

  /** Scored results first, best first; the rest behind them in their old order. */
  lemma ScoredFirstThenOldOrder(n: nat, items: seq<Item>)
    ensures var ps, m := Places(n, items), |ScoredPlaces(n, items)|;
            && (forall j, k :: 0 <= j < k < m ==> ps[j].score.Some? && ps[k].score.Some? && ps[j].score.value >= ps[k].score.value)
            && (forall j, k :: m <= j < k < |ps| ==> ps[j].score.None? && ps[k].score.None? && ps[j].at < ps[k].at)
  {
    var sorted := StableSort(ITEM_SCORE, items);
    SortIsSorted(ITEM_SCORE, items);
    FilterPairwise(InRange(n), (a: Item, b: Item) => a.score >= b.score, sorted);
    FilterPairwise<nat>(Untouched(items), (a: nat, b: nat) => a < b, Range(n));
    var kept, rest := Filter(InRange(n), sorted), Filter<nat>(Untouched(items), Range(n));
    forall j, k | 0 <= j < k < |kept| ensures kept[j].score >= kept[k].score {}
    forall j, k | 0 <= j < k < |rest| ensures rest[j] < rest[k] {}
  }

  // ---- the call ----

  /** None: rerank. The head's fused score is 1.0 only when every leg ranks it first. */
  function SkipReason(results: seq<Cand>, skipIfTop: real): Option<Status> {
    if |results| < RERANK_MIN_N then Some(SkippedSmallN)
    else if results[0].fused.Some? && results[0].fused.value >= skipIfTop then Some(SkippedConfident)
    else None
  }

  /** What is left for a retry after `elapsed` seconds, and whether one is made. */
  function RetryAllowance(elapsed: real): real {
    if COLD_RETRY_TIMEOUT_S < TOTAL_BUDGET_S - elapsed then COLD_RETRY_TIMEOUT_S else TOTAL_BUDGET_S - elapsed
  }

  predicate Retries(first: Attempt, elapsed: real) {
    first.ReadTimeout? && RetryAllowance(elapsed) >= RETRY_MIN_S
  }

  /** A retry is made after a read timeout alone, with exactly what is left of the 20 s, if that is a second. */
  lemma RetryTakesWhatIsLeft(first: Attempt, elapsed: real)
    requires elapsed >= 0.0
    ensures Retries(first, elapsed) <==> first == ReadTimeout && elapsed <= 19.0
    ensures elapsed + RetryAllowance(elapsed) == 20.0
  {
  }

  /** A rerank is skipped for fewer than three results, and when the head's fused score reaches the cut; a cut
      that is higher skips less. */
  lemma SkippedIff(results: seq<Cand>, cut: real)
    ensures SkipReason(results, cut) == Some(SkippedSmallN) <==> |results| <= 2
    ensures SkipReason(results, cut) == Some(SkippedConfident)
            <==> |results| >= 3 && exists score :: results[0].fused == Some(score) && cut <= score
    ensures SkipReason(results, cut) in {None, Some(SkippedSmallN), Some(SkippedConfident)}
    ensures forall higher :: cut <= higher && SkipReason(results, higher).Some? ==> SkipReason(results, cut).Some?
  {
    if |results| >= 3 && results[0].fused.Some? && cut <= results[0].fused.value {
      assert results[0].fused == Some(results[0].fused.value);
    }
  }

  /** The attempt the rerank ends on. */
  function LastAttempt(first: Attempt, elapsed: real, second: Attempt): Attempt {
    if Retries(first, elapsed) then second else first
  }

  class Client {
    var coldRetries: nat
    var okTotal: nat
    var failTotal: nat
    var consecutiveFailures: nat

    constructor ()
      ensures coldRetries == okTotal == failTotal == consecutiveFailures == 0
    {
      coldRetries, okTotal, failTotal, consecutiveFailures := 0, 0, 0, 0;
    }

    /** `waited` is how long the two attempts were allowed to take. */
    method Rerank(results: seq<Cand>, force: bool, skipIfTop: real, first: Attempt, elapsed: real, second: Attempt)
      returns (out: seq<Cand>, status: Status, waited: real)
      modifies this
      ensures SkipReason(results, skipIfTop).Some? && !force ==>
                && out == results && Some(status) == SkipReason(results, skipIfTop) && waited == 0.0
                && okTotal == old(okTotal) && failTotal == old(failTotal)
                && consecutiveFailures == old(consecutiveFailures) && coldRetries == old(coldRetries)
      ensures SkipReason(results, skipIfTop).None? || force ==>
                var last := LastAttempt(first, elapsed, second);
                && out == (if last.Answer? then Reranked(results, last.items) else results)
                && status == (if !last.Answer? then FailedFallbackDense
                              else if Retries(first, elapsed) then OkAfterColdRetry else Ran)
                && okTotal + failTotal == old(okTotal) + old(failTotal) + 1
                && (last.Answer? ==> okTotal == old(okTotal) + 1 && consecutiveFailures == 0)
                && (!last.Answer? ==> failTotal == old(failTotal) + 1 && consecutiveFailures == old(consecutiveFailures) + 1)
                && coldRetries == old(coldRetries) + (if Retries(first, elapsed) then 1 else 0)
                && waited == (if Retries(first, elapsed) then elapsed + RetryAllowance(elapsed) else elapsed)
    {
      var reason := SkipReason(results, skipIfTop);
      waited := 0.0;
      if reason.Some? && !force {
        return results, reason.value, waited;
      }
      waited := elapsed;
      var body := first;
      var retried := false;
      if first.ReadTimeout? {
        var retry := RetryAllowance(elapsed);
        if retry >= RETRY_MIN_S {
          retried := true;
          coldRetries := coldRetries + 1;
          waited := elapsed + retry;
          body := second;
        }
      }
      if !body.Answer? {
        consecutiveFailures := consecutiveFailures + 1;
        failTotal := failTotal + 1;
        return results, FailedFallbackDense, waited;
      }
      out := Reorder(results, body.items);
      consecutiveFailures := 0;
      okTotal := okTotal + 1;
      status := if retried then OkAfterColdRetry else Ran;
    }
  }

  /** The places the answer names, best first; then what it did not touch. */
  method Reorder(results: seq<Cand>, items: seq<Item>) returns (out: seq<Cand>)
    ensures out == Reranked(results, items)
  {
    hide AsPlaces, RestPlaces, Filter, Places, Touched, StableSort;
    var n := |results|;
    var ordered := StableSort(ITEM_SCORE, items);
    var places: seq<Place> := [];
    FirstPlaces(n, ordered);
    for k := 0 to |ordered|
      invariant places == AsPlaces(Filter(InRange(n), ordered[..k]))
    {
      NextPlace(n, ordered, k);
      if 0 <= ordered[k].index < n { places := places + [Place(ordered[k].index, Some(ordered[k].score))]; }
    }
    assert ordered[..|ordered|] == ordered;
    NoRest(items);
    ghost var scored := places;
    for i := 0 to n
      invariant places == scored + RestPlaces(i, items)
    {
      RestGrows(i, items);
      if !Touched(items, i) { places := places + [Place(i, None)]; }
    }
    PlacesInRange(n, items);
    out := Clones(results, places);
  }

  lemma FirstPlaces(n: nat, ordered: seq<Item>)
    ensures AsPlaces(Filter(InRange(n), ordered[..0])) == []
  {
  }

  lemma NextPlace(n: nat, ordered: seq<Item>, k: nat)
    requires k < |ordered|
    ensures var before := AsPlaces(Filter(InRange(n), ordered[..k]));
            AsPlaces(Filter(InRange(n), ordered[..k + 1]))
            == if 0 <= ordered[k].index < n then before + [Place(ordered[k].index, Some(ordered[k].score))] else before
  {
    FilterPush(InRange(n), ordered[..k], ordered[k]);
    assert ordered[..k] + [ordered[k]] == ordered[..k + 1];
  }

  lemma PlacesInRange(n: nat, items: seq<Item>)
    ensures Places(n, items) == AsPlaces(Filter(InRange(n), StableSort(ITEM_SCORE, items))) + RestPlaces(n, items)
    ensures forall k :: 0 <= k < |Places(n, items)| ==> Places(n, items)[k].at < n
  {
    forall k | 0 <= k < |Places(n, items)| ensures Places(n, items)[k].at < n { PlaceInRange(n, items, k); }
  }

  // ---- the keyword leg and the fail-closed drop ----

  /** Keyword hits join behind the dense ones, unless a dense hit already is that record. */
  function Union(dense: seq<Cand>, hits: seq<Cand>): seq<Cand> {
    dense + Filter(NewTo(dense), hits)
  }

  function NewTo(dense: seq<Cand>): Cand -> bool {
    (c: Cand) => forall k :: 0 <= k < |dense| ==> dense[k].id != c.id
  }

  const SCORED_OR_DENSE: Cand -> bool := (c: Cand) => !(c.lexicalOnly && c.rerankScore.None?)

  /** A keyword-only hit earns a rerank score or leaves. */
  function Drop(results: seq<Cand>): seq<Cand> { Filter(SCORED_OR_DENSE, results) }

  predicate FromDense(results: seq<Cand>) {
    forall k :: 0 <= k < |results| ==> !results[k].lexicalOnly && results[k].rerankScore.None?
  }

  predicate FromKeywords(results: seq<Cand>) {
    forall k :: 0 <= k < |results| ==> results[k].lexicalOnly && results[k].rerankScore.None?
  }

  /** The tail of a search: union, the filters that hide retired records, rerank, drop. `last` is the
      attempt the rerank ended on; a rerank is forced when a keyword hit joined. */
  function SearchTail(dense: seq<Cand>, hits: seq<Cand>, visible: Cand -> bool, skipIfTop: real, last: Attempt): seq<Cand> {
    var pool := Filter(visible, Union(dense, hits));
    var force := |Union(dense, hits)| > |dense|;
    if pool == [] || (SkipReason(pool, skipIfTop).Some? && !force) || !last.Answer? then Drop(pool)
    else Drop(Reranked(pool, last.items))
  }

  /** When the reranker fails, the search answers as if the keyword leg had never run. */
  lemma FailureMeansDenseOnly(dense: seq<Cand>, hits: seq<Cand>, visible: Cand -> bool, skipIfTop: real, last: Attempt)
    requires FromDense(dense) && FromKeywords(hits) && !last.Answer?
    ensures SearchTail(dense, hits, visible, skipIfTop, last) == Filter(visible, dense)
    ensures SearchTail(dense, hits, visible, skipIfTop, last) == SearchTail(dense, [], visible, skipIfTop, last)
  {
    forall c | c in Filter(NewTo(dense), hits) ensures c.lexicalOnly && c.rerankScore.None? {
      FilterIn(NewTo(dense), hits, c);
    }
    DenseOnlyDrop(dense, Filter(NewTo(dense), hits), visible);
    DenseOnlyDrop(dense, Filter(NewTo(dense), []), visible);
  }

  lemma DenseOnlyDrop(dense: seq<Cand>, lex: seq<Cand>, visible: Cand -> bool)
    requires FromDense(dense) && forall c :: c in lex ==> c.lexicalOnly && c.rerankScore.None?
    ensures Drop(Filter(visible, dense + lex)) == Filter(visible, dense)
  {
    var a, b := Filter(visible, dense), Filter(visible, lex);
    FilterConcat(visible, dense, lex);
    FilterConcat(SCORED_OR_DENSE, a, b);
    forall k | 0 <= k < |a| ensures SCORED_OR_DENSE(a[k]) { FilterIn(visible, dense, a[k]); }
    FilterAll(SCORED_OR_DENSE, a);
    forall k | 0 <= k < |b| ensures !SCORED_OR_DENSE(b[k]) { FilterIn(visible, lex, b[k]); }
    FilterNone(SCORED_OR_DENSE, b);
  }

  /** The hit is still there, unchanged but for its rerank score. */
  predicate Survives(results: seq<Cand>, c: Cand) { exists k :: 0 <= k < |results| && results[k].(rerankScore := None) == c }

  /** Whatever the reranker answers, every visible dense hit survives the drop and every keyword-only hit
      that is left carries a score. */
  lemma DropIsFailClosed(dense: seq<Cand>, hits: seq<Cand>, visible: Cand -> bool, skipIfTop: real, last: Attempt, c: Cand)
    requires FromDense(dense) && FromKeywords(hits)
    ensures c in SearchTail(dense, hits, visible, skipIfTop, last) ==> !c.lexicalOnly || c.rerankScore.Some?
    ensures c in dense && visible(c) ==> Survives(SearchTail(dense, hits, visible, skipIfTop, last), c)
  {
    var pool := Filter(visible, Union(dense, hits));
    var out := SearchTail(dense, hits, visible, skipIfTop, last);
    FilterIn(SCORED_OR_DENSE, pool, c);
    if last.Answer? { FilterIn(SCORED_OR_DENSE, Reranked(pool, last.items), c); }
    if c in dense && visible(c) {
      FilterIn(visible, Union(dense, hits), c);
      assert c in pool;
      if last.Answer? {
        var k :| 0 <= k < |pool| && pool[k] == c;
        var x := DenseStays(pool, last.items, k);
        FilterIn(SCORED_OR_DENSE, Reranked(pool, last.items), x);
        assert out == Drop(Reranked(pool, last.items)) ==> x in out;
      }
      assert c in Drop(pool);
    }
  }

  lemma DenseStays(pool: seq<Cand>, items: seq<Item>, k: nat) returns (x: Cand)
    requires k < |pool| && !pool[k].lexicalOnly && pool[k].rerankScore.None?
    ensures x in Reranked(pool, items) && x.(rerankScore := None) == pool[k]
  {
    var places := Places(|pool|, items);
    CopiesOfEachResult(|pool|, items, k);
    var p := Filter(Here(k), places)[0];
    FilterIn(Here(k), places, p);
    var j :| 0 <= j < |places| && places[j] == p;
    x := Reranked(pool, items)[j];
  }

  /** A keyword hit joins exactly if no dense hit is that record; the dense hits stay in front. */
  lemma UnionHolds(dense: seq<Cand>, hits: seq<Cand>, c: Cand)
    ensures c in Union(dense, hits)
            <==> c in dense || (c in hits && forall d :: d in dense ==> d.id != c.id)
    ensures dense <= Union(dense, hits)
  {
    FilterIn(NewTo(dense), hits, c);
    if c in hits && forall d :: d in dense ==> d.id != c.id {
      forall k | 0 <= k < |dense| ensures dense[k].id != c.id { assert dense[k] in dense; }
    }
  }

  /** A keyword hit that joined, is visible and is named by the answer is in the result with a score the answer gave it, however
      confident or short the list is. */
  lemma NamedKeywordHitStays(dense: seq<Cand>, hits: seq<Cand>, visible: Cand -> bool, skipIfTop: real, last: Attempt,
                             k: nat) returns (x: Cand)
    requires FromDense(dense) && FromKeywords(hits) && last.Answer?
    requires var pool := Filter(visible, Union(dense, hits)); k < |pool| && pool[k].lexicalOnly && Touched(last.items, k)
    ensures x in SearchTail(dense, hits, visible, skipIfTop, last)
    ensures Gave(last.items, k, x.rerankScore) && x.(rerankScore := None) == Filter(visible, Union(dense, hits))[k]
  {
    var pool := Filter(visible, Union(dense, hits));
    FilterIn(visible, Union(dense, hits), pool[k]);
    assert pool[k] !in dense;
    FilterIn(NewTo(dense), hits, pool[k]);
    assert |Union(dense, hits)| > |dense|;
    x := NamedIsScored(pool, last.items, k);
    FilterIn(SCORED_OR_DENSE, Reranked(pool, last.items), x);
  }

  lemma NamedIsScored(pool: seq<Cand>, items: seq<Item>, k: nat) returns (x: Cand)
    requires k < |pool| && pool[k].rerankScore.None? && Touched(items, k)
    ensures x in Reranked(pool, items) && Gave(items, k, x.rerankScore) && x.(rerankScore := None) == pool[k]
  {
    var places := Places(|pool|, items);
    CopiesOfEachResult(|pool|, items, k);
    var p := Filter(Here(k), places)[0];
    FilterIn(Here(k), places, p);
    var j :| 0 <= j < |places| && places[j] == p;
    PlaceInRange(|pool|, items, j);
    x := Reranked(pool, items)[j];
  }
}
