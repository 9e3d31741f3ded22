/** Rank fusion of the dense candidate pool: reciprocal ranks on three legs, over the reals. */
module Fusion {
  import opened Records
  import opened Lists
  import opened Sorting

  // One dense result; a result without an id is skipped, one without a score counts as 0.
  datatype Hit = Hit(id: Option<Id>, cosine: real)

  datatype Weights = Weights(k: real, bm25: real, entity: real)

  // What is recorded of one candidate, and what is returned for it.
  datatype Leg = Leg(cosine: real, dense: nat, bm25: Option<nat>, entity: Option<nat>, score: real)
  datatype Scored = Scored(id: Id, score: real)

  predicate WeightsOk(w: Weights) { w.k > 0.0 && w.bm25 >= 0.0 && w.entity >= 0.0 }

  function Value(m: map<Id, real>, id: Id): real { if id in m then m[id] else 0.0 }

  // ---- ranks ----

  /** The last position of the id, counted from 1: what a dictionary filled in order holds. */
  function Rank(order: seq<Id>, id: Id): (r: Option<nat>)
    ensures r.Some? <==> id in order
    ensures r.Some? ==> 1 <= r.value <= |order| && order[r.value - 1] == id
  {
    if order == [] then None
    else if Last(order) == id then Some(|order|)
    else
      assert order == order[..|order| - 1] + [Last(order)];
      Rank(order[..|order| - 1], id)
  }

  /** The keys of such a dictionary, each at its first position. */
  function Keys(order: seq<Id>): seq<Id> {
    if order == [] then []
    else
      var front := Keys(order[..|order| - 1]);
      if Last(order) in front then front else front + [Last(order)]
  }

  function Positive(m: map<Id, real>): Id -> bool { (id: Id) => Value(m, id) > 0.0 }

  function ValueKey(m: map<Id, real>): Id -> real { (id: Id) => Value(m, id) }

  /** The ids with a positive value, highest first, ties in pool order. */
  function PositiveOrder(ids: seq<Id>, m: map<Id, real>): seq<Id> {
    StableSort(ValueKey(m), Filter(Positive(m), ids))
  }

  // ---- the pool: a hit is referred to by its place in the results ----

  function Passing(hits: seq<Hit>, threshold: real): nat -> bool {
    (i: nat) => i < |hits| && hits[i].id.Some? && hits[i].cosine >= threshold
  }

  function CosineKey(hits: seq<Hit>): nat -> real { (i: nat) => if i < |hits| then hits[i].cosine else 0.0 }

  function IdOf(hits: seq<Hit>, i: nat): Id { if i < |hits| && hits[i].id.Some? then hits[i].id.value else 0 }

  function Pool(hits: seq<Hit>, threshold: real): seq<nat> {
    StableSort(CosineKey(hits), Filter(Passing(hits, threshold), Range(|hits|)))
  }

  function Ids(hits: seq<Hit>, pool: seq<nat>): seq<Id> {
    seq(|pool|, n requires 0 <= n < |pool| => IdOf(hits, pool[n]))
  }

  // ---- the score ----

  function Term(weight: real, k: real, rank: Option<nat>): real
    requires k > 0.0
  {
    if rank.Some? then weight / (k + rank.value as real) else 0.0
  }

  function Raw(w: Weights, dense: Option<nat>, bm25: Option<nat>, entity: Option<nat>): real
    requires w.k > 0.0
  {
    Term(1.0, w.k, dense) + Term(w.bm25, w.k, bm25) + Term(w.entity, w.k, entity)
  }

  function Norm(w: Weights): real
    requires w.k > 0.0
  {
    (1.0 + w.bm25 + w.entity) / (w.k + 1.0)
  }

  lemma NormPositive(w: Weights)
    requires WeightsOk(w)
    ensures Norm(w) > 0.0
  {
    assert (1.0 + w.bm25 + w.entity) / (w.k + 1.0) > 0.0;
  }

  function Score(w: Weights, dense: Option<nat>, bm25: Option<nat>, entity: Option<nat>): real
    requires WeightsOk(w)
  {
    NormPositive(w);
    var r := Raw(w, dense, bm25, entity) / Norm(w);
    if r < 1.0 then r else 1.0
  }

  function ScoreIn(w: Weights, mids: seq<Id>, bm25: map<Id, real>, entity: map<Id, real>, id: Id): real
    requires WeightsOk(w)
  {
    Score(w, Rank(mids, id), Rank(PositiveOrder(Keys(mids), bm25), id), Rank(PositiveOrder(Keys(mids), entity), id))
  }

  const BY_SCORE: Scored -> real := (x: Scored) => x.score

  function ScoredPool(w: Weights, mids: seq<Id>, bm25: map<Id, real>, entity: map<Id, real>): seq<Scored>
    requires WeightsOk(w)
  {
    seq(|mids|, n requires 0 <= n < |mids| => Scored(mids[n], ScoreIn(w, mids, bm25, entity, mids[n])))
  }

  function Ranking(w: Weights, hits: seq<Hit>, bm25: map<Id, real>, entity: map<Id, real>, threshold: real): seq<Scored>
    requires WeightsOk(w)
  {
    StableSort(BY_SCORE, ScoredPool(w, Ids(hits, Pool(hits, threshold)), bm25, entity))
  }

  function Top<T>(xs: seq<T>, n: nat): seq<T> { if |xs| <= n then xs else xs[..n] }

  lemma TopIsPrefix<T>(xs: seq<T>, n: nat)
    ensures Top(xs, n) <= xs && |Top(xs, n)| == (if n < |xs| then n else |xs|)
  {
  }

  // ---- the code: loops and in-place sorts, with the legs left behind for the request ----

  method RankPositive(ids: seq<Id>, values: map<Id, real>) returns (order: seq<Id>)
    ensures order == PositiveOrder(ids, values)
  {
    order := [];
    for i := 0 to |ids|
      invariant order == Filter(Positive(values), ids[..i])
    {
      FilterPush(Positive(values), ids[..i], ids[i]);
      assert ids[..i] + [ids[i]] == ids[..i + 1];
      if Value(values, ids[i]) > 0.0 { order := order + [ids[i]]; }
    }
    assert ids[..|ids|] == ids;
    order := StableSort(ValueKey(values), order);
  }

  /** The raw-cosine gate, before any fusion. */
  method BuildPool(hits: seq<Hit>, threshold: real) returns (pool: seq<nat>)
    ensures pool == Pool(hits, threshold)
  {
    pool := [];
    for i := 0 to |hits|
      invariant pool == Filter<nat>(Passing(hits, threshold), Range(i))
    {
      FilterPush<nat>(Passing(hits, threshold), Range(i), i);
      if hits[i].id.Some? && hits[i].cosine >= threshold { pool := pool + [i]; }
    }
    pool := StableSort(CosineKey(hits), pool);
  }

  // The defaults of rrf's own parameters, fixed when the module is loaded.
  const DEFAULT_WEIGHTS := Weights(1.0, 0.5, 0.25)
  const DEFAULT_THRESHOLD := 0.1

  class Fuser {
    var configured: Weights
    var lastLegs: map<Id, Leg>

    constructor ()
      ensures configured == DEFAULT_WEIGHTS && lastLegs == map[]
    {
      configured, lastLegs := DEFAULT_WEIGHTS, map[];
    }

    /** Sets the constants of the embedding space; out of range they are refused. */
    method Configure(w: Weights) returns (ok: bool)
      modifies this`configured
      ensures ok <==> WeightsOk(w)
      ensures configured == if ok then w else old(configured)
    {
      ok := w.k > 0.0 && w.bm25 >= 0.0 && w.entity >= 0.0;
      if ok { configured := w; }
    }

    /** What mem0's search calls. It passes no weights on, so the ranking is made with the defaults rrf was
        defined with, whatever has been configured since. */
    method ScoreAndRank(hits: seq<Hit>, bm25: map<Id, real>, entity: map<Id, real>, threshold: Option<real>, topK: nat)
      returns (result: seq<Scored>)
      modifies this`lastLegs
      ensures result == Top(Ranking(Weights(1.0, 0.5, 0.25), hits, bm25, entity, if threshold.Some? then threshold.value else 0.1), topK)
    {
      result := Rrf(DEFAULT_WEIGHTS, hits, bm25, entity,
                    if threshold.Some? then threshold.value else DEFAULT_THRESHOLD, topK);
    }

    method Rrf(w: Weights, hits: seq<Hit>, bm25: map<Id, real>, entity: map<Id, real>, threshold: real, topK: nat)
      returns (result: seq<Scored>)
      requires WeightsOk(w)
      modifies this`lastLegs
      ensures result == Top(Ranking(w, hits, bm25, entity, threshold), topK)
      ensures LegsOk(w, hits, bm25, entity, threshold, Ids(hits, Pool(hits, threshold)), lastLegs)
    {
      hide Pool, ScoreIn, LegsOk, StableSort, Score, Keys, PositiveOrder;
      var pool := BuildPool(hits, threshold);
      var mids := Ids(hits, pool);
      var order1 := RankPositive(Keys(mids), bm25);
      var order2 := RankPositive(Keys(mids), entity);
      var legs: map<Id, Leg> := map[];
      NoLegs(w, hits, bm25, entity, threshold, mids[..0]);
      var scored: seq<Scored> := [];
      for n := 0 to |pool|
        invariant scored == ScoredPool(w, mids, bm25, entity)[..n]
        invariant LegsOk(w, hits, bm25, entity, threshold, mids[..n], legs)
      {
        var id := mids[n];
        var r0, r1, r2 := Rank(mids, id), Rank(order1, id), Rank(order2, id);
        var score := Score(w, r0, r1, r2);
        ScoreInPool(w, mids, bm25, entity, id);
        PoolPasses(hits, threshold, pool[n]);
        var leg := Leg(hits[pool[n]].cosine, r0.value, r1, r2, score);
        LegAdded(w, hits, bm25, entity, threshold, n, legs, leg);
        legs := legs[id := leg];
        scored := scored + [Scored(id, score)];
      }
      assert mids[..|mids|] == mids;
      assert scored == ScoredPool(w, mids, bm25, entity);
      scored := StableSort(BY_SCORE, scored);
      lastLegs := legs;
      result := Top(scored, topK);
    }
  }

  /** One leg per id met so far: a cosine that passed the threshold, and the score the id was given. */
  ghost predicate LegsOk(w: Weights, hits: seq<Hit>, bm25: map<Id, real>, entity: map<Id, real>, threshold: real,
                         met: seq<Id>, legs: map<Id, Leg>)
    requires WeightsOk(w)
  {
    && (forall id :: id in legs <==> id in met)
    && (forall id :: id in legs ==>
          && legs[id].cosine >= threshold
          && Hit(Some(id), legs[id].cosine) in hits
          && legs[id].score == ScoreIn(w, Ids(hits, Pool(hits, threshold)), bm25, entity, id)
          && RanksOf(legs[id], Ids(hits, Pool(hits, threshold)), bm25, entity, id))
  }

  /** The ranks the score was made of: the place in the pool, and in the order of each leg that knows the id. */
  predicate RanksOf(leg: Leg, mids: seq<Id>, bm25: map<Id, real>, entity: map<Id, real>, id: Id) {
    && Rank(mids, id) == Some(leg.dense)
    && leg.bm25 == Rank(PositiveOrder(Keys(mids), bm25), id)
    && leg.entity == Rank(PositiveOrder(Keys(mids), entity), id)
  }

  lemma NoLegs(w: Weights, hits: seq<Hit>, bm25: map<Id, real>, entity: map<Id, real>, threshold: real, met: seq<Id>)
    requires WeightsOk(w) && met == []
    ensures LegsOk(w, hits, bm25, entity, threshold, met, map[])
  {
  }

  lemma ScoreInPool(w: Weights, mids: seq<Id>, bm25: map<Id, real>, entity: map<Id, real>, id: Id)
    requires WeightsOk(w)
    ensures ScoreIn(w, mids, bm25, entity, id)
            == Score(w, Rank(mids, id), Rank(PositiveOrder(Keys(mids), bm25), id), Rank(PositiveOrder(Keys(mids), entity), id))
  {
  }

  lemma LegAdded(w: Weights, hits: seq<Hit>, bm25: map<Id, real>, entity: map<Id, real>, threshold: real,
                 n: nat, legs: map<Id, Leg>, leg: Leg)
    requires WeightsOk(w) && n < |Pool(hits, threshold)|
    requires var mids := Ids(hits, Pool(hits, threshold));
             && LegsOk(w, hits, bm25, entity, threshold, mids[..n], legs)
             && leg.cosine == CosineKey(hits)(Pool(hits, threshold)[n])
             && leg.score == ScoreIn(w, mids, bm25, entity, mids[n])
             && RanksOf(leg, mids, bm25, entity, mids[n])
    ensures var mids := Ids(hits, Pool(hits, threshold));
            LegsOk(w, hits, bm25, entity, threshold, mids[..n + 1], legs[mids[n] := leg])
  {
    hide ScoreIn, RanksOf;
    var pool, mids := Pool(hits, threshold), Ids(hits, Pool(hits, threshold));
    PoolPasses(hits, threshold, pool[n]);
    assert hits[pool[n]] == Hit(Some(mids[n]), leg.cosine);
    assert mids[..n + 1] == mids[..n] + [mids[n]];
  }

  lemma PoolPasses(hits: seq<Hit>, threshold: real, i: nat)
    requires i in Pool(hits, threshold)
    ensures Passing(hits, threshold)(i)
  {
    SortHolds(CosineKey(hits), Filter(Passing(hits, threshold), Range(|hits|)), i);
    FilterIn(Passing(hits, threshold), Range(|hits|), i);
  }

  // ---- every score is in (0, 1] ----

  lemma TermBounds(weight: real, k: real, rank: Option<nat>)
    requires k > 0.0 && weight >= 0.0 && (rank.Some? ==> rank.value >= 1)
    ensures 0.0 <= Term(weight, k, rank) <= weight / (k + 1.0)
    ensures weight > 0.0 && rank.Some? ==> Term(weight, k, rank) > 0.0
  {
    if rank.Some? {
      DivideMore(weight, k + 1.0, k + rank.value as real);
    }
  }

  lemma DivideMore(a: real, b: real, c: real)
    requires a >= 0.0 && 0.0 < b <= c
    ensures 0.0 <= a / c <= a / b
    ensures a > 0.0 ==> a / c > 0.0
    ensures a > 0.0 && b < c ==> a / c < a / b
  {
    assert a / b - a / c == a * (c - b) / (b * c) by {
      assert a / b == a * c / (b * c);
      assert a / c == a * b / (b * c);
    }
    assert b * c > 0.0;
    if b < c { assert a * (c - b) >= 0.0; }
  }

  lemma RawAtMostNorm(w: Weights, dense: nat, bm25: Option<nat>, entity: Option<nat>)
    requires WeightsOk(w) && dense >= 1 && (bm25.Some? ==> bm25.value >= 1) && (entity.Some? ==> entity.value >= 1)
    ensures 0.0 < Raw(w, Some(dense), bm25, entity) <= Norm(w)
  {
    TermBounds(1.0, w.k, Some(dense));
    TermBounds(w.bm25, w.k, bm25);
    TermBounds(w.entity, w.k, entity);
    SumOfQuotients(1.0, w.bm25, w.entity, w.k + 1.0);
  }

  lemma SumOfQuotients(a: real, b: real, c: real, d: real)
    requires d > 0.0
    ensures a / d + b / d + c / d == (a + b + c) / d
  {
  }

  /** A candidate of the pool scores above 0 and at most 1, and the cap at 1 never cuts anything off. */
  lemma ScoreIsInUnit(w: Weights, dense: nat, bm25: Option<nat>, entity: Option<nat>)
    requires WeightsOk(w) && dense >= 1 && (bm25.Some? ==> bm25.value >= 1) && (entity.Some? ==> entity.value >= 1)
    ensures 0.0 < Score(w, Some(dense), bm25, entity) <= 1.0
    ensures Score(w, Some(dense), bm25, entity) == Raw(w, Some(dense), bm25, entity) / Norm(w)
  {
    hide Raw, Norm;
    NormPositive(w);
    RawAtMostNorm(w, dense, bm25, entity);
    QuotientInUnit(Raw(w, Some(dense), bm25, entity), Norm(w));
  }

  lemma QuotientInUnit(a: real, b: real)
    requires 0.0 < a <= b
    ensures 0.0 < a / b <= 1.0
  {
  }

  // ---- ahead on every leg is ahead ----

  /** A leg cannot put `b` before `a`: b has no rank on it, or both have one and a's is better. */
  predicate LegAhead(a: Option<nat>, b: Option<nat>) { b.Some? ==> a.Some? && a.value < b.value }

  lemma TermAhead(weight: real, k: real, a: Option<nat>, b: Option<nat>)
    requires k > 0.0 && weight >= 0.0 && LegAhead(a, b) && (a.Some? ==> a.value >= 1)
    ensures Term(weight, k, a) >= Term(weight, k, b)
    ensures weight > 0.0 && b.Some? ==> Term(weight, k, a) > Term(weight, k, b)
  {
    TermBounds(weight, k, a);
    if b.Some? { DivideMore(weight, k + a.value as real, k + b.value as real); }
  }

  lemma ScoreAhead(w: Weights, a0: nat, a1: Option<nat>, a2: Option<nat>, b0: nat, b1: Option<nat>, b2: Option<nat>)
    requires WeightsOk(w) && 1 <= a0 < b0 && LegAhead(a1, b1) && LegAhead(a2, b2)
    requires (a1.Some? ==> a1.value >= 1) && (a2.Some? ==> a2.value >= 1)
    requires (b1.Some? ==> b1.value >= 1) && (b2.Some? ==> b2.value >= 1)
    ensures Score(w, Some(a0), a1, a2) > Score(w, Some(b0), b1, b2)
  {
    NormPositive(w);
    TermAhead(1.0, w.k, Some(a0), Some(b0));
    TermAhead(w.bm25, w.k, a1, b1);
    TermAhead(w.entity, w.k, a2, b2);
    ScoreIsInUnit(w, a0, a1, a2);
    ScoreIsInUnit(w, b0, b1, b2);
    DivideKeepsOrder(Raw(w, Some(b0), b1, b2), Raw(w, Some(a0), a1, a2), Norm(w));
  }

  lemma DivideKeepsOrder(a: real, b: real, c: real)
    requires a < b && c > 0.0
    ensures a / c < b / c
  {
  }

  predicate DistinctIds(hits: seq<Hit>) {
    forall i, j :: 0 <= i < j < |hits| && hits[i].id.Some? ==> hits[i].id != hits[j].id
  }

  /** A leg's order puts a strictly higher value first. */
  lemma LegFollowsValues(ids: seq<Id>, m: map<Id, real>, a: Id, b: Id)
    requires a in ids && (Value(m, b) > 0.0 ==> Value(m, a) > Value(m, b))
    ensures LegAhead(Rank(PositiveOrder(ids, m), a), Rank(PositiveOrder(ids, m), b))
  {
    var order := PositiveOrder(ids, m);
    var rb := Rank(order, b);
    if rb.Some? {
      SortHolds(ValueKey(m), Filter(Positive(m), ids), b);
      FilterIn(Positive(m), ids, b);
      SortHolds(ValueKey(m), Filter(Positive(m), ids), a);
      FilterIn(Positive(m), ids, a);
      HigherIsEarlier(ValueKey(m), Filter(Positive(m), ids), Rank(order, a).value - 1, rb.value - 1);
    }
  }

  lemma {:induction false} KeysHold(order: seq<Id>, id: Id)
    ensures id in Keys(order) <==> id in order
  {
    if order != [] {
      KeysHold(order[..|order| - 1], id);
      KeysHold(order[..|order| - 1], Last(order));
      assert order == order[..|order| - 1] + [Last(order)];
    }
  }

  /** The dense rank follows the cosine. */
  lemma DenseFollowsCosine(hits: seq<Hit>, threshold: real, i: nat, j: nat)
    requires DistinctIds(hits) && Passing(hits, threshold)(i) && Passing(hits, threshold)(j)
    requires hits[i].cosine > hits[j].cosine
    ensures var mids := Ids(hits, Pool(hits, threshold));
            && Rank(mids, IdOf(hits, i)).Some? && Rank(mids, IdOf(hits, j)).Some?
            && Rank(mids, IdOf(hits, i)).value < Rank(mids, IdOf(hits, j)).value
  {
    var pool := Pool(hits, threshold);
    var p := PoolPlace(hits, threshold, i);
    var q := PoolPlace(hits, threshold, j);
    HigherIsEarlier(CosineKey(hits), Filter(Passing(hits, threshold), Range(|hits|)), p, q);
  }

  lemma PoolPlace(hits: seq<Hit>, threshold: real, i: nat) returns (p: nat)
    requires DistinctIds(hits) && Passing(hits, threshold)(i)
    ensures var pool := Pool(hits, threshold);
            && p < |pool| && pool[p] == i
            && Rank(Ids(hits, pool), IdOf(hits, i)) == Some(p + 1)
  {
    var pool := Pool(hits, threshold);
    RangeHolds(|hits|, i);
    FilterIn(Passing(hits, threshold), Range(|hits|), i);
    SortHolds(CosineKey(hits), Filter(Passing(hits, threshold), Range(|hits|)), i);
    var n :| 0 <= n < |pool| && pool[n] == i;
    assert Ids(hits, pool)[n] == IdOf(hits, i);
    p := Rank(Ids(hits, pool), IdOf(hits, i)).value - 1;
    PoolPasses(hits, threshold, pool[p]);
    assert IdOf(hits, pool[p]) == IdOf(hits, i);
  }

  /** A candidate with the higher cosine that is not behind on the keyword or the entity leg scores
      strictly higher. */
  lemma AheadScoresHigher(w: Weights, hits: seq<Hit>, bm25: map<Id, real>, entity: map<Id, real>, threshold: real,
                          i: nat, j: nat)
    requires WeightsOk(w) && DistinctIds(hits) && Passing(hits, threshold)(i) && Passing(hits, threshold)(j)
    requires hits[i].cosine > hits[j].cosine
    requires var a, b := IdOf(hits, i), IdOf(hits, j);
             && (Value(bm25, b) > 0.0 ==> Value(bm25, a) > Value(bm25, b))
             && (Value(entity, b) > 0.0 ==> Value(entity, a) > Value(entity, b))
    ensures var mids := Ids(hits, Pool(hits, threshold));
            ScoreIn(w, mids, bm25, entity, IdOf(hits, i)) > ScoreIn(w, mids, bm25, entity, IdOf(hits, j))
  {
    var mids := Ids(hits, Pool(hits, threshold));
    var a, b := IdOf(hits, i), IdOf(hits, j);
    DenseFollowsCosine(hits, threshold, i, j);
    KeysHold(mids, a);
    LegFollowsValues(Keys(mids), bm25, a, b);
    LegFollowsValues(Keys(mids), entity, a, b);
    var bm, en := PositiveOrder(Keys(mids), bm25), PositiveOrder(Keys(mids), entity);
    ScoreAhead(w, Rank(mids, a).value, Rank(bm, a), Rank(en, a), Rank(mids, b).value, Rank(bm, b), Rank(en, b));
  }

  /** ... and so it stands strictly ahead in every result that shows them both, and no cut to the top keeps
      the other without it. */
  lemma AheadRanksHigher(w: Weights, hits: seq<Hit>, bm25: map<Id, real>, entity: map<Id, real>, threshold: real,
                         topK: nat, i: nat, j: nat, q: nat)
    requires WeightsOk(w) && DistinctIds(hits) && Passing(hits, threshold)(i) && Passing(hits, threshold)(j)
    requires hits[i].cosine > hits[j].cosine
    requires var a, b := IdOf(hits, i), IdOf(hits, j);
             && (Value(bm25, b) > 0.0 ==> Value(bm25, a) > Value(bm25, b))
             && (Value(entity, b) > 0.0 ==> Value(entity, a) > Value(entity, b))
    requires var r := Top(Ranking(w, hits, bm25, entity, threshold), topK);
             q < |r| && r[q].id == IdOf(hits, j)
    ensures var r := Top(Ranking(w, hits, bm25, entity, threshold), topK);
            exists p :: 0 <= p < q && r[p].id == IdOf(hits, i)
  {
    hide ScoreIn, Passing, StableSort;
    var mids := Ids(hits, Pool(hits, threshold));
    AheadScoresHigher(w, hits, bm25, entity, threshold, i, j);
    var n := PoolPlace(hits, threshold, i);
    var scored := ScoredPool(w, mids, bm25, entity);
    assert scored[n].id == IdOf(hits, i);
    RankingScores(w, hits, bm25, entity, threshold, q);
    HigherIsKept(scored, topK, n, q);
  }

  /** A cut to the top keeps every entry with a higher score than one it keeps, further up. */
  lemma HigherIsKept(scored: seq<Scored>, topK: nat, n: nat, q: nat)
    requires n < |scored| && q < |Top(StableSort(BY_SCORE, scored), topK)|
    requires scored[n].score > Top(StableSort(BY_SCORE, scored), topK)[q].score
    ensures exists p :: 0 <= p < q && Top(StableSort(BY_SCORE, scored), topK)[p] == scored[n]
  {
    var full := StableSort(BY_SCORE, scored);
    SortHolds(BY_SCORE, scored, scored[n]);
    var p :| 0 <= p < |full| && full[p] == scored[n];
    HigherIsEarlier(BY_SCORE, scored, p, q);
  }

  lemma RankingScores(w: Weights, hits: seq<Hit>, bm25: map<Id, real>, entity: map<Id, real>, threshold: real, q: nat)
    requires WeightsOk(w) && q < |Ranking(w, hits, bm25, entity, threshold)|
    ensures var x := Ranking(w, hits, bm25, entity, threshold)[q];
            x.score == ScoreIn(w, Ids(hits, Pool(hits, threshold)), bm25, entity, x.id)
  {
    var scored := ScoredPool(w, Ids(hits, Pool(hits, threshold)), bm25, entity);
    SortHolds(BY_SCORE, scored, Ranking(w, hits, bm25, entity, threshold)[q]);
  }

  // ---- only ranks matter ----

  /** Other scores for the same hits: the same ids pass, and the passing cosines are ordered alike. */
  predicate SameCosineOrder(a: seq<Hit>, b: seq<Hit>, ta: real, tb: real) {
    && |a| == |b|
    && (forall i :: 0 <= i < |a| ==> a[i].id == b[i].id)
    && (forall i :: 0 <= i < |a| ==> Passing(a, ta)(i) == Passing(b, tb)(i))
    && (forall i, j :: 0 <= i < |a| && 0 <= j < |a| && Passing(a, ta)(i) && Passing(a, ta)(j) ==>
          (a[i].cosine >= a[j].cosine <==> b[i].cosine >= b[j].cosine))
  }

  /** Other values of one leg: the same ids are positive, and those are ordered alike. */
  ghost predicate SameValueOrder(a: map<Id, real>, b: map<Id, real>) {
    && (forall x :: Value(a, x) > 0.0 <==> Value(b, x) > 0.0)
    && (forall x, y :: Value(a, x) > 0.0 && Value(a, y) > 0.0 ==>
          (Value(a, x) >= Value(a, y) <==> Value(b, x) >= Value(b, y)))
  }

  lemma SamePool(a: seq<Hit>, b: seq<Hit>, ta: real, tb: real)
    requires SameCosineOrder(a, b, ta, tb)
    ensures Pool(a, ta) == Pool(b, tb) && Ids(a, Pool(a, ta)) == Ids(b, Pool(b, tb))
  {
    var xs := Filter(Passing(a, ta), Range(|a|));
    forall i | 0 <= i < |Range(|a|)| ensures Passing(a, ta)(Range(|a|)[i]) == Passing(b, tb)(Range(|a|)[i]) {
      RangeHolds(|a|, Range(|a|)[i]);
    }
    FilterAlike(Passing(a, ta), Passing(b, tb), Range(|a|));
    forall i | 0 <= i < |xs| ensures Passing(a, ta)(xs[i]) { FilterIn(Passing(a, ta), Range(|a|), xs[i]); }
    SortByOrder(CosineKey(a), CosineKey(b), xs);
  }

  lemma SameLeg(ids: seq<Id>, a: map<Id, real>, b: map<Id, real>)
    requires SameValueOrder(a, b)
    ensures PositiveOrder(ids, a) == PositiveOrder(ids, b)
  {
    FilterAlike(Positive(a), Positive(b), ids);
    var xs := Filter(Positive(a), ids);
    forall i | 0 <= i < |xs| ensures Value(a, xs[i]) > 0.0 { FilterIn(Positive(a), ids, xs[i]); }
    SortByOrder(ValueKey(a), ValueKey(b), xs);
  }

  /** Fusion depends on ranks only: any rescaling of the three scales that keeps the same ids above the
      threshold, the same ids positive and the same order gives the same ids with the same scores. */
  lemma OnlyRanksMatter(w: Weights, a: seq<Hit>, b: seq<Hit>, bm25a: map<Id, real>, bm25b: map<Id, real>,
                        entitya: map<Id, real>, entityb: map<Id, real>, ta: real, tb: real)
    requires WeightsOk(w) && SameCosineOrder(a, b, ta, tb)
    requires SameValueOrder(bm25a, bm25b) && SameValueOrder(entitya, entityb)
    ensures Ranking(w, a, bm25a, entitya, ta) == Ranking(w, b, bm25b, entityb, tb)
  {
    SamePool(a, b, ta, tb);
    var mids := Ids(a, Pool(a, ta));
    SameLeg(Keys(mids), bm25a, bm25b);
    SameLeg(Keys(mids), entitya, entityb);
    assert ScoredPool(w, mids, bm25a, entitya) == ScoredPool(w, mids, bm25b, entityb);
  }

  predicate Listed(r: seq<Scored>, id: Id) { exists n :: 0 <= n < |r| && r[n].id == id }

  predicate PassesAs(hits: seq<Hit>, threshold: real, id: Id) {
    exists i :: 0 <= i < |hits| && hits[i].id == Some(id) && hits[i].cosine >= threshold
  }

  lemma ListedPasses(w: Weights, hits: seq<Hit>, bm25: map<Id, real>, entity: map<Id, real>, threshold: real, n: nat)
    requires WeightsOk(w) && n < |Ranking(w, hits, bm25, entity, threshold)|
    ensures var r := Ranking(w, hits, bm25, entity, threshold);
            0.0 < r[n].score <= 1.0 && PassesAs(hits, threshold, r[n].id)
  {
    hide Score;
    var pool := Pool(hits, threshold);
    var mids := Ids(hits, pool);
    var scored, x := ScoredPool(w, mids, bm25, entity), Ranking(w, hits, bm25, entity, threshold)[n];
    SortHolds(BY_SCORE, scored, x);
    var m :| 0 <= m < |scored| && scored[m] == x;
    PoolPasses(hits, threshold, pool[m]);
    ScoreIsInUnit(w, Rank(mids, mids[m]).value, Rank(PositiveOrder(Keys(mids), bm25), mids[m]),
                  Rank(PositiveOrder(Keys(mids), entity), mids[m]));
  }

  lemma PassingIsListed(w: Weights, hits: seq<Hit>, bm25: map<Id, real>, entity: map<Id, real>, threshold: real, i: nat)
    requires WeightsOk(w) && Passing(hits, threshold)(i)
    ensures Listed(Ranking(w, hits, bm25, entity, threshold), IdOf(hits, i))
  {
    hide Score;
    var pool, r := Pool(hits, threshold), Ranking(w, hits, bm25, entity, threshold);
    var scored := ScoredPool(w, Ids(hits, pool), bm25, entity);
    RangeHolds(|hits|, i);
    FilterIn(Passing(hits, threshold), Range(|hits|), i);
    SortHolds(CosineKey(hits), Filter(Passing(hits, threshold), Range(|hits|)), i);
    var m :| 0 <= m < |pool| && pool[m] == i;
    SortHolds(BY_SCORE, scored, scored[m]);
    var n :| 0 <= n < |r| && r[n] == scored[m];
  }

  /** The result is the whole pool, best first: each passing hit is in it, each entry is a passing hit with
      a score in (0, 1]. */
  lemma RankingIsThePool(w: Weights, hits: seq<Hit>, bm25: map<Id, real>, entity: map<Id, real>, threshold: real)
    requires WeightsOk(w)
    ensures var r := Ranking(w, hits, bm25, entity, threshold);
            && Descending(BY_SCORE, r) && |r| == |Pool(hits, threshold)|
            && (forall n :: 0 <= n < |r| ==> 0.0 < r[n].score <= 1.0)
            && (forall id :: Listed(r, id) <==> PassesAs(hits, threshold, id))
  {
    hide Ranking, Pool;
    var r := Ranking(w, hits, bm25, entity, threshold);
    RankingSorted(w, hits, bm25, entity, threshold);
    forall n | 0 <= n < |r| ensures 0.0 < r[n].score <= 1.0 && PassesAs(hits, threshold, r[n].id) {
      ListedPasses(w, hits, bm25, entity, threshold, n);
    }
    forall id: Id | PassesAs(hits, threshold, id) ensures Listed(r, id) {
      var i :| 0 <= i < |hits| && hits[i].id == Some(id) && hits[i].cosine >= threshold;
      PassingIsListed(w, hits, bm25, entity, threshold, i);
    }
  }

  lemma RankingSorted(w: Weights, hits: seq<Hit>, bm25: map<Id, real>, entity: map<Id, real>, threshold: real)
    requires WeightsOk(w)
    ensures Descending(BY_SCORE, Ranking(w, hits, bm25, entity, threshold))
    ensures |Ranking(w, hits, bm25, entity, threshold)| == |Pool(hits, threshold)|
  {
    SortIsSorted(BY_SCORE, ScoredPool(w, Ids(hits, Pool(hits, threshold)), bm25, entity));
  }

  // ---- when is a score 1.0? ----

  lemma DivideStrictly(a: real, b: real, c: real)
    requires a > 0.0 && 0.0 < b < c
    ensures a / c < a / b
  {
    DivideMore(a, b, c);
  }

  lemma TermIsFull(weight: real, k: real, rank: Option<nat>)
    requires k > 0.0 && weight > 0.0 && (rank.Some? ==> rank.value >= 1)
    ensures Term(weight, k, rank) == weight / (k + 1.0) <==> rank == Some(1)
  {
    if rank.Some? && rank.value > 1 { DivideStrictly(weight, k + 1.0, k + rank.value as real); }
    if rank.None? { assert weight / (k + 1.0) > 0.0; }
  }

  /** Each leg counts by its own weight: a candidate that every leg holding it ranks first scores the sum of
      these legs' weights over the sum of all three, whatever the rank constant. */
  lemma FirstPlacesAddUp(w: Weights, inBm25: bool, inEntity: bool)
    requires WeightsOk(w)
    ensures Score(w, Some(1), if inBm25 then Some(1) else None, if inEntity then Some(1) else None)
            == (1.0 + (if inBm25 then w.bm25 else 0.0) + (if inEntity then w.entity else 0.0)) / (1.0 + w.bm25 + w.entity)
  {
    var b, e := if inBm25 then w.bm25 else 0.0, if inEntity then w.entity else 0.0;
    ScoreIsInUnit(w, 1, if inBm25 then Some(1) else None, if inEntity then Some(1) else None);
    SumOfQuotients(1.0, b, e, w.k + 1.0);
    ScaledQuotient(1.0 + b + e, w.k + 1.0, w.k + 1.0, 1.0 + w.bm25 + w.entity);
  }

  /** What a leg adds at a rank, measured by what its first place is worth. */
  function Share(w: Weights, weight: real, rank: Option<nat>): real
    requires WeightsOk(w)
  {
    if rank.None? then 0.0 else weight * ((w.k + 1.0) / (w.k + rank.value as real))
  }

  /** At any ranks: each leg adds its weight, shrunk as k + 1 to k + rank, over the sum of the weights. */
  lemma ScoreOfRanks(w: Weights, dense: nat, bm25: Option<nat>, entity: Option<nat>)
    requires WeightsOk(w) && dense >= 1 && (bm25.Some? ==> bm25.value >= 1) && (entity.Some? ==> entity.value >= 1)
    ensures Score(w, Some(dense), bm25, entity)
            == (Share(w, 1.0, Some(dense)) + Share(w, w.bm25, bm25) + Share(w, w.entity, entity)) / (1.0 + w.bm25 + w.entity)
  {
    hide Share, Term;
    ScoreIsInUnit(w, dense, bm25, entity);
    ShareOfTerm(w, 1.0, Some(dense));
    ShareOfTerm(w, w.bm25, bm25);
    ShareOfTerm(w, w.entity, entity);
    SharesAddUp(Term(1.0, w.k, Some(dense)), Term(w.bm25, w.k, bm25), Term(w.entity, w.k, entity), w.k + 1.0, 1.0 + w.bm25 + w.entity);
  }

  lemma ShareOfTerm(w: Weights, weight: real, rank: Option<nat>)
    requires WeightsOk(w)
    ensures Share(w, weight, rank) == Term(weight, w.k, rank) * (w.k + 1.0)
  {
    if rank.Some? { QuotientScales(weight, w.k + rank.value as real, w.k + 1.0); }
  }

  lemma QuotientScales(a: real, b: real, c: real)
    requires b > 0.0
    ensures a * (c / b) == (a / b) * c
  {
  }

  lemma SharesAddUp(x: real, y: real, z: real, c: real, s: real)
    requires c > 0.0 && s > 0.0
    ensures (x + y + z) / (s / c) == (x * c + y * c + z * c) / s
  {
  }

  /** With three positive weights a candidate scores 1.0 exactly when every leg ranks it first. */
  lemma FullScoreIffFirstEverywhere(w: Weights, dense: nat, bm25: Option<nat>, entity: Option<nat>)
    requires WeightsOk(w) && w.bm25 > 0.0 && w.entity > 0.0
    requires dense >= 1 && (bm25.Some? ==> bm25.value >= 1) && (entity.Some? ==> entity.value >= 1)
    ensures Score(w, Some(dense), bm25, entity) == 1.0 <==> dense == 1 && bm25 == Some(1) && entity == Some(1)
  {
    ScoreIsInUnit(w, dense, bm25, entity);
    NormPositive(w);
    TermBounds(1.0, w.k, Some(dense));
    TermBounds(w.bm25, w.k, bm25);
    TermBounds(w.entity, w.k, entity);
    TermIsFull(1.0, w.k, Some(dense));
    TermIsFull(w.bm25, w.k, bm25);
    TermIsFull(w.entity, w.k, entity);
    SumOfQuotients(1.0, w.bm25, w.entity, w.k + 1.0);
    RatioOne(Raw(w, Some(dense), bm25, entity), Norm(w));
  }

  lemma RatioOne(a: real, b: real)
    requires b > 0.0
    ensures a / b == 1.0 <==> a == b
  {
  }

  // ---- do the configured constants matter? ----

  // Two hits, the first ahead; the probes look at it alone and with a keyword match.
  const PROBE: seq<Hit> := [Hit(Some(1), 0.9), Hit(Some(2), 0.8)]
  const NO_MATCH: map<Id, real> := map[]
  const FIRST_MATCHES: map<Id, real> := map[1 := 1.0]

  lemma TwoRanked(mids: seq<Id>, a: Id, b: Id)
    requires |mids| <= 2 && Rank(mids, a).Some? && Rank(mids, b).Some? && Rank(mids, a).value < Rank(mids, b).value
    ensures mids == [a, b]
  {
  }

  lemma ProbePool()
    ensures Ids(PROBE, Pool(PROBE, 0.0)) == [1, 2]
  {
    hide StableSort, Rank, Filter;
    SortIsSorted(CosineKey(PROBE), Filter<nat>(Passing(PROBE, 0.0), Range(|PROBE|)));
    DenseFollowsCosine(PROBE, 0.0, 0, 1);
    TwoRanked(Ids(PROBE, Pool(PROBE, 0.0)), 1, 2);
  }

  lemma NothingRanked(ids: seq<Id>)
    ensures PositiveOrder(ids, NO_MATCH) == []
  {
    FilterNone<Id>(Positive(NO_MATCH), ids);
  }

  lemma FilterOfTwo<T>(keep: T -> bool, a: T, b: T)
    requires keep(a) && !keep(b)
    ensures Filter(keep, [a, b]) == [a]
  {
    assert [a, b][..1] == [a] && [a][..0] == [];
    assert Filter(keep, [a]) == [] + [a];
  }

  lemma FirstRanked()
    ensures PositiveOrder([1, 2], FIRST_MATCHES) == [1]
  {
    hide Filter, StableSort;
    FilterOfTwo<Id>(Positive(FIRST_MATCHES), 1, 2);
    SortOfOne(ValueKey(FIRST_MATCHES), 1);
  }

  lemma SortOfOne(key: Id -> real, x: Id)
    ensures StableSort(key, [x]) == [x]
  {
    assert [x][..0] == [];
    assert StableSort<Id>(key, []) == [];
  }

  lemma ProbeKeys()
    ensures Keys([1, 2]) == [1, 2] && Rank([1, 2], 1) == Some(1) && Rank([1, 2], 2) == Some(2) && Rank([1], 1) == Some(1)
  {
    assert [1, 2][..1] == [1] && [1][..0] == [];
    assert Keys([1]) == [1];
  }

  /** The same ranking gives the same score to each id of the pool. */
  lemma SameRankingSameScore(w: Weights, v: Weights, hits: seq<Hit>, bm25: map<Id, real>, entity: map<Id, real>,
                             threshold: real, i: nat)
    requires WeightsOk(w) && WeightsOk(v) && Passing(hits, threshold)(i)
    requires Ranking(w, hits, bm25, entity, threshold) == Ranking(v, hits, bm25, entity, threshold)
    ensures var mids := Ids(hits, Pool(hits, threshold));
            ScoreIn(w, mids, bm25, entity, IdOf(hits, i)) == ScoreIn(v, mids, bm25, entity, IdOf(hits, i))
  {
    PassingIsListed(w, hits, bm25, entity, threshold, i);
    var r := Ranking(w, hits, bm25, entity, threshold);
    var n :| 0 <= n < |r| && r[n].id == IdOf(hits, i);
    RankingScores(w, hits, bm25, entity, threshold, n);
    RankingScores(v, hits, bm25, entity, threshold, n);
  }

  lemma ProbeRanks(w: Weights)
    requires WeightsOk(w)
    ensures var mids := Ids(PROBE, Pool(PROBE, 0.0));
            && ScoreIn(w, mids, NO_MATCH, NO_MATCH, 1) == Score(w, Some(1), None, None)
            && ScoreIn(w, mids, NO_MATCH, NO_MATCH, 2) == Score(w, Some(2), None, None)
            && ScoreIn(w, mids, FIRST_MATCHES, NO_MATCH, 1) == Score(w, Some(1), Some(1), None)
  {
    hide Score, Pool, Ids, PositiveOrder;
    ProbePool();
    ProbeKeys();
    NothingRanked([1, 2]);
    FirstRanked();
  }

  lemma ProbeScores(w: Weights)
    requires WeightsOk(w)
    ensures var mids, s := Ids(PROBE, Pool(PROBE, 0.0)), 1.0 + w.bm25 + w.entity;
            && s > 0.0
            && ScoreIn(w, mids, NO_MATCH, NO_MATCH, 1) == 1.0 / s
            && ScoreIn(w, mids, NO_MATCH, NO_MATCH, 2) == (w.k + 1.0) / (w.k + 2.0) / s
            && ScoreIn(w, mids, FIRST_MATCHES, NO_MATCH, 1) == (1.0 + w.bm25) / s
  {
    hide Score, Pool, Ids, ScoreIn;
    ProbeRanks(w);
    ScoreIsInUnit(w, 1, None, None);
    ScoreIsInUnit(w, 2, None, None);
    ScoreIsInUnit(w, 1, Some(1), None);
    var s, d := 1.0 + w.bm25 + w.entity, w.k + 1.0;
    ScaledQuotient(1.0, d, d, s);
    ScaledQuotient(1.0, w.k + 2.0, d, s);
    ScaledQuotient(1.0 + w.bm25, d, d, s);
    SumOfQuotients(1.0, w.bm25, 0.0, d);
  }

  lemma ScaledQuotient(a: real, b: real, d: real, s: real)
    requires b > 0.0 && d > 0.0 && s > 0.0
    ensures (a / b) / (s / d) == a * d / b / s
    ensures b == d ==> a * d / b == a
  {
  }

  lemma WeightsFromScores(w: Weights, v: Weights)
    requires WeightsOk(w) && WeightsOk(v)
    requires var s, t := 1.0 + w.bm25 + w.entity, 1.0 + v.bm25 + v.entity;
             && 1.0 / s == 1.0 / t
             && (w.k + 1.0) / (w.k + 2.0) / s == (v.k + 1.0) / (v.k + 2.0) / t
             && (1.0 + w.bm25) / s == (1.0 + v.bm25) / t
    ensures w == v
  {
    var s, t := 1.0 + w.bm25 + w.entity, 1.0 + v.bm25 + v.entity;
    SameQuotient(1.0, s, t);
    SameNumerator(1.0 + w.bm25, 1.0 + v.bm25, s);
    SameNumerator((w.k + 1.0) / (w.k + 2.0), (v.k + 1.0) / (v.k + 2.0), s);
    assert (w.k + 1.0) / (w.k + 2.0) == 1.0 - 1.0 / (w.k + 2.0);
    assert (v.k + 1.0) / (v.k + 2.0) == 1.0 - 1.0 / (v.k + 2.0);
    SameQuotient(1.0, w.k + 2.0, v.k + 2.0);
  }

  lemma SameQuotient(a: real, b: real, c: real)
    requires a > 0.0 && b > 0.0 && c > 0.0 && a / b == a / c
    ensures b == c
  {
    if b < c { DivideStrictly(a, b, c); }
    if c < b { DivideStrictly(a, c, b); }
  }

  lemma SameNumerator(a: real, b: real, c: real)
    requires c > 0.0 && a / c == b / c
    ensures a == b
  {
  }

  /** Weights that rank the two probes alike are the same weights. */
  lemma ProbesTellWeightsApart(w: Weights, v: Weights)
    requires WeightsOk(w) && WeightsOk(v)
    requires Ranking(w, PROBE, NO_MATCH, NO_MATCH, 0.0) == Ranking(v, PROBE, NO_MATCH, NO_MATCH, 0.0)
    requires Ranking(w, PROBE, FIRST_MATCHES, NO_MATCH, 0.0) == Ranking(v, PROBE, FIRST_MATCHES, NO_MATCH, 0.0)
    ensures w == v
  {
    SameRankingSameScore(w, v, PROBE, NO_MATCH, NO_MATCH, 0.0, 0);
    SameRankingSameScore(w, v, PROBE, NO_MATCH, NO_MATCH, 0.0, 1);
    SameRankingSameScore(w, v, PROBE, FIRST_MATCHES, NO_MATCH, 0.0, 0);
    ProbeScores(w);
    ProbeScores(v);
    WeightsFromScores(w, v);
  }

  /** The search ranks as configured exactly when what was configured is what rrf was defined with: for any
      other constants some hits, matches and threshold come out differently. */
  lemma RanksAsConfiguredIff(w: Weights)
    requires WeightsOk(w)
    ensures (forall hits, bm25, entity, threshold ::
               Ranking(DEFAULT_WEIGHTS, hits, bm25, entity, threshold) == Ranking(w, hits, bm25, entity, threshold))
            <==> w == DEFAULT_WEIGHTS
  {
    if forall hits, bm25, entity, threshold ::
         Ranking(DEFAULT_WEIGHTS, hits, bm25, entity, threshold) == Ranking(w, hits, bm25, entity, threshold) {
      ProbesTellWeightsApart(DEFAULT_WEIGHTS, w);
    }
  }

  // The constants the server configures for the older embedding space.
  const EGEMMA_300M := Weights(2.0, 0.4, 0.25)

  /** One such input: a search for two hits with no match answers with other scores than that space's. */
  lemma ConfiguredSpaceIsIgnored()
    ensures Top(Ranking(DEFAULT_WEIGHTS, PROBE, NO_MATCH, NO_MATCH, 0.0), 2)
            != Top(Ranking(EGEMMA_300M, PROBE, NO_MATCH, NO_MATCH, 0.0), 2)
  {
    hide Ranking;
    ProbePool();
    RankingSorted(DEFAULT_WEIGHTS, PROBE, NO_MATCH, NO_MATCH, 0.0);
    RankingSorted(EGEMMA_300M, PROBE, NO_MATCH, NO_MATCH, 0.0);
    assert |Pool(PROBE, 0.0)| == |Ids(PROBE, Pool(PROBE, 0.0))| == 2;
    if Ranking(DEFAULT_WEIGHTS, PROBE, NO_MATCH, NO_MATCH, 0.0) == Ranking(EGEMMA_300M, PROBE, NO_MATCH, NO_MATCH, 0.0) {
      SameRankingSameScore(DEFAULT_WEIGHTS, EGEMMA_300M, PROBE, NO_MATCH, NO_MATCH, 0.0, 0);
      ProbeScores(DEFAULT_WEIGHTS);
      ProbeScores(EGEMMA_300M);
      assert false;
    }
  }
}
