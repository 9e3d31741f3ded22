/** The retrieval admission gate: its policy, the timed cache of stamp-target tiers, and its counters. */
module Admission {
  import opened Records
  import opened Supersession
  import opened Lists
  import Lifecycle

  // A search result: its payload, and the two scores the floors read.
  datatype Res = Res(id: Id, meta: Payload, cosine: Option<real>, rerankScore: Option<real>)

  datatype Scope = Scope(brand: string, crossBrand: bool)
  datatype QueryClass = Durable | Operational | CanonicalClass | History

  datatype Policy = Policy(allowed: set<Tier>, maxAgeDays: Option<nat>, forensic: bool, relevanceFloor: Option<real>,
                           coherenceFloor: Option<real>, shared: set<string>)

  datatype Reason =
    | TierDisallowed(tier: Tier)
    | Superseded(winner: Id)
    | Contradicts(target: Id)
    | BrandMismatch(brand: string)
    | BrandScopeRequired(brand: string)
    | BrandCoherence(cosine: real)
    | Recency(days: int)
    | RelevanceFloor(score: real)

  const DAY_S := 86400
  const OPERATIONAL_MAX_AGE_DAYS := 180

  function PolicyFor(qc: QueryClass, relevanceFloor: Option<real>, coherenceFloor: Option<real>, shared: set<string>): Policy {
    match qc
    case Operational => Policy({Stable, Evidence, Insight}, Some(OPERATIONAL_MAX_AGE_DAYS), false, relevanceFloor, coherenceFloor, shared)
    case CanonicalClass => Policy({Stable, Canonical}, None, false, None, coherenceFloor, shared)
    case History => Policy({Stable, Evidence, Insight, Canonical}, None, true, None, None, shared)
    case Durable => Policy({Stable, Evidence, Insight}, None, false, None, coherenceFloor, shared)
  }

  /** What a lookup says of a stamp's target: its tier, or that it is gone; an id that is not in the map
      could not be looked up. */
  type Tiers = map<Id, Option<Tier>>

  function StampOf(p: Payload): Option<Id> {
    if KContradicts in p && p[KContradicts].VId? then Some(p[KContradicts].id) else None
  }

  /** A stamp hides while its target is canonical; without a lookup it always does. */
  predicate StampEnforced(tiers: Option<Tiers>, target: Id) {
    tiers.None? || (target in tiers.value && tiers.value[target] == Some(Canonical))
  }

  /** None: admitted. The gate reads the raw tier: a record without one passes the tier check. */
  function Evaluate(p: Policy, r: Res, scope: Scope, qc: QueryClass, tiers: Option<Tiers>, now: Time): Option<Reason> {
    var brand := NeutralBrand(Brand(r.meta), p.shared);
    if KTier in r.meta && r.meta[KTier].VTier? && r.meta[KTier].tier !in p.allowed then Some(TierDisallowed(r.meta[KTier].tier))
    else if !p.forensic && SupersededBy(r.meta).Some? then Some(Superseded(SupersededBy(r.meta).value))
    else if !p.forensic && StampOf(r.meta).Some? && StampEnforced(tiers, StampOf(r.meta).value)
    then Some(Contradicts(StampOf(r.meta).value))
    else if scope.brand != "" && brand != "" && scope.brand != brand then Some(BrandMismatch(brand))
    else if scope.brand == "" && brand != "" && !scope.crossBrand then Some(BrandScopeRequired(brand))
    else if p.coherenceFloor.Some? && brand != "" && r.cosine.Some? && r.cosine.value < p.coherenceFloor.value
    then Some(BrandCoherence(r.cosine.value))
    else EvaluateScores(p, r, qc, now)
  }

  function EvaluateScores(p: Policy, r: Res, qc: QueryClass, now: Time): Option<Reason> {
    if qc.Operational? && p.maxAgeDays.Some? && KCreatedAt in r.meta && r.meta[KCreatedAt].VTime?
       && now - r.meta[KCreatedAt].time > p.maxAgeDays.value * DAY_S
    then Some(Recency((now - r.meta[KCreatedAt].time) / DAY_S))
    else if qc.Operational? && p.relevanceFloor.Some? && r.rerankScore.Some? && r.rerankScore.value < p.relevanceFloor.value
    then Some(RelevanceFloor(r.rerankScore.value))
    else None
  }

  /** The stamp the gate obeys on this record, if any. */
  predicate HiddenByStamp(r: Res, tiers: Option<Tiers>) {
    StampOf(r.meta).Some? && StampEnforced(tiers, StampOf(r.meta).value)
  }

  predicate TooOld(p: Policy, r: Res, now: Time) {
    && p.maxAgeDays.Some? && KCreatedAt in r.meta && r.meta[KCreatedAt].VTime?
    && now - r.meta[KCreatedAt].time > p.maxAgeDays.value * DAY_S
  }

  predicate Below(score: Option<real>, floor: Option<real>) { floor.Some? && score.Some? && score.value < floor.value }

  /** What the gate admits, whatever order its checks come in: the forensic class gives up only the two
      hiding rules, the operational class alone adds age and relevance, a missing score never rejects. */
  lemma AdmitsExactly(p: Policy, r: Res, scope: Scope, qc: QueryClass, tiers: Option<Tiers>, now: Time)
    ensures Evaluate(p, r, scope, qc, tiers, now) == None
            <==> && (KTier in r.meta && r.meta[KTier].VTier? ==> r.meta[KTier].tier in p.allowed)
                 && (p.forensic || (SupersededBy(r.meta) == None && !HiddenByStamp(r, tiers)))
                 && Lifecycle.BrandAdmits(p.shared, scope.brand, scope.crossBrand, r.meta)
                 && (NeutralBrand(Brand(r.meta), p.shared) == "" || !Below(r.cosine, p.coherenceFloor))
                 && (qc == Operational ==> !TooOld(p, r, now) && !Below(r.rerankScore, p.relevanceFloor))
  {
  }

  // ---- what each query class shows, by the stored keys ----

  predicate TierIn(meta: Payload, tiers: set<Tier>) { KTier in meta && meta[KTier].VTier? ==> meta[KTier].tier in tiers }

  /** Neither superseded, nor marked as contradicting a canonical record; without any lookup every mark counts. */
  predicate Unhidden(meta: Payload, tiers: Option<Tiers>) {
    && !(KSupersededBy in meta && meta[KSupersededBy].VId?)
    && !(KContradicts in meta && meta[KContradicts].VId?
         && (tiers.None? || (meta[KContradicts].id in tiers.value && tiers.value[meta[KContradicts].id] == Some(Canonical))))
  }

  predicate Branded(meta: Payload, shared: set<string>) {
    KBrand in meta && meta[KBrand].VText? && meta[KBrand].text != "" && meta[KBrand].text !in shared
  }

  predicate InScope(meta: Payload, shared: set<string>, scope: Scope) {
    Branded(meta, shared) ==> meta[KBrand].text == scope.brand || (scope.brand == "" && scope.crossBrand)
  }

  /** A branded record is close enough to the query, as far as both its score and the floor are known. */
  predicate Coherent(r: Res, shared: set<string>, floor: Option<real>) {
    Branded(r.meta, shared) && floor.Some? && r.cosine.Some? ==> r.cosine.value >= floor.value
  }

  /** What each class shows. The default class: stable, evidence and insight records that are not hidden, in
      the scope's brand and coherent. The operational class: of these, what is at most 180 days old and not
      below the relevance floor. The canonical class: the same as the default one for stable and canonical
      records. History: everything in scope but temporal records, hidden or not. A record without a tier is in
      all of them. */
  predicate Shows(qc: QueryClass, relevanceFloor: Option<real>, coherenceFloor: Option<real>, shared: set<string>,
                  r: Res, scope: Scope, tiers: Option<Tiers>, now: Time)
  {
    && InScope(r.meta, shared, scope)
    && match qc
       case Durable =>
         TierIn(r.meta, {Stable, Evidence, Insight}) && Unhidden(r.meta, tiers) && Coherent(r, shared, coherenceFloor)
       case Operational =>
         && TierIn(r.meta, {Stable, Evidence, Insight}) && Unhidden(r.meta, tiers) && Coherent(r, shared, coherenceFloor)
         && (KCreatedAt in r.meta && r.meta[KCreatedAt].VTime? ==> now - r.meta[KCreatedAt].time <= 180 * 86400)
         && (relevanceFloor.Some? && r.rerankScore.Some? ==> r.rerankScore.value >= relevanceFloor.value)
       case CanonicalClass =>
         TierIn(r.meta, {Stable, Canonical}) && Unhidden(r.meta, tiers) && Coherent(r, shared, coherenceFloor)
       case History => TierIn(r.meta, {Stable, Evidence, Insight, Canonical})
  }

  lemma ClassesAdmit(qc: QueryClass, relevanceFloor: Option<real>, coherenceFloor: Option<real>, shared: set<string>,
                     r: Res, scope: Scope, tiers: Option<Tiers>, now: Time)
    ensures Evaluate(PolicyFor(qc, relevanceFloor, coherenceFloor, shared), r, scope, qc, tiers, now) == None
            <==> Shows(qc, relevanceFloor, coherenceFloor, shared, r, scope, tiers, now)
  {
    hide Evaluate;
    Lifecycle.BrandAdmitsIff(shared, scope.brand, scope.crossBrand, r.meta);
    AdmitsExactly(PolicyFor(qc, relevanceFloor, coherenceFloor, shared), r, scope, qc, tiers, now);
  }

  /** The reason given is a rule the record breaks. */
  predicate Breaks(p: Policy, r: Res, scope: Scope, qc: QueryClass, tiers: Option<Tiers>, now: Time, why: Reason) {
    match why
    case TierDisallowed(tier) => KTier in r.meta && r.meta[KTier] == VTier(tier) && tier !in p.allowed
    case Superseded(winner) => !p.forensic && KSupersededBy in r.meta && r.meta[KSupersededBy] == VId(winner)
    case Contradicts(target) =>
      && !p.forensic && KContradicts in r.meta && r.meta[KContradicts] == VId(target)
      && (tiers.None? || (target in tiers.value && tiers.value[target] == Some(Canonical)))
    case BrandMismatch(brand) => Branded(r.meta, p.shared) && r.meta[KBrand] == VText(brand) && scope.brand !in {"", brand}
    case BrandScopeRequired(brand) =>
      Branded(r.meta, p.shared) && r.meta[KBrand] == VText(brand) && scope.brand == "" && !scope.crossBrand
    case BrandCoherence(cosine) =>
      Branded(r.meta, p.shared) && r.cosine == Some(cosine) && p.coherenceFloor.Some? && cosine < p.coherenceFloor.value
    case Recency(days) =>
      && qc == Operational && p.maxAgeDays.Some? && KCreatedAt in r.meta && r.meta[KCreatedAt].VTime?
      && now - r.meta[KCreatedAt].time > p.maxAgeDays.value * 86400
      && days * 86400 <= now - r.meta[KCreatedAt].time < (days + 1) * 86400
    case RelevanceFloor(score) =>
      qc == Operational && r.rerankScore == Some(score) && p.relevanceFloor.Some? && score < p.relevanceFloor.value
  }

  /** A rejection names a rule that the record really breaks, with the value it breaks it by. */
  lemma ReasonIsTrue(p: Policy, r: Res, scope: Scope, qc: QueryClass, tiers: Option<Tiers>, now: Time)
    requires Evaluate(p, r, scope, qc, tiers, now).Some?
    ensures Breaks(p, r, scope, qc, tiers, now, Evaluate(p, r, scope, qc, tiers, now).value)
  {
  }

  // ---- the tier cache ----

  const STAMP_TIER_TTL_S := 600

  datatype Entry = Entry(expiry: Time, tier: Option<Tier>)

  // One batched lookup: it fails, or it names the tier of every target that still exists.
  datatype Fetch = LookupFailed | Found(tiers: map<Id, Tier>)

  function Live(cache: map<Id, Entry>, targets: set<Id>, now: Time): Tiers {
    map t | t in targets && t in cache && cache[t].expiry > now :: cache[t].tier
  }

  function Missing(cache: map<Id, Entry>, targets: set<Id>, now: Time): set<Id> {
    set t | t in targets && !(t in cache && cache[t].expiry > now)
  }

  function Told(f: Fetch, t: Id): Option<Tier>
    requires f.Found?
  {
    if t in f.tiers then Some(f.tiers[t]) else None
  }

  function Resolved(cache: map<Id, Entry>, targets: set<Id>, now: Time, f: Fetch): Tiers {
    if f.LookupFailed? then Live(cache, targets, now)
    else Live(cache, targets, now) + map t | t in Missing(cache, targets, now) :: Told(f, t)
  }

  function CacheAfter(cache: map<Id, Entry>, targets: set<Id>, now: Time, f: Fetch): map<Id, Entry> {
    if f.LookupFailed? then cache
    else cache + map t | t in Missing(cache, targets, now) :: Entry(now + STAMP_TIER_TTL_S, Told(f, t))
  }

  // ---- runs of searches while the store changes under them ----

  // A search that needs the tiers of some stamp targets, at a time of the monotonic clock.
  datatype Search = Search(now: Time, targets: set<Id>, fetch: Fetch)

  // The tier a record has in the store at a time; None when it is gone.
  type Truth = (Time, Id) -> Option<Tier>

  /** A lookup that answers tells the tiers of that moment. */
  predicate Honest(truth: Truth, s: Search) {
    s.fetch.Found? ==> forall t :: t in s.targets ==> Told(s.fetch, t) == truth(s.now, t)
  }

  predicate RunOk(truth: Truth, run: seq<Search>) {
    && (forall k :: 0 <= k < |run| ==> Honest(truth, run[k]))
    && (forall j, k :: 0 <= j < k < |run| ==> run[j].now <= run[k].now)
  }

  function CacheOver(run: seq<Search>): map<Id, Entry> {
    if run == [] then map[]
    else
      var s := run[|run| - 1];
      CacheAfter(CacheOver(run[..|run| - 1]), s.targets, s.now, s.fetch)
  }

  /** Every entry is the truth of a moment the run has reached, kept for exactly 600 s from it. */
  ghost predicate CacheOk(truth: Truth, cache: map<Id, Entry>, now: Time) {
    forall t :: t in cache ==>
      cache[t].expiry - STAMP_TIER_TTL_S <= now && cache[t].tier == truth(cache[t].expiry - STAMP_TIER_TTL_S, t)
  }

  lemma {:induction false} CacheHoldsTruths(truth: Truth, run: seq<Search>, now: Time)
    requires RunOk(truth, run) && (run != [] ==> run[|run| - 1].now <= now)
    ensures CacheOk(truth, CacheOver(run), now)
  {
    if run != [] {
      var front, s := run[..|run| - 1], run[|run| - 1];
      assert front != [] ==> front[|front| - 1].now <= s.now;
      CacheHoldsTruths(truth, front, s.now);
    }
  }

  /** The tier was the target's own at some moment of the last 600 s. */
  ghost predicate RecentlyTrue(truth: Truth, now: Time, t: Id, tier: Option<Tier>) {
    exists u :: now - 600 < u <= now && truth(u, t) == tier
  }

  /** Whatever happened before, every tier a search works with was true within the last 600 s, and a target
      is left unresolved exactly when this search's own lookup failed and no such tier was at hand. */
  lemma ResolvedTiersAreRecent(truth: Truth, run: seq<Search>, s: Search)
    requires RunOk(truth, run + [s])
    ensures var cache := CacheOver(run);
            var tiers := Resolved(cache, s.targets, s.now, s.fetch);
            && (forall t :: t in tiers ==> t in s.targets && RecentlyTrue(truth, s.now, t, tiers[t]))
            && (forall t :: t in s.targets ==>
                  (t !in tiers <==> s.fetch.LookupFailed? && !(t in cache && cache[t].expiry > s.now)))
            && (s.fetch.LookupFailed? ==> CacheOver(run + [s]) == cache)
  {
    var cache, all := CacheOver(run), run + [s];
    assert all[..|run|] == run && all[|run|] == s;
    assert forall k :: 0 <= k < |run| ==> all[k] == run[k];
    assert RunOk(truth, run) by {
      forall k | 0 <= k < |run| ensures Honest(truth, run[k]) { assert all[k] == run[k]; }
    }
    assert run != [] ==> all[|run| - 1].now <= all[|run|].now;
    CacheHoldsTruths(truth, run, s.now);
    assert Honest(truth, all[|run|]);
    var tiers := Resolved(cache, s.targets, s.now, s.fetch);
    forall t | t in tiers ensures t in s.targets && RecentlyTrue(truth, s.now, t, tiers[t]) {
      if t in Live(cache, s.targets, s.now) && (s.fetch.LookupFailed? || t !in Missing(cache, s.targets, s.now)) {
        assert truth(cache[t].expiry - STAMP_TIER_TTL_S, t) == tiers[t];
      } else {
        assert truth(s.now, t) == tiers[t];
      }
    }
  }

  lemma {:induction false} EntryStays(run: seq<Search>, j: nat, t: Id)
    requires j < |run| && (forall a, b :: 0 <= a < b < |run| ==> run[a].now <= run[b].now)
    requires run[j].fetch.Found? && t in Missing(CacheOver(run[..j]), run[j].targets, run[j].now)
    requires forall a :: j < a < |run| ==> run[a].now < run[j].now + 600
    ensures t in CacheOver(run) && CacheOver(run)[t] == Entry(run[j].now + 600, Told(run[j].fetch, t))
  {
    var front := run[..|run| - 1];
    if j < |front| {
      assert front[..j] == run[..j];
      EntryStays(front, j, t);
    } else {
      assert front == run[..j];
    }
  }

  /** What a lookup answered serves every search of the next 600 s, also one whose own lookup fails. */
  lemma AnswersAreKept(run: seq<Search>, j: nat, s: Search, t: Id)
    requires j < |run| && (forall a, b :: 0 <= a < b < |run| ==> run[a].now <= run[b].now)
    requires run[j].fetch.Found? && t in Missing(CacheOver(run[..j]), run[j].targets, run[j].now)
    requires (forall a :: 0 <= a < |run| ==> run[a].now <= s.now) && s.now < run[j].now + 600 && t in s.targets
    ensures var tiers := Resolved(CacheOver(run), s.targets, s.now, s.fetch);
            t in tiers && tiers[t] == Told(run[j].fetch, t)
  {
    EntryStays(run, j, t);
  }

  /** The tiers one uncached, answered lookup would give now. */
  function Current(truth: Truth, targets: set<Id>, now: Time): Tiers {
    map t | t in targets :: truth(now, t)
  }

  ghost predicate Steady(truth: Truth, now: Time, t: Id) {
    forall u :: now - 600 < u <= now ==> truth(u, t) == truth(now, t)
  }

  /** While the stamp's target has not changed tier for 600 s and its lookup is not failing, the cached
      verdict on a record is the uncached one. */
  lemma CachedVerdictIsCurrent(truth: Truth, run: seq<Search>, s: Search, p: Policy, r: Res, scope: Scope,
                               qc: QueryClass, wall: Time)
    requires RunOk(truth, run + [s]) && (StampOf(r.meta).Some? ==> StampOf(r.meta).value in s.targets)
    requires StampOf(r.meta).Some? ==> s.fetch.Found? && Steady(truth, s.now, StampOf(r.meta).value)
    ensures Evaluate(p, r, scope, qc, Some(Resolved(CacheOver(run), s.targets, s.now, s.fetch)), wall)
            == Evaluate(p, r, scope, qc, Some(Current(truth, s.targets, s.now)), wall)
  {
    hide RunOk, Resolved, CacheOver;
    ResolvedTiersAreRecent(truth, run, s);
    var tiers := Resolved(CacheOver(run), s.targets, s.now, s.fetch);
    if StampOf(r.meta).Some? {
      var t := StampOf(r.meta).value;
      var u :| s.now - STAMP_TIER_TTL_S < u <= s.now && truth(u, t) == tiers[t];
      assert tiers[t] == truth(s.now, t);
    }
  }

  /** A record is hidden as a contradiction only if its target was canonical within the last 600 s: a failed
      lookup hides nothing. */
  lemma HiddenOnlyByRecentCanonical(truth: Truth, run: seq<Search>, s: Search, p: Policy, r: Res, scope: Scope,
                                    qc: QueryClass, wall: Time, t: Id)
    requires RunOk(truth, run + [s])
    requires Evaluate(p, r, scope, qc, Some(Resolved(CacheOver(run), s.targets, s.now, s.fetch)), wall) == Some(Contradicts(t))
    ensures StampOf(r.meta) == Some(t) && t in s.targets && RecentlyTrue(truth, s.now, t, Some(Canonical))
  {
    hide RunOk, Resolved, CacheOver;
    ResolvedTiersAreRecent(truth, run, s);
  }

  // ---- reasons as text: the counters work on prefixes ----

  function Prefix(r: Reason): string {
    match r
    case TierDisallowed(_) => "tier_disallowed"
    case Superseded(_) => "superseded_by"
    case Contradicts(_) => "contradicts_canonical"
    case BrandMismatch(_) => "brand_mismatch"
    case BrandScopeRequired(_) => "brand_scope_required"
    case BrandCoherence(_) => "brand_coherence"
    case Recency(_) => "recency"
    case RelevanceFloor(_) => "relevance_floor"
  }

  function StatsKey(r: Reason): string {
    match r
    case TierDisallowed(_) => "rejected_tier_disallowed"
    case Superseded(_) => "rejected_superseded"
    case Contradicts(_) => "rejected_contradicted"
    case BrandMismatch(_) => "rejected_brand_mismatch"
    case BrandScopeRequired(_) => "rejected_brand_scoped"
    case BrandCoherence(_) => "rejected_brand_coherence"
    case Recency(_) => "rejected_recency"
    case RelevanceFloor(_) => "rejected_relevance_floor"
  }

  const STATS_FAMILIES: seq<(string, string)> := [
    ("brand_scope_required", "rejected_brand_scoped"),
    ("superseded_by", "rejected_superseded"),
    ("contradicts_canonical", "rejected_contradicted"),
    ("tier_disallowed", "rejected_tier_disallowed"),
    ("brand_mismatch", "rejected_brand_mismatch"),
    ("brand_coherence", "rejected_brand_coherence"),
    ("recency", "rejected_recency"),
    ("relevance_floor", "rejected_relevance_floor")]

  /** The text before the first colon. */
  function Family(text: string): string {
    if text == "" || text[0] == ':' then "" else [text[0]] + Family(text[1..])
  }

  /** The key of the first table entry whose prefix the text has. */
  predicate FirstFamily(text: string, key: Option<string>) {
    && (key.Some? ==>
          exists i :: && 0 <= i < |STATS_FAMILIES| && STATS_FAMILIES[i].0 <= text && key.value == STATS_FAMILIES[i].1
                      && forall j :: 0 <= j < i ==> !(STATS_FAMILIES[j].0 <= text))
    && (key.None? ==> forall i :: 0 <= i < |STATS_FAMILIES| ==> !(STATS_FAMILIES[i].0 <= text))
  }

  method StatsFamily(text: string) returns (key: Option<string>)
    ensures FirstFamily(text, key)
  {
    for i := 0 to |STATS_FAMILIES|
      invariant forall j :: 0 <= j < i ==> !(STATS_FAMILIES[j].0 <= text)
    {
      if STATS_FAMILIES[i].0 <= text { return Some(STATS_FAMILIES[i].1); }
    }
    key := None;
  }

  lemma {:induction false} FamilyStops(a: string, rest: string)
    requires forall i :: 0 <= i < |a| ==> a[i] != ':'
    ensures Family(a + ":" + rest) == a
  {
    if a != "" {
      assert (a + ":" + rest)[1..] == a[1..] + ":" + rest;
      FamilyStops(a[1..], rest);
    }
  }

  /** The daily counters count by the reason's prefix, whatever the rest of its text says. */
  lemma FamilyOfReason(r: Reason, rest: string)
    ensures Family(Prefix(r) + ":" + rest) == Prefix(r)
  {
    FamilyStops(Prefix(r), rest);
  }

  lemma PrefixesApart(text: string, i: nat, j: nat)
    requires i < |STATS_FAMILIES| && j < |STATS_FAMILIES|
    requires STATS_FAMILIES[i].0 <= text && STATS_FAMILIES[j].0 <= text
    ensures i == j
  {
    var a, b := STATS_FAMILIES[i].0, STATS_FAMILIES[j].0;
    assert a[0] == text[0] == b[0] && a[2] == text[2] == b[2] && a[6] == text[6] == b[6];
  }

  /** Each reason is counted under its own key, whatever its text says after the prefix. */
  lemma ReasonHasItsKey(r: Reason, rest: string, i: nat)
    requires i < |STATS_FAMILIES| && STATS_FAMILIES[i].0 <= Prefix(r) + rest
    ensures STATS_FAMILIES[i].1 == StatsKey(r)
  {
    var j := KeyIndex(r);
    assert STATS_FAMILIES[j].0 <= Prefix(r) + rest;
    PrefixesApart(Prefix(r) + rest, i, j);
  }

  function KeyIndex(r: Reason): (j: nat)
    ensures j < |STATS_FAMILIES| && STATS_FAMILIES[j] == (Prefix(r), StatsKey(r))
  {
    match r
    case BrandScopeRequired(_) => 0
    case Superseded(_) => 1
    case Contradicts(_) => 2
    case TierDisallowed(_) => 3
    case BrandMismatch(_) => 4
    case BrandCoherence(_) => 5
    case Recency(_) => 6
    case RelevanceFloor(_) => 7
  }

  // ---- the gate with its state ----

  function Admits(p: Policy, scope: Scope, qc: QueryClass, tiers: Option<Tiers>, now: Time): Res -> bool {
    (r: Res) => Evaluate(p, r, scope, qc, tiers, now).None?
  }

  function RejectedAs(p: Policy, scope: Scope, qc: QueryClass, tiers: Option<Tiers>, now: Time, key: string): Res -> bool {
    (r: Res) => Evaluate(p, r, scope, qc, tiers, now).Some? && StatsKey(Evaluate(p, r, scope, qc, tiers, now).value) == key
  }

  function Stamps(results: seq<Res>): set<Id> {
    set r | r in results && StampOf(r.meta).Some? :: StampOf(r.meta).value
  }

  function Among(ids: seq<Id>): set<Id> { set t | t in ids }

  // What one search brings: the result list, its scope and class, the floors in force, the two clocks, the
  // outcome of a lookup should one be made, and the text a reason is rendered with.
  datatype Call = Call(results: seq<Res>, scope: Scope, qc: QueryClass, relevanceFloor: Option<real>,
                       coherenceFloor: Option<real>, shared: set<string>, mono: Time, wall: Time,
                       fetch: Fetch, rest: Reason -> string)

  function PolicyOf(c: Call): Policy { PolicyFor(c.qc, c.relevanceFloor, c.coherenceFloor, c.shared) }

  /** The tiers a call evaluates with: none are needed by a forensic policy or without a stamp, and without
      a registered lookup every stamp counts. */
  function TiersFor(c: Call, cache: map<Id, Entry>, registered: bool): Option<Tiers> {
    if PolicyOf(c).forensic || Stamps(c.results) == {} || !registered then None
    else Some(Resolved(cache, Stamps(c.results), c.mono, c.fetch))
  }

  /** A search lists exactly those of its results that its class shows. */
  lemma SearchShowsExactly(c: Call, tiers: Option<Tiers>, r: Res)
    ensures r in Filter(Admits(PolicyOf(c), c.scope, c.qc, tiers, c.wall), c.results)
            <==> r in c.results && Shows(c.qc, c.relevanceFloor, c.coherenceFloor, c.shared, r, c.scope, tiers, c.wall)
  {
    hide Shows, Evaluate, PolicyFor;
    ClassesAdmit(c.qc, c.relevanceFloor, c.coherenceFloor, c.shared, r, c.scope, tiers, c.wall);
    FilterIn(Admits(PolicyOf(c), c.scope, c.qc, tiers, c.wall), c.results, r);
  }

  function TellAll(missing: seq<Id>, fetch: Fetch): Tiers
    requires fetch.Found?
  {
    map t | t in Among(missing) :: Told(fetch, t)
  }

  function EntryAll(missing: seq<Id>, now: Time, fetch: Fetch): map<Id, Entry>
    requires fetch.Found?
  {
    map t | t in Among(missing) :: Entry(now + STAMP_TIER_TTL_S, Told(fetch, t))
  }

  lemma AmongPush(ids: seq<Id>, t: Id)
    ensures Among(ids + [t]) == Among(ids) + {t}
  {
  }

  lemma NoTargets(cache: map<Id, Entry>, now: Time)
    ensures Live(cache, Among([]), now) == map[] && Among([]) == Missing(cache, Among([]), now)
  {
  }

  lemma NextTarget(cache: map<Id, Entry>, targets: set<Id>, now: Time, t: Id)
    ensures Live(cache, targets + {t}, now)
            == if t in cache && cache[t].expiry > now then Live(cache, targets, now)[t := cache[t].tier] else Live(cache, targets, now)
    ensures Missing(cache, targets + {t}, now)
            == if t in cache && cache[t].expiry > now then Missing(cache, targets, now) else Missing(cache, targets, now) + {t}
  {
  }

  lemma TellNext(missing: seq<Id>, t: Id, now: Time, fetch: Fetch, live: Tiers, was: map<Id, Entry>)
    requires fetch.Found?
    ensures live + TellAll(missing + [t], fetch) == (live + TellAll(missing, fetch))[t := Told(fetch, t)]
    ensures was + EntryAll(missing + [t], now, fetch)
            == (was + EntryAll(missing, now, fetch))[t := Entry(now + STAMP_TIER_TTL_S, Told(fetch, t))]
  {
    AmongPush(missing, t);
  }

  lemma TellEnds(missing: seq<Id>, now: Time, fetch: Fetch, all: set<Id>)
    requires fetch.Found? && (Among(missing) == all || (missing == [] && all == {}))
    ensures TellAll(missing, fetch) == map t | t in all :: Told(fetch, t)
    ensures EntryAll(missing, now, fetch) == map t | t in all :: Entry(now + STAMP_TIER_TTL_S, Told(fetch, t))
  {
  }

  lemma StampsPush(results: seq<Res>, r: Res)
    ensures Stamps(results + [r])
            == if StampOf(r.meta).Some? then Stamps(results) + {StampOf(r.meta).value} else Stamps(results)
  {
    forall t ensures t in Stamps(results + [r]) <==> t in Stamps(results) || StampOf(r.meta) == Some(t) {
      if t in Stamps(results) {
        var x :| x in results && StampOf(x.meta) == Some(t);
        assert x in results + [r];
      }
      if StampOf(r.meta) == Some(t) { assert r in results + [r]; }
    }
  }

  /** The families of the rejections among the first `n` results. */
  function Rejections(c: Call, tiers: Option<Tiers>, n: nat): multiset<string>
    requires n <= |c.results|
  {
    if n == 0 then multiset{}
    else
      var v := Evaluate(PolicyOf(c), c.results[n - 1], c.scope, c.qc, tiers, c.wall);
      Rejections(c, tiers, n - 1) + (if v.Some? then multiset{Prefix(v.value)} else multiset{})
  }

  /** The daily counters after some rejections: untouched by none, restarted by the first of a new day. */
  function Counted(day: int, families: multiset<string>, more: multiset<string>, today: int): (int, multiset<string>) {
    if more == multiset{} then (day, families)
    else (today, (if day == today then families else multiset{}) + more)
  }

  lemma NothingCounted(day: int, families: multiset<string>, today: int)
    ensures Counted(day, families, multiset{}, today) == (day, families)
  {
  }

  lemma CountOneMore(day: int, families: multiset<string>, more: multiset<string>, today: int, family: string)
    ensures var (d, f) := Counted(day, families, more, today);
            Counted(day, families, more + multiset{family}, today)
            == (today, (if d == today then f else multiset{}) + multiset{family})
  {
    assert family in more + multiset{family};
    var base := if day == today then families else multiset{};
    assert base + (more + multiset{family}) == (base + more) + multiset{family};
    if more == multiset{} { assert base + more == base; }
  }

  class Gate {
    var registered: bool
    var cache: map<Id, Entry>
    var day: int
    var total: nat
    var families: multiset<string>

    /** The daily counters by family add up to the daily total. */
    predicate Valid()
      reads this
    {
      |families| == total
    }

    constructor (registered: bool)
      ensures Valid() && cache == map[] && this.registered == registered
    {
      this.registered, cache, day, total, families := registered, map[], 0, 0, multiset{};
    }

    method CountRejection(text: string, today: int)
      requires Valid()
      modifies this`day, this`total, this`families
      ensures Valid() && day == today
      ensures families == (if old(day) == today then old(families) else multiset{}) + multiset{Family(text)}
    {
      if day != today { day, total, families := today, 0, multiset{}; }
      total := total + 1;
      families := families + multiset{Family(text)};
    }

    /** One batched lookup for what the cache does not hold; a failed one changes nothing. */
    method ResolveStampTiers(targets: seq<Id>, now: Time, fetch: Fetch) returns (out: Option<Tiers>)
      modifies this`cache
      ensures out == if registered then Some(Resolved(old(cache), Among(targets), now, fetch)) else None
      ensures cache == if registered then CacheAfter(old(cache), Among(targets), now, fetch) else old(cache)
    {
      hide Live, Missing, Among, Told;
      if !registered { return None; }
      var hits: Tiers := map[];
      var missing: seq<Id> := [];
      NoTargets(cache, now);
      for i := 0 to |targets|
        invariant cache == old(cache) && hits == Live(cache, Among(targets[..i]), now)
        invariant Among(missing) == Missing(cache, Among(targets[..i]), now)
      {
        var t := targets[i];
        assert targets[..i + 1] == targets[..i] + [t];
        AmongPush(targets[..i], t);
        AmongPush(missing, t);
        NextTarget(cache, Among(targets[..i]), now, t);
        if t in cache && cache[t].expiry > now { hits := hits[t := cache[t].tier]; } else { missing := missing + [t]; }
      }
      assert targets[..|targets|] == targets;
      if fetch.LookupFailed? { return Some(hits); }
      ghost var was, live := cache, hits;
      TellEnds(missing[..0], now, fetch, {});
      for i := 0 to |missing|
        invariant hits == live + TellAll(missing[..i], fetch)
        invariant cache == was + EntryAll(missing[..i], now, fetch)
      {
        var t := missing[i];
        assert missing[..i + 1] == missing[..i] + [t];
        TellNext(missing[..i], t, now, fetch, live, was);
        cache := cache[t := Entry(now + STAMP_TIER_TTL_S, Told(fetch, t))];
        hits := hits[t := Told(fetch, t)];
      }
      assert missing[..|missing|] == missing;
      TellEnds(missing, now, fetch, Missing(was, Among(targets), now));
      out := Some(hits);
    }

    /** The admitted results in their order; every rejection is counted once, under its own family. */
    method ApplyAdmission(c: Call, today: int) returns (admitted: seq<Res>, stats: multiset<string>)
      requires Valid()
      modifies this
      ensures Valid() && registered == old(registered)
      ensures var tiers := TiersFor(c, old(cache), old(registered));
              && admitted == Filter(Admits(PolicyOf(c), c.scope, c.qc, tiers, c.wall), c.results)
              && |stats| == |c.results| - |admitted|
              && (day, families) == Counted(old(day), old(families), Rejections(c, tiers, |c.results|), today)
              && (forall key: string :: stats[key] == |Filter(RejectedAs(PolicyOf(c), c.scope, c.qc, tiers, c.wall, key), c.results)|)
              && cache == (if tiers.Some? then CacheAfter(old(cache), Stamps(c.results), c.mono, c.fetch) else old(cache))
    {
      var targets: seq<Id> := [];
      for i := 0 to |c.results|
        invariant unchanged(this) && Among(targets) == Stamps(c.results[..i])
      {
        assert c.results[..i + 1] == c.results[..i] + [c.results[i]];
        StampsPush(c.results[..i], c.results[i]);
        if StampOf(c.results[i].meta).Some? { targets := targets + [StampOf(c.results[i].meta).value]; }
      }
      assert c.results[..|c.results|] == c.results;
      var tiers: Option<Tiers> := None;
      if !PolicyOf(c).forensic && targets != [] {
        assert targets[0] in targets;
        tiers := ResolveStampTiers(targets, c.mono, c.fetch);
      }
      if targets != [] { assert targets[0] in Among(targets); }
      admitted, stats := EvaluateAll(c, tiers, today);
      assert c.results[..|c.results|] == c.results;
    }

    /** One rejection, counted by its text under its own family in both counters. */
    method Reject(r: Reason, rest: string, today: int) returns (key: string)
      requires Valid()
      modifies this`day, this`total, this`families
      ensures Valid() && day == today && key == StatsKey(r)
      ensures families == (if old(day) == today then old(families) else multiset{}) + multiset{Prefix(r)}
    {
      hide Family, Prefix, StatsKey, FirstFamily;
      var text := Prefix(r) + ":" + rest;
      FamilyOfReason(r, rest);
      CountRejection(text, today);
      var found := StatsFamily(text);
      assert text == Prefix(r) + (":" + rest);
      KeyOfReason(r, ":" + rest, text, found);
      key := found.value;
    }

    method EvaluateAll(c: Call, tiers: Option<Tiers>, today: int) returns (admitted: seq<Res>, stats: multiset<string>)
      requires Valid()
      modifies this`day, this`total, this`families
      ensures Valid() && Tallied(c, tiers, today, old(day), old(families), |c.results|, admitted, stats, day, families)
    {
      hide Tallied, Evaluate, Prefix, StatsKey, PolicyOf;
      admitted, stats := [], multiset{};
      TallyStarts(c, tiers, today, day, families);
      for i := 0 to |c.results|
        invariant Valid() && Tallied(c, tiers, today, old(day), old(families), i, admitted, stats, day, families)
      {
        var verdict := Evaluate(PolicyOf(c), c.results[i], c.scope, c.qc, tiers, c.wall);
        TallyNext(c, tiers, today, old(day), old(families), i, admitted, stats, day, families);
        if verdict.None? {
          admitted := admitted + [c.results[i]];
        } else {
          var key := Reject(verdict.value, c.rest(verdict.value), today);
          stats := stats + multiset{key};
        }
      }
    }
  }

  /** Where the evaluation of the first `n` results stands: the admitted ones, the call's counts by key, the
      daily counters. */
  ghost predicate Tallied(c: Call, tiers: Option<Tiers>, today: int, day0: int, families0: multiset<string>, n: nat,
                          admitted: seq<Res>, stats: multiset<string>, day: int, families: multiset<string>)
  {
    && n <= |c.results|
    && admitted == Filter(Admits(PolicyOf(c), c.scope, c.qc, tiers, c.wall), c.results[..n])
    && |stats| == n - |admitted|
    && (forall key: string :: stats[key] == |Filter(RejectedAs(PolicyOf(c), c.scope, c.qc, tiers, c.wall, key), c.results[..n])|)
    && (day, families) == Counted(day0, families0, Rejections(c, tiers, n), today)
  }

  lemma TallyStarts(c: Call, tiers: Option<Tiers>, today: int, day: int, families: multiset<string>)
    ensures Tallied(c, tiers, today, day, families, 0, [], multiset{}, day, families)
  {
    NoResults(c, tiers);
    NothingCounted(day, families, today);
  }

  lemma TallyNext(c: Call, tiers: Option<Tiers>, today: int, day0: int, families0: multiset<string>, n: nat,
                  admitted: seq<Res>, stats: multiset<string>, day: int, families: multiset<string>)
    requires Tallied(c, tiers, today, day0, families0, n, admitted, stats, day, families) && n < |c.results|
    ensures var v := Evaluate(PolicyOf(c), c.results[n], c.scope, c.qc, tiers, c.wall);
            if v.None? then Tallied(c, tiers, today, day0, families0, n + 1, admitted + [c.results[n]], stats, day, families)
            else Tallied(c, tiers, today, day0, families0, n + 1, admitted, stats + multiset{StatsKey(v.value)},
                         today, (if day == today then families else multiset{}) + multiset{Prefix(v.value)})
  {
    hide Evaluate, Filter, RejectedAs, Admits, Prefix, StatsKey, Rejections, Counted, PolicyOf;
    NextResult(c, tiers, n);
    var v := Evaluate(PolicyOf(c), c.results[n], c.scope, c.qc, tiers, c.wall);
    if v.Some? { CountOneMore(day0, families0, Rejections(c, tiers, n), today, Prefix(v.value)); }
  }

  lemma KeyOfReason(r: Reason, rest: string, text: string, key: Option<string>)
    requires text == Prefix(r) + rest && FirstFamily(text, key)
    ensures key == Some(StatsKey(r))
  {
    assert STATS_FAMILIES[KeyIndex(r)].0 <= text;
    if key.Some? {
      var i :| 0 <= i < |STATS_FAMILIES| && STATS_FAMILIES[i].0 <= text && key.value == STATS_FAMILIES[i].1;
      ReasonHasItsKey(r, rest, i);
    }
  }

  lemma NoResults(c: Call, tiers: Option<Tiers>)
    ensures Filter(Admits(PolicyOf(c), c.scope, c.qc, tiers, c.wall), c.results[..0]) == []
    ensures Rejections(c, tiers, 0) == multiset{}
    ensures forall key: string :: |Filter(RejectedAs(PolicyOf(c), c.scope, c.qc, tiers, c.wall, key), c.results[..0])| == 0
  {
  }

  lemma NextResult(c: Call, tiers: Option<Tiers>, i: nat)
    requires i < |c.results|
    ensures var v := Evaluate(PolicyOf(c), c.results[i], c.scope, c.qc, tiers, c.wall);
            Rejections(c, tiers, i + 1) == if v.Some? then Rejections(c, tiers, i) + multiset{Prefix(v.value)} else Rejections(c, tiers, i)
    ensures var p, v := Admits(PolicyOf(c), c.scope, c.qc, tiers, c.wall), Evaluate(PolicyOf(c), c.results[i], c.scope, c.qc, tiers, c.wall);
            Filter(p, c.results[..i + 1]) == if v.None? then Filter(p, c.results[..i]) + [c.results[i]] else Filter(p, c.results[..i])
    ensures forall key: string ::
              var p, v := RejectedAs(PolicyOf(c), c.scope, c.qc, tiers, c.wall, key), Evaluate(PolicyOf(c), c.results[i], c.scope, c.qc, tiers, c.wall);
              |Filter(p, c.results[..i + 1])| == |Filter(p, c.results[..i])| + (if v.Some? && StatsKey(v.value) == key then 1 else 0)
  {
    hide Evaluate;
    assert c.results[..i + 1] == c.results[..i] + [c.results[i]];
    FilterPush(Admits(PolicyOf(c), c.scope, c.qc, tiers, c.wall), c.results[..i], c.results[i]);
    forall key: string
      ensures var p, v := RejectedAs(PolicyOf(c), c.scope, c.qc, tiers, c.wall, key), Evaluate(PolicyOf(c), c.results[i], c.scope, c.qc, tiers, c.wall);
              |Filter(p, c.results[..i + 1])| == |Filter(p, c.results[..i])| + (if v.Some? && StatsKey(v.value) == key then 1 else 0)
    {
      FilterPush(RejectedAs(PolicyOf(c), c.scope, c.qc, tiers, c.wall, key), c.results[..i], c.results[i]);
    }
  }
}
