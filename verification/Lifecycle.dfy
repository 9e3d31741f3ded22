/** The store over its whole life: requests in flight, adds, deletes and restarts, in any order. */
module Lifecycle {
  import opened Records
  import opened Security
  import opened Supersession
  import opened Carryover
  import opened Handlers
  import opened Machine
  import opened Forest
  import opened Flight

  // ---- POST /v1/memories ----

  // Keys a caller may not set when a record is born.
  const ADD_FORBIDDEN_META: set<Key> :=
    {KRetrievable, KExpiresAt, KCreatedAt, KTierActor, KSupersededBy, KContradicts, KContradictionCheckedAt,
     KNliGateCheckedAt, KContradictsPending, KSupersededAt, KSupersededVia, KPartials}

  // `source` is the metadata's source label, `keyOk` whether the service key was sent, `session` the ids
  // mem0 pins on the record (user, agent, run).
  datatype AddRequest = AddRequest(metadata: Payload, source: Label, keyOk: bool, text: string, session: Payload)

  predicate AddAdmitted(r: AddRequest) {
    KTier in r.metadata ==>
      && r.metadata[KTier].VTier?
      && match r.metadata[KTier].tier
         case Canonical => false
         case Insight => RequireServiceCredential(r.source, r.keyOk).Some? && InsightAllowed(r.source)
         case Stable => false
         case Evidence => true
         case Temporal => true
  }

  /** The record a granted add creates: forbidden keys stripped, a tier from birth, mem0's own keys last. */
  function Born(ix: TextIndex, r: AddRequest, now: Time): Payload {
    (map[KTier := VTier(Evidence)] + (r.metadata - ADD_FORBIDDEN_META))
    + (map k | k in r.session && SessionKey(k) :: r.session[k])
    + map[KData := VText(r.text), KHash := VText(ix.digest(r.text)), KTextLemmatized := VText(ix.lemmatize(r.text)),
          KCreatedAt := VTime(now), KUpdatedAt := VTime(now)]
  }

  /** An add is let through exactly without a tier, as evidence or temporal, or as insight from a consolidator
      that the service key proves. */
  lemma AdmittedIff(r: AddRequest)
    ensures AddAdmitted(r)
            <==> || KTier !in r.metadata
                 || r.metadata[KTier] in {VTier(Evidence), VTier(Temporal)}
                 || (r.metadata[KTier] == VTier(Insight) && r.keyOk && r.source in {C1Consolidator, DreamConsolidator, C1DreamConsolidator})
  {
  }

  lemma BornText(ix: TextIndex, r: AddRequest, now: Time)
    ensures var p := Born(ix, r, now);
            && p[KData] == VText(r.text) && p[KHash] == VText(ix.digest(r.text)) && p[KTextLemmatized] == VText(ix.lemmatize(r.text))
            && p[KCreatedAt] == VTime(now) && p[KUpdatedAt] == VTime(now)
  {
  }

  /** Where the value of a key that mem0 does not compute comes from. */
  lemma BornKey(ix: TextIndex, r: AddRequest, now: Time, k: Key)
    requires k !in {KData, KHash, KTextLemmatized, KCreatedAt, KUpdatedAt}
    ensures var p := Born(ix, r, now);
            if SessionKey(k) && k in r.session then k in p && p[k] == r.session[k]
            else if k in r.metadata && k !in ADD_FORBIDDEN_META then k in p && p[k] == r.metadata[k]
            else if k == KTier then k in p && p[k] == VTier(Evidence)
            else k !in p
  {
    hide ADD_FORBIDDEN_META;
  }

  /** Key by key, what an added record holds: its text and times, the ids it was added under, the caller's
      metadata but for the twelve reserved keys, and evidence as its tier if none was given. */
  lemma BornWithItsMetadata(ix: TextIndex, r: AddRequest, now: Time, k: Key)
    ensures var p := Born(ix, r, now);
            && p[KData] == VText(r.text) && p[KHash] == VText(ix.digest(r.text)) && p[KTextLemmatized] == VText(ix.lemmatize(r.text))
            && p[KCreatedAt] == VTime(now) && p[KUpdatedAt] == VTime(now)
            && (k in {KRetrievable, KExpiresAt, KTierActor, KSupersededBy, KContradicts, KContradictionCheckedAt} ==> k !in p)
            && (k in {KNliGateCheckedAt, KContradictsPending, KSupersededAt, KSupersededVia, KPartials} ==> k !in p)
            && (k.KUserId? || k.KAgentId? || k.KRunId? || k.KActorId? || k.KRole? ==>
                  if k in r.session then k in p && p[k] == r.session[k]
                  else (k in p <==> k in r.metadata) && (k in p ==> p[k] == r.metadata[k]))
            && (k.KOther? || k.KBrand? || k.KRetiredAt? ==> (k in p <==> k in r.metadata) && (k in p ==> p[k] == r.metadata[k]))
            && (k == KTier ==> k in p && p[k] == if k in r.metadata then r.metadata[k] else VTier(Evidence))
  {
    hide Born;
    BornText(ix, r, now);
    if k !in {KData, KHash, KTextLemmatized, KCreatedAt, KUpdatedAt} { BornKey(ix, r, now, k); }
  }

  // ---- histories ----

  datatype Event =
    | Stepped(t: nat, ch: Choice)                      // one step of one request in flight
    | Arrives(r: Request)
    | Added(id: Id, add: AddRequest, now: Time)
    | Deleted(gone: set<Id>)                           // a delete, alone or with its cascade
    | Restarted                                        // the process dies with its requests in flight

  /** An id just minted: no record has it, no link leads to it and no request names it. */
  ghost predicate Minted(s: State, id: Id) {
    Unused(s.store, id) && Unnamed(s, id)
  }

  ghost predicate Unused(s: Store, id: Id) {
    id !in s && forall a :: !LinkAt(s, a, id)
  }

  /** Adds and deletes take no record lock, so they may land between any two steps of any request. */
  ghost predicate CanHappen(s: State, e: Event) {
    match e
    case Stepped(t, _) => CanStep(s, t)
    case Added(id, _, _) => Minted(s, id)
    case _ => true
  }

  ghost function Happen(cfg: Config, s: State, e: Event): State
    requires CanHappen(s, e)
  {
    match e
    case Stepped(t, ch) => DoStep(cfg, s, t, ch)
    case Arrives(r) => Arrived(s, r)
    case Added(id, add, now) => if AddAdmitted(add) then s.(store := s.store[id := Born(cfg.index, add, now)]) else s
    case Deleted(gone) => s.(store := s.store - gone)
    case Restarted => State(s.store, [], map[], s.ledger, None, s.nonces, [], [], [])
  }

  /** What an event leaves of the records: a delete takes exactly its ids away, a granted add puts in exactly the
      new record, and an arrival or a restart changes none of them nor a line of the two files. */
  lemma EventEffects(cfg: Config, s: State, e: Event, id: Id)
    requires CanHappen(s, e)
    ensures var s' := Happen(cfg, s, e);
            match e
            case Stepped(_, _) => true
            case Deleted(gone) => Get(s'.store, id) == if id in gone then None else Get(s.store, id)
            case Added(at, add, now) =>
              Get(s'.store, id) == if id == at && AddAdmitted(add) then Some(Born(cfg.index, add, now)) else Get(s.store, id)
            case Arrives(r) =>
              s'.store == s.store && s'.ledger == s.ledger && s'.nonces == s.nonces && |s'.threads| == |s.threads| + 1
            case Restarted => s'.store == s.store && s'.ledger == s.ledger && s'.nonces == s.nonces && s'.threads == []
  {
    hide DoStep, Born, AddAdmitted;
  }

  ghost predicate History(cfg: Config, s: State, es: seq<Event>)
    decreases |es|, 0
  {
    es == [] || (History(cfg, s, es[..|es| - 1]) && CanHappen(StateAfter(cfg, s, es[..|es| - 1]), es[|es| - 1]))
  }

  ghost function StateAfter(cfg: Config, s: State, es: seq<Event>): State
    requires History(cfg, s, es)
    decreases |es|, 1
  {
    if es == [] then s else Happen(cfg, StateAfter(cfg, s, es[..|es| - 1]), es[|es| - 1])
  }

  predicate KeepsOwnership(e: Event) {
    e.Arrives? ==> LeavesOwnership(e.r)
  }

  // ---- what every history keeps ----

  lemma AddKeepsForest(s: Store, id: Id, p: Payload, shared: set<string>)
    requires Unused(s, id) && SupersededBy(p).None?
    ensures ForestOk(s) ==> ForestOk(s[id := p])
    ensures Kin(shared, s) ==> Kin(shared, s[id := p])
  {
    var s' := s[id := p];
    forall a, b | LinkAt(s', a, b) ensures LinkAt(s, a, b) && b != id {
      assert !LinkAt(s, a, id);
    }
    if ForestOk(s) { FewerLinksKeepAcyclic(s, s'); }
  }

  lemma DeleteKeepsForest(s: Store, gone: set<Id>, shared: set<string>)
    ensures ForestOk(s) ==> ForestOk(s - gone)
    ensures Kin(shared, s) ==> Kin(shared, s - gone)
  {
    var s' := s - gone;
    forall a, b | LinkAt(s', a, b) ensures LinkAt(s, a, b) {}
    if ForestOk(s) { FewerLinksKeepAcyclic(s, s'); }
  }

  /** A record is born with a tier, never canonical, insight only for the proven consolidator, never hidden
      by a supersession or a contradiction stamp, whatever metadata the caller sends. */
  lemma BornOpen(ix: TextIndex, r: AddRequest, now: Time)
    ensures SupersededBy(Born(ix, r, now)).None? && KContradicts !in Born(ix, r, now) && KTier in Born(ix, r, now)
    ensures AddAdmitted(r) ==>
              && EffTier(Born(ix, r, now)) in {Evidence, Temporal, Insight}
              && (EffTier(Born(ix, r, now)) == Insight ==> r.keyOk && InsightAllowed(r.source))
  {
  }

  lemma AddStaysForest(cfg: Config, s: State, e: Event)
    requires e.Added? && CanHappen(s, e) && FlightInv(cfg, s)
    ensures var s' := Happen(cfg, s, e);
            && FlightInv(cfg, s') && s'.threads == s.threads
            && (ForestOk(s.store) ==> ForestOk(s'.store))
            && (Kin(cfg.shared, s.store) ==> Kin(cfg.shared, s'.store))
  {
    var p := Born(cfg.index, e.add, e.now);
    BornOpen(cfg.index, e.add, e.now);
    AddKeepsForest(s.store, e.id, p, cfg.shared);
    AddStays(cfg, s, e.id, p);
  }

  lemma StartsInFlight(cfg: Config, s: State)
    requires Initial(s)
    ensures FlightInv(cfg, s)
  {
    ReachableInv(cfg, s, []);
  }

  /** Whatever happens next leaves the requests in flight with what they rely on, and the links a forest. */
  lemma EventKeepsForest(cfg: Config, s: State, e: Event)
    requires FlightInv(cfg, s) && CanHappen(s, e)
    ensures FlightInv(cfg, Happen(cfg, s, e))
    ensures ForestOk(s.store) ==> ForestOk(Happen(cfg, s, e).store)
    ensures NoRebrand(s) && KeepsOwnership(e) ==>
              && NoRebrand(Happen(cfg, s, e))
              && (Kin(cfg.shared, s.store) ==> Kin(cfg.shared, Happen(cfg, s, e).store))
  {
    hide FlightInv, ForestOk, Kin, LeavesOwnership, DoStep;
    match e
    case Stepped(t, ch) =>
      StepStays(cfg, s, t, ch);
      StepKeepsForest(cfg, s, t, ch);
      ThreadFrame(cfg, s, t, ch);
    case Arrives(r) => ArrivalStays(cfg, s, r);
    case Added(_, _, _) => AddStaysForest(cfg, s, e);
    case Deleted(gone) =>
      DeleteStays(cfg, s, gone);
      DeleteKeepsForest(s.store, gone, cfg.shared);
    case Restarted => StartsInFlight(cfg, Happen(cfg, s, e));
  }

  /** Over every history of steps, arrivals, adds, deletes and restarts, in any order, the links stay a forest
      and no record is both hidden and protected; while no request re-brands a record they stay within one
      user and one brand scope. */
  lemma {:induction false} ForestForever(cfg: Config, s: State, es: seq<Event>)
    requires Initial(s) && History(cfg, s, es)
    ensures FlightInv(cfg, StateAfter(cfg, s, es))
    ensures ForestOk(s.store) ==> ForestOk(StateAfter(cfg, s, es).store)
    ensures NoRebrand(s) && (forall i :: 0 <= i < |es| ==> KeepsOwnership(es[i])) ==>
              && NoRebrand(StateAfter(cfg, s, es))
              && (Kin(cfg.shared, s.store) ==> Kin(cfg.shared, StateAfter(cfg, s, es).store))
  {
    hide FlightInv, ForestOk, Kin, NoRebrand, Initial, KeepsOwnership, CanHappen, Happen;
    if es == [] {
      StartsInFlight(cfg, s);
    } else {
      var front, e := es[..|es| - 1], es[|es| - 1];
      ForestForever(cfg, s, front);
      EventKeepsForest(cfg, StateAfter(cfg, s, front), e);
    }
  }

  // ---- chains ----

  /** The brand rule of the admission gate: a request scope sees brand-neutral records and its own brand;
      with no brand it sees only neutral ones, unless it opts in to all. */
  predicate BrandAdmits(shared: set<string>, scope: string, crossBrand: bool, p: Payload) {
    var brand := NeutralBrand(Brand(p), shared);
    if scope != "" && brand != "" then scope == brand
    else scope != "" || brand == "" || crossBrand
  }

  /** A scope sees a record exactly if its brand is missing, shared or the scope's own, or if a scope without a
      brand asked for all brands. */
  lemma BrandAdmitsIff(shared: set<string>, scope: string, crossBrand: bool, p: Payload)
    ensures BrandAdmits(shared, scope, crossBrand, p)
            <==> || KBrand !in p || !p[KBrand].VText? || p[KBrand].text == "" || p[KBrand].text in shared
                 || p[KBrand].text == scope || (scope == "" && crossBrand)
  {
  }

  lemma AkinKeepsVisibility(shared: set<string>, scope: string, crossBrand: bool, a: Payload, b: Payload)
    requires Akin(shared, a, b) && BrandAdmits(shared, scope, crossBrand, a)
    ensures BrandAdmits(shared, scope, crossBrand, b) && User(b) == User(a)
  {
  }

  /** Following a chain of superseded records never loses sight of it: a scope that could see the first
      record can see every existing one after it, and they all belong to one user. */
  lemma {:induction false} ChainStaysVisible(shared: set<string>, s: Store, p: seq<Id>, scope: string, crossBrand: bool, k: nat)
    requires Kin(shared, s) && LinkPath(s, p) && k < |p|
    requires forall i :: 0 <= i <= k ==> p[i] in s
    requires BrandAdmits(shared, scope, crossBrand, s[p[0]])
    ensures BrandAdmits(shared, scope, crossBrand, s[p[k]]) && User(s[p[k]]) == User(s[p[0]])
  {
    if k > 0 {
      ChainStaysVisible(shared, s, p, scope, crossBrand, k - 1);
      assert LinkAt(s, p[k - 1], p[k]);
      AkinKeepsVisibility(shared, scope, crossBrand, s[p[k - 1]], s[p[k]]);
    }
  }

  /** The same at every point of any history that re-brands nothing, with requests still in flight. */
  lemma HistoryKeepsChainsVisible(cfg: Config, s: State, es: seq<Event>, p: seq<Id>, scope: string, crossBrand: bool)
    requires Initial(s) && History(cfg, s, es) && Kin(cfg.shared, s.store) && NoRebrand(s)
    requires forall i :: 0 <= i < |es| ==> KeepsOwnership(es[i])
    requires var now := StateAfter(cfg, s, es).store;
             LinkPath(now, p) && (forall i :: 0 <= i < |p| ==> p[i] in now)
             && BrandAdmits(cfg.shared, scope, crossBrand, now[p[0]])
    ensures var now := StateAfter(cfg, s, es).store;
            forall k :: 0 <= k < |p| ==>
              BrandAdmits(cfg.shared, scope, crossBrand, now[p[k]]) && User(now[p[k]]) == User(now[p[0]])
  {
    hide Kin, LinkPath, BrandAdmits, User;
    ForestForever(cfg, s, es);
    forall k | 0 <= k < |p|
      ensures var now := StateAfter(cfg, s, es).store;
              BrandAdmits(cfg.shared, scope, crossBrand, now[p[k]]) && User(now[p[k]]) == User(now[p[0]])
    {
      ChainStaysVisible(cfg.shared, StateAfter(cfg, s, es).store, p, scope, crossBrand, k);
    }
  }

  /** Kinship is exactly what visibility needs: the brands of a link fit if and only if every scope that may
      see the loser may see the winner. */
  lemma FitsIffVisible(shared: set<string>, a: Payload, b: Payload)
    ensures BrandFits(shared, Brand(a), Brand(b))
            <==> forall scope: string, crossBrand: bool ::
                   BrandAdmits(shared, scope, crossBrand, a) ==> BrandAdmits(shared, scope, crossBrand, b)
  {
    var la, wb := NeutralBrand(Brand(a), shared), NeutralBrand(Brand(b), shared);
    if !BrandFits(shared, Brand(a), Brand(b)) {
      assert BrandAdmits(shared, la, false, a) && !BrandAdmits(shared, la, false, b);
    }
  }

  /** Exactly which merges keep every link within its user and brand: those after which the record still fits
      each record it hides behind, and each record hidden behind it. */
  lemma RebrandKeepsKinIff(shared: set<string>, s: Store, id: Id, patch: Payload)
    requires Kin(shared, s) && id in s && KSupersededBy !in patch
    ensures var s' := SetPayload(s, id, patch);
            Kin(shared, s')
            <==> && (forall a :: a in s && LinkAt(s, a, id) ==> Akin(shared, s'[a], s'[id]))
                 && (forall b :: b in s && LinkAt(s, id, b) ==> Akin(shared, s'[id], s'[b]))
  {
    var s' := SetPayload(s, id, patch);
    forall a, b ensures LinkAt(s', a, b) <==> LinkAt(s, a, b) {}
    if Kin(shared, s') {
      forall a | a in s && LinkAt(s, a, id) ensures Akin(shared, s'[a], s'[id]) { assert LinkAt(s', a, id); }
      forall b | b in s && LinkAt(s, id, b) ensures Akin(shared, s'[id], s'[b]) { assert LinkAt(s', id, b); }
    } else {
      var a, b :| a in s' && b in s' && LinkAt(s', a, b) && !Akin(shared, s'[a], s'[b]);
      assert LinkAt(s, a, b) && Akin(shared, s[a], s[b]);
      assert a == id || b == id;
    }
  }

  /** A merge outside that condition is let through: re-branding a winner takes it out of its loser's sight. */
  lemma RebrandHidesTheWinner()
    ensures
      var loser := map[KTier := VTier(Evidence), KBrand := VText("a"), KSupersededBy := VId(2)];
      var winner := map[KTier := VTier(Evidence), KBrand := VText("a")];
      var s: Store := map[1 := loser, 2 := winner];
      var patch: Payload := map[KBrand := VText("b")];
      && AuthorizeMetadataPatch(Some(Evidence), NoLabel, false, patch.Keys)
      && ForestOk(s) && Kin({}, s)
      && !Kin({}, SetPayload(s, 2, patch))
      && BrandAdmits({}, "a", false, s[1]) && !BrandAdmits({}, "a", false, SetPayload(s, 2, patch)[2])
  {
    var loser := map[KTier := VTier(Evidence), KBrand := VText("a"), KSupersededBy := VId(2)];
    var winner := map[KTier := VTier(Evidence), KBrand := VText("a")];
    var s: Store := map[1 := loser, 2 := winner];
    var patch: Payload := map[KBrand := VText("b")];
    forall p | LinkPath(s, p) && |p| >= 2 ensures p[0] != p[|p| - 1] {
      assert LinkAt(s, p[0], p[1]) && LinkAt(s, p[|p| - 2], p[|p| - 1]);
    }
    var s' := SetPayload(s, 2, patch);
    assert LinkAt(s', 1, 2) && s'[2] == winner + patch;
    assert patch.Keys == {KBrand};
  }
}
