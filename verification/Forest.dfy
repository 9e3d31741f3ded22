/** The supersession links: over every interleaving of the handlers they stay a forest, never hide a protected
    record and, while nothing is re-branded, never leave one user and one brand scope. */
module Forest {
  import opened Records
  import opened Security
  import opened Supersession
  import opened Handlers
  import opened HandlerFacts
  import opened Machine

  // ---- the links of a store ----

  predicate LinkAt(s: Store, a: Id, b: Id) { a in s && SupersededBy(s[a]) == Some(b) }

  /** A walk along supersession links; its last record may be missing (a dangling target). */
  predicate LinkPath(s: Store, p: seq<Id>) {
    |p| >= 1 && forall i :: 0 <= i < |p| - 1 ==> LinkAt(s, p[i], p[i + 1])
  }

  /** No walk returns to where it started. Each record has at most one link, so this makes a forest. */
  ghost predicate Acyclic(s: Store) {
    forall p :: LinkPath(s, p) && |p| >= 2 ==> p[0] != p[|p| - 1]
  }

  /** No hidden record is canonical, insight or without a tier. */
  predicate HiddenUnprotected(s: Store) {
    forall i :: i in s && SupersededBy(s[i]).Some? ==> !Protected(EffTier(s[i]))
  }

  ghost predicate ForestOk(s: Store) { Acyclic(s) && HiddenUnprotected(s) }

  /** The winner's brand is neutral or the loser's own. */
  predicate BrandFits(shared: set<string>, loser: string, winner: string) {
    NeutralBrand(winner, shared) == "" || NeutralBrand(winner, shared) == NeutralBrand(loser, shared)
  }

  predicate Akin(shared: set<string>, a: Payload, b: Payload) {
    User(a) == User(b) && BrandFits(shared, Brand(a), Brand(b))
  }

  /** Every link between two existing records stays within one user and one brand scope. */
  predicate Kin(shared: set<string>, s: Store) {
    forall a, b :: a in s && b in s && LinkAt(s, a, b) ==> Akin(shared, s[a], s[b])
  }

  // ---- store changes that keep the forest ----

  lemma FewerLinksKeepAcyclic(s: Store, s': Store)
    requires Acyclic(s) && (forall a, b :: LinkAt(s', a, b) ==> LinkAt(s, a, b))
    ensures Acyclic(s')
  {
    forall p | LinkPath(s', p) && |p| >= 2 ensures p[0] != p[|p| - 1] {
      assert LinkPath(s, p);
    }
  }

  /** A new link to a record that has none cannot close a cycle. */
  lemma NewLinkKeepsAcyclic(s: Store, s': Store, from: Id, to: Id)
    requires Acyclic(s) && from != to && to in s && SupersededBy(s[to]).None?
    requires forall a, b :: LinkAt(s', a, b) ==> LinkAt(s, a, b) || (a == from && b == to)
    ensures Acyclic(s')
  {
    assert forall b :: !LinkAt(s', to, b);
    forall p | LinkPath(s', p) && |p| >= 2 ensures p[0] != p[|p| - 1] {
      forall j | 0 <= j < |p| - 1 ensures p[j] != to {
        assert LinkAt(s', p[j], p[j + 1]);
      }
      if !LinkPath(s, p) {
        var i :| 0 <= i < |p| - 1 && !LinkAt(s, p[i], p[i + 1]);
        assert LinkAt(s', p[i], p[i + 1]);
      }
    }
  }

  /** One record's face changes, every other record is untouched. */
  predicate OneFaceChanges(s: Store, s': Store, id: Id) {
    s'.Keys == s.Keys && forall i :: i in s && i != id ==> s'[i] == s[i]
  }

  lemma SameFaceKeepsForest(s: Store, s': Store, id: Id)
    requires ForestOk(s) && OneFaceChanges(s, s', id)
    requires id in s ==> SupersededBy(s'[id]) == SupersededBy(s[id]) && EffTier(s'[id]) == EffTier(s[id])
    ensures ForestOk(s')
  {
    forall a, b | LinkAt(s', a, b) ensures LinkAt(s, a, b) {}
    FewerLinksKeepAcyclic(s, s');
  }

  lemma TierWriteKeepsForest(s: Store, s': Store, r: Request, g: Gate)
    requires ForestOk(s) && OneFaceChanges(s, s', r.id) && r.PatchTier? && r.id in s
    requires TierReady(r, g, s)
    requires FaceOf(s'[r.id]) == FaceOf(s[r.id]).(tier := r.target)
    ensures ForestOk(s')
  {
    forall a, b | LinkAt(s', a, b) ensures LinkAt(s, a, b) {}
    FewerLinksKeepAcyclic(s, s');
  }

  lemma ReadyWinner(cfg: Config, r: Request, s: Store)
    requires r.Supersede? && SupersedeReady(cfg, r, s)
    ensures r.id != r.winner && SupersededBy(s[r.winner]).None? && !Protected(EffTier(s[r.id]))
    ensures Akin(cfg.shared, s[r.id], s[r.winner])
    ensures SupersededBy(s[r.id]).Some? ==> SupersededBy(s[r.id]) == Some(r.winner)
  {
  }

  lemma SupersedeKeepsForest(cfg: Config, s: Store, s': Store, r: Request)
    requires ForestOk(s) && OneFaceChanges(s, s', r.id) && r.Supersede? && SupersedeReady(cfg, r, s)
    requires FaceOf(s'[r.id]) == FaceOf(s[r.id]).(link := Some(r.winner))
    ensures ForestOk(s')
  {
    ReadyWinner(cfg, r, s);
    forall a, b | LinkAt(s', a, b) ensures LinkAt(s, a, b) || (a == r.id && b == r.winner) {}
    NewLinkKeepsAcyclic(s, s', r.id, r.winner);
  }

  lemma ClearKeepsForest(s: Store, s': Store, id: Id)
    requires ForestOk(s) && OneFaceChanges(s, s', id) && id in s
    requires FaceOf(s'[id]) == FaceOf(s[id]).(link := None)
    ensures ForestOk(s')
  {
    forall a, b | LinkAt(s', a, b) ensures LinkAt(s, a, b) {}
    FewerLinksKeepAcyclic(s, s');
  }

  lemma EffectKeepsForest(cfg: Config, tid: nat, r: Request, g: Gate, l: Loc, s: Store, s': Store)
    requires LocOk(cfg, tid, r, g, l, s) && ForestOk(s)
    requires Framed(r.id, s, s') && FaceEffect(tid, r, l, s, s')
    ensures ForestOk(s')
  {
    assert OneFaceChanges(s, s', r.id);
    if r.id !in s || (SupersededBy(s'[r.id]) == SupersededBy(s[r.id]) && EffTier(s'[r.id]) == EffTier(s[r.id])) {
      SameFaceKeepsForest(s, s', r.id);
    } else {
      assert Writes(l);
      if r.PatchTier? { TierWriteKeepsForest(s, s', r, g); }
      else if r.Supersede? { SupersedeKeepsForest(cfg, s, s', r); }
      else { ClearKeepsForest(s, s', r.id); }
    }
  }

  // ---- brands and users ----

  predicate LeavesOwnership(r: Request) {
    r.PatchMetadata? ==> KBrand !in r.patch && KUserId !in r.patch
  }

  lemma EffectKeepsKin(cfg: Config, tid: nat, r: Request, g: Gate, l: Loc, s: Store, s': Store)
    requires LocOk(cfg, tid, r, g, l, s) && Kin(cfg.shared, s) && LeavesOwnership(r)
    requires Framed(r.id, s, s') && FaceEffect(tid, r, l, s, s')
    ensures Kin(cfg.shared, s')
  {
    forall i | i in s ensures i in s' && Brand(s'[i]) == Brand(s[i]) && User(s'[i]) == User(s[i]) {
      if i == r.id { assert FaceOf(s'[i]).brand == FaceOf(s[i]).brand && FaceOf(s'[i]).user == FaceOf(s[i]).user; }
    }
    forall a, b | a in s' && b in s' && LinkAt(s', a, b) ensures Akin(cfg.shared, s'[a], s'[b]) {
      if !LinkAt(s, a, b) {
        assert a == r.id && Writes(l) && r.Supersede?;
        ReadyWinner(cfg, r, s);
      }
    }
  }

  // ---- every interleaving ----

  predicate NoRebrand(s0: State) {
    forall t :: 0 <= t < |s0.threads| ==> LeavesOwnership(s0.threads[t].req)
  }

  lemma MachineStepKeepsForest(cfg: Config, s: State, t: nat, ch: Choice)
    requires Inv(cfg, s) && CanStep(s, t)
    ensures ForestOk(s.store) ==> ForestOk(DoStep(cfg, s, t, ch).store)
    ensures Kin(cfg.shared, s.store) && LeavesOwnership(s.threads[t].req)
            ==> Kin(cfg.shared, DoStep(cfg, s, t, ch).store)
    ensures DoStep(cfg, s, t, ch).store.Keys == s.store.Keys
  {
    StepFrame(cfg, s, t, ch);
    var th, s' := s.threads[t], DoStep(cfg, s, t, ch);
    if s'.store != s.store {
      var g, l := th.pc.g, th.pc.l;
      StepIsKept(cfg, t, th.req, g, l, s.store, ch);
      if ForestOk(s.store) { EffectKeepsForest(cfg, t, th.req, g, l, s.store, s'.store); }
      if Kin(cfg.shared, s.store) && LeavesOwnership(th.req) {
        EffectKeepsKin(cfg, t, th.req, g, l, s.store, s'.store);
      }
    }
  }

  /** In every state of every interleaving, not only when the requests are done, the links are a forest
      and nothing protected is hidden; if no request re-brands a record, they also stay within one user
      and one brand scope. */
  lemma {:induction false} ForestInEveryState(cfg: Config, s0: State, sched: seq<Move>)
    requires Initial(s0) && Runs(cfg, s0, sched) && ForestOk(s0.store)
    ensures ForestOk(After(cfg, s0, sched).store)
    ensures After(cfg, s0, sched).store.Keys == s0.store.Keys
    ensures SameRequests(s0, After(cfg, s0, sched))
    ensures Kin(cfg.shared, s0.store) && NoRebrand(s0) ==> Kin(cfg.shared, After(cfg, s0, sched).store)
  {
    if sched != [] {
      var front, last := sched[..|sched| - 1], sched[|sched| - 1];
      ForestInEveryState(cfg, s0, front);
      ReachableInv(cfg, s0, front);
      StepFrame(cfg, After(cfg, s0, front), last.t, last.ch);
      MachineStepKeepsForest(cfg, After(cfg, s0, front), last.t, last.ch);
    }
  }
}
