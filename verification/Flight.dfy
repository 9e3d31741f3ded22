/** Requests in flight while records come and go: what a handler under its locks may still rely on when an
    add or a delete, which take no record lock, lands between two of its steps. */
module Flight {
  import opened Records
  import Security
  import opened Supersession
  import opened Handlers
  import opened HandlerFacts
  import opened Machine
  import opened Forest

  ghost predicate OkWithWinner(cfg: Config, tid: nat, r: Request, g: Gate, l: Loc, s: Store, p: Payload)
    requires r.Supersede?
  {
    LocOk(cfg, tid, r, g, l, s[r.winner := p])
  }

  /** The subject is gone, or everything the handler relies on holds, or it did until the winner of its
      supersession was deleted: then it holds with that record put back. */
  ghost predicate StillOk(cfg: Config, tid: nat, r: Request, g: Gate, l: Loc, s: Store) {
    || r.id !in s
    || LocOk(cfg, tid, r, g, l, s)
    || (r.Supersede? && r.winner !in s && exists p :: OkWithWinner(cfg, tid, r, g, l, s, p))
  }

  ghost predicate FlightPc(cfg: Config, t: nat, th: Thread, s: Store) {
    match th.pc
    case Body(g, l) => GateOk(th.req, g, s) && StillOk(cfg, t, th.req, g, l, s)
    case _ => PcOk(cfg, t, th, s)
  }

  ghost predicate FlightInv(cfg: Config, s: State) {
    LocksOk(s) && forall t :: 0 <= t < |s.threads| ==> FlightPc(cfg, t, s.threads[t], s.store)
  }

  // ---- a handler's own step ----

  /** A handler whose subject is gone writes nothing. */
  lemma GoneMeansNoWrite(cfg: Config, tid: nat, r: Request, g: Gate, l: Loc, s: Store, ch: Choice)
    requires r.id !in s
    ensures BodyStep(cfg, tid, r, g, l, s, ch).store == s
  {
  }

  /** The winner is read by one step only; there its absence ends the request, elsewhere it makes no
      difference. */
  lemma WinnerReadOnce(cfg: Config, tid: nat, r: Request, g: Gate, l: Loc, s: Store, p: Payload, ch: Choice)
    requires r.Supersede? && r.winner !in s && r.winner != r.id
    ensures l.SupWinner? ==> BodyStep(cfg, tid, r, g, l, s, ch) == Local(Exit(None), s)
    ensures !l.SupWinner? ==>
              var a, b := BodyStep(cfg, tid, r, g, l, s, ch), BodyStep(cfg, tid, r, g, l, s[r.winner := p], ch);
              a.loc == b.loc && b.store == a.store[r.winner := p] && r.winner !in a.store
  {
    hide IsNoop, SupersedePayload;
    if l.SupWrite? && r.id in s {
      assert SetPayload(s[r.winner := p], r.id, l.patch) == SetPayload(s, r.id, l.patch)[r.winner := p];
    }
  }

  /** The step keeps what the handler may rely on and touches only its subject. */
  lemma OwnStepStays(cfg: Config, tid: nat, r: Request, g: Gate, l: Loc, s: Store, ch: Choice)
    requires StillOk(cfg, tid, r, g, l, s) && GateOk(r, g, s)
    ensures var after := BodyStep(cfg, tid, r, g, l, s, ch);
            StillOk(cfg, tid, r, g, after.loc, after.store) && Framed(r.id, s, after.store)
  {
    hide BodyStep, LocOk;
    var after := BodyStep(cfg, tid, r, g, l, s, ch);
    if r.id !in s {
      GoneMeansNoWrite(cfg, tid, r, g, l, s, ch);
    } else if LocOk(cfg, tid, r, g, l, s) {
      StepIsKept(cfg, tid, r, g, l, s, ch);
    } else {
      var p :| OkWithWinner(cfg, tid, r, g, l, s, p);
      WinnerReadOnce(cfg, tid, r, g, l, s, p, ch);
      if l.SupWinner? {
        ExitIsOk(cfg, tid, r, g, s);
      } else {
        StepIsKept(cfg, tid, r, g, l, s[r.winner := p], ch);
        FramedWithout(r.id, r.winner, p, s, after.store);
        assert OkWithWinner(cfg, tid, r, g, after.loc, after.store, p);
      }
    }
  }

  lemma ExitIsOk(cfg: Config, tid: nat, r: Request, g: Gate, s: Store)
    requires r.Supersede?
    ensures LocOk(cfg, tid, r, g, Exit(None), s)
  {
  }

  lemma FramedWithout(id: Id, winner: Id, p: Payload, s: Store, s': Store)
    requires winner !in s && winner !in s' && Framed(id, s[winner := p], s'[winner := p]) && id != winner
    ensures Framed(id, s, s')
  {
    assert s.Keys == s[winner := p].Keys - {winner} && s'.Keys == s'[winner := p].Keys - {winner};
    forall i | i in s && i != id ensures s'[i] == s[i] {
      assert s[winner := p][i] == s[i] && s'[winner := p][i] == s'[i];
    }
  }

  // ---- what others do ----

  lemma StillOkIsLocal(cfg: Config, tid: nat, r: Request, g: Gate, l: Loc, a: Store, b: Store)
    requires AgreeOn(LockSet(r), a, b) && StillOk(cfg, tid, r, g, l, a)
    ensures StillOk(cfg, tid, r, g, l, b)
  {
    hide LocOk;
    assert Get(a, r.id) == Get(b, r.id);
    FactsAreLocal(cfg, tid, r, g, l, a, b);
    if r.id in a && !LocOk(cfg, tid, r, g, l, a) {
      var p :| OkWithWinner(cfg, tid, r, g, l, a, p);
      assert Get(a, r.winner) == Get(b, r.winner);
      FactsAreLocal(cfg, tid, r, g, l, a[r.winner := p], b[r.winner := p]);
      assert OkWithWinner(cfg, tid, r, g, l, b, p);
    }
  }

  /** A delete leaves every handler with what it may still rely on. */
  lemma DeleteLeavesStillOk(cfg: Config, tid: nat, r: Request, g: Gate, l: Loc, s: Store, gone: set<Id>)
    requires StillOk(cfg, tid, r, g, l, s)
    ensures StillOk(cfg, tid, r, g, l, s - gone)
  {
    hide LocOk;
    var s' := s - gone;
    if r.id in s' {
      if LocOk(cfg, tid, r, g, l, s) {
        if r.Supersede? && r.winner in s && r.winner in gone {
          FactsAreLocal(cfg, tid, r, g, l, s, s'[r.winner := s[r.winner]]);
          assert OkWithWinner(cfg, tid, r, g, l, s', s[r.winner]);
        } else {
          FactsAreLocal(cfg, tid, r, g, l, s, s');
        }
      } else {
        var p :| OkWithWinner(cfg, tid, r, g, l, s, p);
        FactsAreLocal(cfg, tid, r, g, l, s[r.winner := p], s'[r.winner := p]);
        assert OkWithWinner(cfg, tid, r, g, l, s', p);
      }
    }
  }

  lemma GateSurvives(r: Request, g: Gate, s: Store, s': Store)
    requires GateOk(r, g, s) && (r.id in s' ==> r.id in s && (KTier in s[r.id] ==> KTier in s'[r.id]))
    ensures GateOk(r, g, s')
  {
  }

  /** Another handler's step leaves a handler undisturbed: their records are locked apart. */
  lemma OtherStays(cfg: Config, s: State, t: nat, ch: Choice, u: nat)
    requires FlightInv(cfg, s) && CanStep(s, t) && u < |s.threads| && u != t
    requires Framed(s.threads[t].req.id, s.store, DoStep(cfg, s, t, ch).store)
    ensures FlightPc(cfg, u, s.threads[u], DoStep(cfg, s, t, ch).store)
  {
    hide DoStep, LocOk, StillOk, GateOk;
    var s', th, id := DoStep(cfg, s, t, ch), s.threads[u], s.threads[t].req.id;
    ThreadFrame(cfg, s, t, ch);
    assert FlightPc(cfg, u, th, s.store);
    if th.pc.Body? {
      MutualExclusion(s, t, u);
      OrderIsLockSet(th.req);
      OrderIsLockSet(s.threads[t].req);
      forall i | i in LockSet(th.req) ensures Get(s.store, i) == Get(s'.store, i) {
        assert s'.store != s.store ==> i != id;
      }
      StillOkIsLocal(cfg, u, th.req, th.pc.g, th.pc.l, s.store, s'.store);
      GateStable(th.req, th.pc.g, s.store, s'.store, id);
    } else if th.pc.Locking? {
      GateStable(th.req, th.pc.g, s.store, s'.store, id);
    } else if th.pc.Token? && th.req.Put? {
      GateStable(th.req, Gate(th.pc.tier, None), s.store, s'.store, id);
    }
  }

  lemma OwnStays(cfg: Config, s: State, t: nat, ch: Choice)
    requires FlightInv(cfg, s) && CanStep(s, t)
    ensures var s' := DoStep(cfg, s, t, ch);
            Framed(s.threads[t].req.id, s.store, s'.store) && FlightPc(cfg, t, s'.threads[t], s'.store)
  {
    var th, s' := s.threads[t], DoStep(cfg, s, t, ch);
    assert FlightPc(cfg, t, th, s.store);
    if th.pc.Body? {
      OwnBodyStays(cfg, s, t, ch);
    } else {
      ThreadFrame(cfg, s, t, ch);
      if th.pc.Arrive? || th.pc.Token? || th.pc.Canary? {
        OwnStepBeforeLock(cfg, s, t, ch);
        NotYetInside(cfg, s, t, ch);
      } else if th.pc.Locking? {
        StartIsOk(cfg, t, th.req, th.pc.g, s.store);
      }
    }
  }

  lemma NotYetInside(cfg: Config, s: State, t: nat, ch: Choice)
    requires CanStep(s, t) && (s.threads[t].pc.Arrive? || s.threads[t].pc.Token? || s.threads[t].pc.Canary?)
    ensures !DoStep(cfg, s, t, ch).threads[t].pc.Body?
  {
    var th := s.threads[t];
    match th.pc
    case Arrive => GateShape(s.store, th.req, None, Security.APut, ch);
    case Token(tier, action) => GateShape(s.store, th.req, tier, action, ch);
    case _ =>
  }

  lemma OwnBodyStays(cfg: Config, s: State, t: nat, ch: Choice)
    requires FlightInv(cfg, s) && CanStep(s, t) && s.threads[t].pc.Body?
    ensures var s' := DoStep(cfg, s, t, ch);
            Framed(s.threads[t].req.id, s.store, s'.store) && FlightPc(cfg, t, s'.threads[t], s'.store)
  {
    hide BodyStep, LocOk, StillOk, GateOk;
    var th := s.threads[t];
    var g, l := th.pc.g, th.pc.l;
    assert FlightPc(cfg, t, th, s.store);
    OwnStepStays(cfg, t, th.req, g, l, s.store, ch);
    GateStable(th.req, g, s.store, BodyStep(cfg, t, th.req, g, l, s.store, ch).store, th.req.id);
  }

  lemma StepStays(cfg: Config, s: State, t: nat, ch: Choice)
    requires FlightInv(cfg, s) && CanStep(s, t)
    ensures FlightInv(cfg, DoStep(cfg, s, t, ch))
    ensures Framed(s.threads[t].req.id, s.store, DoStep(cfg, s, t, ch).store)
  {
    hide DoStep, FlightPc, LocksOk;
    OwnStays(cfg, s, t, ch);
    ThreadFrame(cfg, s, t, ch);
    LocksKept(cfg, s, t, ch);
    var s' := DoStep(cfg, s, t, ch);
    forall u | 0 <= u < |s'.threads| ensures FlightPc(cfg, u, s'.threads[u], s'.store) {
      if u != t { OtherStays(cfg, s, t, ch, u); }
    }
  }

  // ---- arrivals, adds and deletes ----

  function Arrived(s: State, r: Request): State { s.(threads := s.threads + [Thread(r, Arrive, [])]) }

  lemma ArrivalStays(cfg: Config, s: State, r: Request)
    requires FlightInv(cfg, s)
    ensures FlightInv(cfg, Arrived(s, r))
  {
    hide FlightPc;
    var s' := Arrived(s, r);
    assert HeldBy(s') == HeldBy(s) + [{}];
    NewcomerOk(cfg, |s.threads|, r, s.store);
    forall u | 0 <= u < |s'.threads| ensures FlightPc(cfg, u, s'.threads[u], s'.store) {
      if u < |s.threads| { assert s'.threads[u] == s.threads[u]; }
    }
  }

  lemma NewcomerOk(cfg: Config, t: nat, r: Request, s: Store)
    ensures FlightPc(cfg, t, Thread(r, Arrive, []), s)
  {
  }

  lemma SameLocks(s: State, s': State)
    requires LocksOk(s) && s'.threads == s.threads && s'.locks == s.locks
    ensures LocksOk(s')
  {
    assert HeldBy(s') == HeldBy(s);
  }

  lemma DeleteStays(cfg: Config, s: State, gone: set<Id>)
    requires FlightInv(cfg, s)
    ensures FlightInv(cfg, s.(store := s.store - gone))
  {
    hide LocOk, StillOk, GateOk;
    SameLocks(s, s.(store := s.store - gone));
    forall u | 0 <= u < |s.threads| ensures FlightPc(cfg, u, s.threads[u], s.store - gone) {
      var th := s.threads[u];
      assert FlightPc(cfg, u, th, s.store);
      if th.pc.Body? {
        DeleteLeavesStillOk(cfg, u, th.req, th.pc.g, th.pc.l, s.store, gone);
        GateSurvives(th.req, th.pc.g, s.store, s.store - gone);
      } else if th.pc.Locking? {
        GateSurvives(th.req, th.pc.g, s.store, s.store - gone);
      } else if th.pc.Token? && th.req.Put? {
        GateSurvives(th.req, Gate(th.pc.tier, None), s.store, s.store - gone);
      }
    }
  }

  /** No request in flight names the id. */
  predicate Unnamed(s: State, id: Id) { forall t :: 0 <= t < |s.threads| ==> id !in LockSet(s.threads[t].req) }

  lemma AddStays(cfg: Config, s: State, id: Id, p: Payload)
    requires FlightInv(cfg, s) && Unnamed(s, id)
    ensures FlightInv(cfg, s.(store := s.store[id := p]))
  {
    hide LocOk, StillOk, GateOk;
    var store' := s.store[id := p];
    SameLocks(s, s.(store := store'));
    forall u | 0 <= u < |s.threads| ensures FlightPc(cfg, u, s.threads[u], store') {
      var th := s.threads[u];
      assert FlightPc(cfg, u, th, s.store) && id !in LockSet(th.req) && th.req.id in LockSet(th.req);
      if th.pc.Body? {
        StillOkIsLocal(cfg, u, th.req, th.pc.g, th.pc.l, s.store, store');
        GateSurvives(th.req, th.pc.g, s.store, store');
      } else if th.pc.Locking? {
        GateSurvives(th.req, th.pc.g, s.store, store');
      } else if th.pc.Token? && th.req.Put? {
        GateSurvives(th.req, Gate(th.pc.tier, None), s.store, store');
      }
    }
  }

  // ---- the forest ----

  /** Putting back a record without a link of its own changes no link. */
  lemma PutBackKeepsForest(s: Store, winner: Id, p: Payload)
    requires winner !in s && SupersededBy(p).None?
    ensures ForestOk(s[winner := p]) <==> ForestOk(s)
  {
    var s' := s[winner := p];
    forall a, b ensures LinkAt(s', a, b) <==> LinkAt(s, a, b) {}
    if ForestOk(s) { FewerLinksKeepAcyclic(s, s'); }
    if ForestOk(s') {
      FewerLinksKeepAcyclic(s', s);
      forall i | i in s && SupersededBy(s[i]).Some? ensures !Protected(EffTier(s[i])) { assert s'[i] == s[i]; }
    }
  }

  /** The one step whose winner is gone and that still writes: a link to a record that is not there. */
  lemma OrphanStep(cfg: Config, tid: nat, r: Request, g: Gate, l: Loc, s: Store, p: Payload, ch: Choice)
    requires r.Supersede? && r.id in s && r.winner !in s && LocOk(cfg, tid, r, g, l, s[r.winner := p])
    ensures var s' := BodyStep(cfg, tid, r, g, l, s, ch).store;
            s' != s ==> && l.SupWrite? && SupersededBy(p).None?
                        && s'[r.winner := p] == BodyStep(cfg, tid, r, g, l, s[r.winner := p], ch).store
                        && r.winner !in s'
  {
    WinnerReadOnce(cfg, tid, r, g, l, s, p, ch);
    if l.SupWrite? { ReadyWinner(cfg, r, s[r.winner := p]); }
  }

  lemma BodyKeepsForest(cfg: Config, tid: nat, r: Request, g: Gate, l: Loc, s: Store, ch: Choice)
    requires StillOk(cfg, tid, r, g, l, s) && GateOk(r, g, s) && ForestOk(s)
    ensures ForestOk(BodyStep(cfg, tid, r, g, l, s, ch).store)
  {
    hide BodyStep, LocOk, ForestOk, FaceEffect, Framed;
    var s' := BodyStep(cfg, tid, r, g, l, s, ch).store;
    if r.id !in s {
      GoneMeansNoWrite(cfg, tid, r, g, l, s, ch);
    } else if LocOk(cfg, tid, r, g, l, s) {
      StepIsKept(cfg, tid, r, g, l, s, ch);
      EffectKeepsForest(cfg, tid, r, g, l, s, s');
    } else {
      var p :| OkWithWinner(cfg, tid, r, g, l, s, p);
      OrphanStep(cfg, tid, r, g, l, s, p, ch);
      if s' != s {
        PutBackKeepsForest(s, r.winner, p);
        StepIsKept(cfg, tid, r, g, l, s[r.winner := p], ch);
        EffectKeepsForest(cfg, tid, r, g, l, s[r.winner := p], s'[r.winner := p]);
        PutBackKeepsForest(s', r.winner, p);
      }
    }
  }

  lemma BodyKeepsKin(cfg: Config, tid: nat, r: Request, g: Gate, l: Loc, s: Store, ch: Choice)
    requires StillOk(cfg, tid, r, g, l, s) && GateOk(r, g, s) && Kin(cfg.shared, s) && LeavesOwnership(r)
    ensures Kin(cfg.shared, BodyStep(cfg, tid, r, g, l, s, ch).store)
  {
    hide BodyStep, LocOk, Kin, Framed, FaceEffect;
    var s' := BodyStep(cfg, tid, r, g, l, s, ch).store;
    if r.id !in s {
      GoneMeansNoWrite(cfg, tid, r, g, l, s, ch);
    } else if LocOk(cfg, tid, r, g, l, s) {
      StepIsKept(cfg, tid, r, g, l, s, ch);
      EffectKeepsKin(cfg, tid, r, g, l, s, s');
    } else {
      var p :| OkWithWinner(cfg, tid, r, g, l, s, p);
      OrphanStep(cfg, tid, r, g, l, s, p, ch);
      if s' != s {
        StepIsKept(cfg, tid, r, g, l, s[r.winner := p], ch);
        OrphanKeepsKin(cfg, tid, r, l, s, s', p);
      }
    }
  }

  /** The new link leads to a missing record, so it is no link between existing ones. */
  lemma OrphanKeepsKin(cfg: Config, tid: nat, r: Request, l: Loc, s: Store, s': Store, p: Payload)
    requires r.Supersede? && l.SupWrite? && r.id in s && r.winner !in s && r.winner !in s' && Kin(cfg.shared, s)
    requires Framed(r.id, s[r.winner := p], s'[r.winner := p]) && FaceEffect(tid, r, l, s[r.winner := p], s'[r.winner := p])
    ensures Kin(cfg.shared, s')
  {
    FramedWithout(r.id, r.winner, p, s, s');
    assert s[r.winner := p][r.id] == s[r.id] && s'[r.winner := p][r.id] == s'[r.id];
    forall a, b | a in s' && b in s' && LinkAt(s', a, b) ensures Akin(cfg.shared, s'[a], s'[b]) {
      assert LinkAt(s, a, b) && Akin(cfg.shared, s[a], s[b]);
    }
  }

  /** A step of any request in flight keeps the forest, and kinship if the request re-brands nothing. */
  lemma StepKeepsForest(cfg: Config, s: State, t: nat, ch: Choice)
    requires FlightInv(cfg, s) && CanStep(s, t)
    ensures ForestOk(s.store) ==> ForestOk(DoStep(cfg, s, t, ch).store)
    ensures Kin(cfg.shared, s.store) && LeavesOwnership(s.threads[t].req) ==> Kin(cfg.shared, DoStep(cfg, s, t, ch).store)
  {
    hide BodyStep, ForestOk, Kin, StillOk, LeavesOwnership;
    var th := s.threads[t];
    if !th.pc.Body? {
      ThreadFrame(cfg, s, t, ch);
    } else {
      assert FlightPc(cfg, t, th, s.store);
      var g, l := th.pc.g, th.pc.l;
      if ForestOk(s.store) { BodyKeepsForest(cfg, t, th.req, g, l, s.store, ch); }
      if Kin(cfg.shared, s.store) && LeavesOwnership(th.req) { BodyKeepsKin(cfg, t, th.req, g, l, s.store, ch); }
    }
  }
}
