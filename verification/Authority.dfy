/** Who may move a record between tiers, over every interleaving: although the gate reads the tier before
    the lock, no record leaves canonical or insight, or enters canonical, without its own signed token. */
module Authority {
  import opened Records
  import opened Security
  import opened Supersession
  import opened Handlers
  import opened HandlerFacts
  import opened Machine
  import ReplayStore

  /** Attempt k of the run was thread t's and was accepted, for this action on this record. */
  predicate ProvedBy(cfg: Config, nonces0: seq<ReplayStore.Line>, s: State, t: nat, action: Action, id: Id, k: int) {
    && 0 <= k < |s.attempts| == |s.askers|
    && s.askers[k] == t && s.attempts[k].action == action && s.attempts[k].id == id
    && ReplayStore.AcceptedAt(cfg.signed, nonces0, s.attempts, k)
  }

  predicate Proved(cfg: Config, nonces0: seq<ReplayStore.Line>, s: State, t: nat, action: Action, id: Id) {
    exists k :: 0 <= k < |s.attempts| && ProvedBy(cfg, nonces0, s, t, action, id, k)
  }

  /** A thread that believes an action was signed has the accepted attempt to show for it. */
  predicate Backed(cfg: Config, nonces0: seq<ReplayStore.Line>, s: State, t: nat)
    requires t < |s.threads|
  {
    var th := s.threads[t];
    match th.pc
    case Canary => Proved(cfg, nonces0, s, t, APromote, th.req.id)
    case Locking(_, g) => g.signed.Some? ==> Proved(cfg, nonces0, s, t, g.signed.value, th.req.id)
    case Body(g, _) => g.signed.Some? ==> Proved(cfg, nonces0, s, t, g.signed.value, th.req.id)
    case _ => true
  }

  predicate AuthorityInv(cfg: Config, nonces0: seq<ReplayStore.Line>, s: State) {
    && |s.attempts| == |s.askers|
    && s.nonces == ReplayStore.FileAfter(cfg.signed, nonces0, s.attempts)
    && forall t :: 0 <= t < |s.threads| ==> Backed(cfg, nonces0, s, t)
  }

  lemma ProofPersists(cfg: Config, nonces0: seq<ReplayStore.Line>, s: State, s': State, t: nat, action: Action, id: Id)
    requires |s.attempts| == |s.askers| && |s'.attempts| == |s'.askers|
    requires |s.attempts| <= |s'.attempts| && s'.attempts[..|s.attempts|] == s.attempts && s'.askers[..|s.askers|] == s.askers
    requires Proved(cfg, nonces0, s, t, action, id)
    ensures Proved(cfg, nonces0, s', t, action, id)
  {
    var k :| 0 <= k < |s.attempts| && ProvedBy(cfg, nonces0, s, t, action, id, k);
    ReplayStore.AcceptedInPrefix(cfg.signed, nonces0, s'.attempts, |s.attempts|, k);
    assert s'.attempts[k] == s'.attempts[..|s.attempts|][k] && s'.askers[k] == s'.askers[..|s.askers|][k];
    assert ProvedBy(cfg, nonces0, s', t, action, id, k);
  }

  lemma TokenStepProves(cfg: Config, nonces0: seq<ReplayStore.Line>, s: State, t: nat, ch: Choice)
    requires AuthorityInv(cfg, nonces0, s) && CanStep(s, t) && s.threads[t].pc.Token?
    ensures var s' := DoStep(cfg, s, t, ch);
            && |s'.attempts| == |s'.askers| == |s.attempts| + 1
            && s'.attempts[..|s.attempts|] == s.attempts && s'.askers[..|s.askers|] == s.askers
            && s'.nonces == ReplayStore.FileAfter(cfg.signed, nonces0, s'.attempts)
            && Backed(cfg, nonces0, s', t)
  {
    var s' := DoStep(cfg, s, t, ch);
    var th := s.threads[t];
    var n := |s.attempts|;
    assert s'.attempts[..n] == s.attempts;
    if s'.threads[t].pc != Done {
      assert ReplayStore.AcceptedAt(cfg.signed, nonces0, s'.attempts, n);
      assert ProvedBy(cfg, nonces0, s', t, th.pc.action, th.req.id, n);
    }
  }

  lemma StepKeepsAuthority(cfg: Config, nonces0: seq<ReplayStore.Line>, s: State, t: nat, ch: Choice)
    requires Inv(cfg, s) && AuthorityInv(cfg, nonces0, s) && CanStep(s, t)
    ensures AuthorityInv(cfg, nonces0, DoStep(cfg, s, t, ch))
  {
    var s' := DoStep(cfg, s, t, ch);
    StepFrame(cfg, s, t, ch);
    if s.threads[t].pc.Token? {
      TokenStepProves(cfg, nonces0, s, t, ch);
    } else {
      assert s'.attempts == s.attempts && s'.askers == s.askers && s'.nonces == s.nonces;
    }
    forall u | 0 <= u < |s'.threads| ensures Backed(cfg, nonces0, s', u) {
      if u != t || !s.threads[t].pc.Token? {
        BackingPersists(cfg, nonces0, s, t, ch, u);
      }
    }
  }

  lemma BackingPersists(cfg: Config, nonces0: seq<ReplayStore.Line>, s: State, t: nat, ch: Choice, u: nat)
    requires Inv(cfg, s) && AuthorityInv(cfg, nonces0, s) && CanStep(s, t) && u < |s.threads|
    requires u != t || !s.threads[t].pc.Token?
    requires var s' := DoStep(cfg, s, t, ch);
             |s'.attempts| == |s'.askers| && |s.attempts| <= |s'.attempts|
             && s'.attempts[..|s.attempts|] == s.attempts && s'.askers[..|s.askers|] == s.askers
    ensures Backed(cfg, nonces0, DoStep(cfg, s, t, ch), u)
  {
    var s' := DoStep(cfg, s, t, ch);
    StepFrame(cfg, s, t, ch);
    if u != t {
      BackingCarries(cfg, nonces0, s, s', u);
    } else {
      var pc' := s'.threads[t].pc;
      assert Backed(cfg, nonces0, s, t);
      if (pc'.Locking? || pc'.Body?) && pc'.g.signed.Some? {
        SignedIsInherited(cfg, s, t, ch);
        ProofPersists(cfg, nonces0, s, s', t, pc'.g.signed.value, s.threads[t].req.id);
      } else if pc'.Canary? {
        CanaryNeedsToken(cfg, s, t, ch);
      }
    }
  }

  lemma BackingCarries(cfg: Config, nonces0: seq<ReplayStore.Line>, s: State, s': State, u: nat)
    requires |s.attempts| == |s.askers| && |s'.attempts| == |s'.askers|
    requires |s.attempts| <= |s'.attempts| && s'.attempts[..|s.attempts|] == s.attempts && s'.askers[..|s.askers|] == s.askers
    requires u < |s.threads| && u < |s'.threads| && s'.threads[u] == s.threads[u] && Backed(cfg, nonces0, s, u)
    ensures Backed(cfg, nonces0, s', u)
  {
    var th := s.threads[u];
    if th.pc.Canary? {
      ProofPersists(cfg, nonces0, s, s', u, APromote, th.req.id);
    } else if (th.pc.Locking? || th.pc.Body?) && th.pc.g.signed.Some? {
      ProofPersists(cfg, nonces0, s, s', u, th.pc.g.signed.value, th.req.id);
    }
  }

  lemma CanaryNeedsToken(cfg: Config, s: State, t: nat, ch: Choice)
    requires CanStep(s, t) && DoStep(cfg, s, t, ch).threads[t].pc.Canary?
    ensures s.threads[t].pc.Token?
  {
    if s.threads[t].pc.Arrive? { GateShape(s.store, s.threads[t].req, None, APut, ch); }
  }

  /** Only the token check introduces a signature; every other step hands it on. */
  lemma SignedIsInherited(cfg: Config, s: State, t: nat, ch: Choice)
    requires CanStep(s, t) && !s.threads[t].pc.Token?
    requires var pc' := DoStep(cfg, s, t, ch).threads[t].pc; (pc'.Locking? || pc'.Body?) && pc'.g.signed.Some?
    ensures var pc, pc' := s.threads[t].pc, DoStep(cfg, s, t, ch).threads[t].pc;
            || (pc.Canary? && pc'.g.signed == Some(APromote))
            || ((pc.Locking? || pc.Body?) && pc.g.signed == pc'.g.signed)
  {
    if s.threads[t].pc.Arrive? { UnsignedAtArrival(s.store, s.threads[t].req, ch); }
  }

  lemma UnsignedAtArrival(s: Store, r: Request, ch: Choice)
    ensures GateRead(s, r, ch).Locking? ==> GateRead(s, r, ch).g.signed == None
  {
  }

  lemma {:induction false} ReachableAuthority(cfg: Config, s0: State, sched: seq<Move>)
    requires Initial(s0) && Runs(cfg, s0, sched)
    ensures AuthorityInv(cfg, s0.nonces, After(cfg, s0, sched))
  {
    if sched != [] {
      var front, last := sched[..|sched| - 1], sched[|sched| - 1];
      ReachableAuthority(cfg, s0, front);
      ReachableInv(cfg, s0, front);
      StepKeepsAuthority(cfg, s0.nonces, After(cfg, s0, front), last.t, last.ch);
    }
  }

  // ---- whose tokens these are ----

  predicate Carries(a: ReplayStore.Attempt, r: Request) {
    r.Put? || r.PatchTier? || r.PatchMetadata?
    ==> a.ts == r.auth.ts && a.nonce == r.auth.nonce && a.mac == r.auth.mac && a.reason == r.auth.reason
  }

  /** Every attempt carries the headers of the request that made it. */
  predicate AttemptsAreOwn(s: State) {
    && |s.attempts| == |s.askers|
    && forall k :: 0 <= k < |s.attempts| ==> s.askers[k] < |s.threads| && Carries(s.attempts[k], s.threads[s.askers[k]].req)
  }

  lemma StepKeepsOwn(cfg: Config, s: State, t: nat, ch: Choice)
    requires AttemptsAreOwn(s) && CanStep(s, t)
    ensures AttemptsAreOwn(DoStep(cfg, s, t, ch))
  {
    hide BodyStep, GateRead, AfterToken;
    ThreadFrame(cfg, s, t, ch);
    var th, s' := s.threads[t], DoStep(cfg, s, t, ch);
    if th.pc.Token? {
      assert s'.attempts == s.attempts + [AttemptOf(th.req, th.pc.action, ch)] && s'.askers == s.askers + [t];
    } else {
      assert s'.attempts == s.attempts && s'.askers == s.askers;
    }
    forall k | 0 <= k < |s'.attempts| ensures s'.askers[k] < |s'.threads| && Carries(s'.attempts[k], s'.threads[s'.askers[k]].req) {
      if k < |s.attempts| { assert s'.threads[s.askers[k]].req == s.threads[s.askers[k]].req; }
    }
  }

  lemma {:induction false} ReachableOwn(cfg: Config, s0: State, sched: seq<Move>)
    requires Initial(s0) && Runs(cfg, s0, sched)
    ensures AttemptsAreOwn(After(cfg, s0, sched))
  {
    hide DoStep, CanStep;
    if sched != [] {
      ReachableOwn(cfg, s0, sched[..|sched| - 1]);
      StepKeepsOwn(cfg, After(cfg, s0, sched[..|sched| - 1]), sched[|sched| - 1].t, sched[|sched| - 1].ch);
    }
  }

  /** A proof is a signature: the request itself carries a mac that signs this action on this record. */
  lemma ProofIsSigned(cfg: Config, s0: State, sched: seq<Move>, t: nat, action: Action, id: Id)
    requires Initial(s0) && Runs(cfg, s0, sched) && t < |After(cfg, s0, sched).threads|
    requires Proved(cfg, s0.nonces, After(cfg, s0, sched), t, action, id)
    requires var r := After(cfg, s0, sched).threads[t].req; r.Put? || r.PatchTier? || r.PatchMetadata?
    ensures var auth := After(cfg, s0, sched).threads[t].req.auth;
            cfg.signed(ReplayStore.Claim(auth.ts, auth.nonce, action, id, auth.reason), auth.mac)
  {
    var s := After(cfg, s0, sched);
    ReachableOwn(cfg, s0, sched);
    var k :| 0 <= k < |s.attempts| && ProvedBy(cfg, s0.nonces, s, t, action, id, k);
    assert Carries(s.attempts[k], s.threads[s.askers[k]].req);
    ReplayStore.AcceptedIsSigned(cfg.signed, ReplayStore.FileAfter(cfg.signed, s0.nonces, s.attempts[..k]), s.attempts[k]);
  }

  // ---- tier moves ----

  predicate TierMoves(s: Store, s': Store, id: Id) {
    id in s && id in s' && EffTier(s'[id]) != EffTier(s[id])
  }

  lemma TierMoveIsAWrite(cfg: Config, s: State, t: nat, ch: Choice, id: Id)
    requires Inv(cfg, s) && CanStep(s, t) && TierMoves(s.store, DoStep(cfg, s, t, ch).store, id)
    ensures var th := s.threads[t];
            && th.pc.Body? && th.pc.l.TierWrite? && th.req.PatchTier? && th.req.id == id
            && EffTier(DoStep(cfg, s, t, ch).store[id]) == th.req.target
            && TierReady(th.req, th.pc.g, s.store) && GateOk(th.req, th.pc.g, s.store)
  {
    hide BodyStep, GateRead, TokenStep, LockStep, UnlockStep, FinishStep;
    var th := s.threads[t];
    StepFrame(cfg, s, t, ch);
    StepIsKept(cfg, t, th.req, th.pc.g, th.pc.l, s.store, ch);
  }

  /** The tier gate, over every interleaving. If a step changes the effective tier of a record, it is
      the write of a PATCH /tier request for that record; a record enters canonical only if that request
      had a token accepted that signs "promote" for it, and leaves canonical or insight for anything else
      only if it had one that signs "demote" for it. */
  lemma TierMovesAreSigned(cfg: Config, s0: State, sched: seq<Move>, t: nat, ch: Choice, id: Id)
    requires Initial(s0) && Runs(cfg, s0, sched) && CanStep(After(cfg, s0, sched), t)
    requires TierMoves(After(cfg, s0, sched).store, DoStep(cfg, After(cfg, s0, sched), t, ch).store, id)
    ensures
      var s := After(cfg, s0, sched);
      var from, to := EffTier(s.store[id]), EffTier(DoStep(cfg, s, t, ch).store[id]);
      && s.threads[t].req.PatchTier? && s.threads[t].req.id == id && s.threads[t].req.target == to
      && (to == Canonical ==> Proved(cfg, s0.nonces, s, t, APromote, id))
      && (Protected(from) && to != Canonical ==> Proved(cfg, s0.nonces, s, t, ADemote, id))
      && var auth := s.threads[t].req.auth;
         && (to == Canonical ==> cfg.signed(ReplayStore.Claim(auth.ts, auth.nonce, APromote, id, auth.reason), auth.mac))
         && (from in {Canonical, Insight} && to !in {from, Canonical} ==>
               cfg.signed(ReplayStore.Claim(auth.ts, auth.nonce, ADemote, id, auth.reason), auth.mac))
  {
    var s := After(cfg, s0, sched);
    ReachableInv(cfg, s0, sched);
    ReachableAuthority(cfg, s0, sched);
    TierMoveIsAWrite(cfg, s, t, ch, id);
    assert Backed(cfg, s0.nonces, s, t);
    var from, to := EffTier(s.store[id]), s.threads[t].req.target;
    ProtectedTiersAreSigned(from, to);
    if to == Canonical { ProofIsSigned(cfg, s0, sched, t, APromote, id); }
    else if Protected(from) { ProofIsSigned(cfg, s0, sched, t, ADemote, id); }
  }

  // ---- writes to protected records ----

  /** A text or metadata write that needed a token, by the tier its gate saw, carries the signature for it. */
  predicate TokenHad(r: Request, g: Gate) {
    && (r.Put? ==> Verified(r).Some? && (NeedsToken(g.tier, APut, r.who, Verified(r).value) ==> g.signed == Some(APut)))
    && (r.PatchMetadata? ==>
          Verified(r).Some? && (NeedsToken(g.tier, APatchMetadata, r.who, Verified(r).value) ==> g.signed == Some(APatchMetadata)))
  }

  predicate GateHonoured(th: Thread) {
    match th.pc
    case Token(_, action) =>
      && (th.req.Put? ==> Verified(th.req).Some? && action == APut)
      && (th.req.PatchMetadata? ==> Verified(th.req).Some? && action == APatchMetadata)
    case Locking(_, g) => TokenHad(th.req, g)
    case Body(g, _) => TokenHad(th.req, g)
    case _ => true
  }

  lemma ArrivalHonoursGate(s: Store, r: Request, ch: Choice)
    ensures GateHonoured(Thread(r, GateRead(s, r, ch), []))
  {
    hide FetchTier, AuthorizeMetadataPatch;
  }

  lemma TokenHonoursGate(r: Request, tier: Option<Tier>, action: Action, ch: Choice)
    requires GateHonoured(Thread(r, Token(tier, action), []))
    ensures GateHonoured(Thread(r, AfterToken(r, tier, action, ch), []))
  {
    hide AuthorizeMetadataPatch, NeedsToken;
  }

  lemma SameGate(th: Thread, th': Thread)
    requires GateHonoured(Thread(th.req, th.pc, [])) && th'.req == th.req && th'.pc == th.pc
    ensures GateHonoured(th')
  {
  }

  lemma OwnStepHonoursGate(cfg: Config, s: State, t: nat, ch: Choice)
    requires CanStep(s, t) && GateHonoured(s.threads[t]) && (s.threads[t].pc.Canary? ==> s.threads[t].req.PatchTier?)
    ensures GateHonoured(DoStep(cfg, s, t, ch).threads[t])
  {
    hide BodyStep, GateRead, AfterToken, TokenHad;
    var th, th' := s.threads[t], DoStep(cfg, s, t, ch).threads[t];
    if th.pc.Arrive? {
      ArrivalHonoursGate(s.store, th.req, ch);
      SameGate(Thread(th.req, th'.pc, []), th');
    } else if th.pc.Token? {
      TokenHonoursGate(th.req, th.pc.tier, th.pc.action, ch);
      if th'.pc != Done { SameGate(Thread(th.req, th'.pc, []), th'); }
    } else if th.pc.Canary? {
      PromotionNeedsNoOther(th.req, Gate(None, Some(APromote)));
    }
  }

  lemma PromotionNeedsNoOther(r: Request, g: Gate)
    requires r.PatchTier?
    ensures TokenHad(r, g)
  {
  }

  lemma {:induction false} ReachableGates(cfg: Config, s0: State, sched: seq<Move>, t: nat)
    requires Initial(s0) && Runs(cfg, s0, sched) && t < |s0.threads|
    ensures var s := After(cfg, s0, sched); |s.threads| == |s0.threads| && GateHonoured(s.threads[t])
  {
    hide GateHonoured;
    if sched == [] {
      NoGateYet(s0.threads[t]);
    } else {
      var front, last := sched[..|sched| - 1], sched[|sched| - 1];
      ReachableGates(cfg, s0, front, t);
      ReachableInv(cfg, s0, front);
      StepFrame(cfg, After(cfg, s0, front), last.t, last.ch);
      if last.t == t { OwnStepHonoursGate(cfg, After(cfg, s0, front), t, last.ch); }
    }
  }

  lemma NoGateYet(th: Thread)
    requires th.pc == Arrive
    ensures GateHonoured(th)
  {
  }

  /** Over every interleaving, a PUT or PATCH /metadata request inside its locked region, whose gate saw the
      record in canonical or insight, had a token accepted that signs that action on that record; the only
      exceptions are the labels proved with the service key that the policy names. */
  lemma ProtectedWritesAreSigned(cfg: Config, s0: State, sched: seq<Move>, t: nat)
    requires Initial(s0) && Runs(cfg, s0, sched) && t < |s0.threads|
    requires var th := After(cfg, s0, sched).threads; t < |th| && th[t].pc.Body? && (th[t].req.Put? || th[t].req.PatchMetadata?)
    requires var th := After(cfg, s0, sched).threads[t];
             th.pc.g.tier.Some? && Protected(th.pc.g.tier.value)
    ensures var s := After(cfg, s0, sched);
            var r, tier := s.threads[t].req, s.threads[t].pc.g.tier.value;
            var proven := Verified(r) == Some(true);
            var action := if r.Put? then APut else APatchMetadata;
            || (&& Proved(cfg, s0.nonces, s, t, action, r.id)
                && cfg.signed(ReplayStore.Claim(r.auth.ts, r.auth.nonce, action, r.id, r.auth.reason), r.auth.mac))
            || (tier == Insight && proven && InsightAllowed(r.who))
            || (r.PatchMetadata? && proven && Trusted(r.who))
  {
    ReachableGates(cfg, s0, sched, t);
    ReachableAuthority(cfg, s0, sched);
    var s := After(cfg, s0, sched);
    assert Backed(cfg, s0.nonces, s, t);
    var action := if s.threads[t].req.Put? then APut else APatchMetadata;
    if s.threads[t].pc.g.signed == Some(action) { ProofIsSigned(cfg, s0, sched, t, action, s.threads[t].req.id); }
  }

  /** A token buys one move: two requests never stand on the same (ts, nonce), as long as the nonce file
      is reached within 300 s of the skew check and its clock does not go back. */
  lemma TokensAreNotShared(cfg: Config, s0: State, sched: seq<Move>, t: nat, u: nat, a: Action, b: Action, i: Id, j: Id,
                           k: nat, m: nat)
    requires Initial(s0) && Runs(cfg, s0, sched)
    requires var s := After(cfg, s0, sched);
             && ReplayStore.ClockAdvances(s.attempts)
             && (forall n :: 0 <= n < |s.attempts| ==> s.attempts[n].gcNow - s.attempts[n].skewNow <= ReplayStore.MAX_SKEW_S)
             && ProvedBy(cfg, s0.nonces, s, t, a, i, k) && ProvedBy(cfg, s0.nonces, s, u, b, j, m)
    requires t != u
    ensures var s := After(cfg, s0, sched);
            s.attempts[k].nonce != s.attempts[m].nonce || s.attempts[k].ts != s.attempts[m].ts
  {
    var s := After(cfg, s0, sched);
    if k < m { ReplayStore.TokenAcceptedOnce(cfg.signed, s0.nonces, s.attempts, k, m); }
    else { ReplayStore.TokenAcceptedOnce(cfg.signed, s0.nonces, s.attempts, m, k); }
  }
}
