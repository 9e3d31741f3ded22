/** What each gate makes of a request before any lock is taken: refused, let through, or asked for a token.
    Stated by the stored tier key and the caller's label, whatever the order of the checks. */
module Gates {
  import opened Records
  import opened Security
  import opened Handlers
  import opened Machine
  import ReplayStore

  /** The label is a claim that the service key did not prove. */
  predicate Unproven(who: Label, keyOk: bool) { who in LABELS_TO_PROVE && !keyOk }

  predicate HasTier(s: Store, id: Id, tiers: set<Tier>) { id in s && KTier in s[id] && s[id][KTier].VTier? && s[id][KTier].tier in tiers }

  /** The tier a gate goes on with: none for a missing record, canonical for a record without one. */
  function TierSeen(s: Store, id: Id): Option<Tier> {
    if id !in s then None
    else if KTier in s[id] && s[id][KTier].VTier? then Some(s[id][KTier].tier) else Some(Canonical)
  }

  /** The PUT gate: a claimed label and a tier that cannot be read are refused, a locked record needs a token for "put", everything
      else goes on. */
  lemma PutGate(s: Store, r: Request, ch: Choice)
    requires r.Put?
    ensures GateRead(s, r, ch)
            == if Unproven(r.who, r.keyOk) || ch.fault != Fine || ch.refuse then Done
               else if Locked(s, r.id, r.who, r.keyOk) then Token(TierSeen(s, r.id), APut)
               else Locking(0, Gate(TierSeen(s, r.id), None))
  {
    TokenNeededIff(s, r.id, APut, r.who, r.keyOk);
  }

  /** The PATCH /metadata gate: no claimed label, no tier key, no empty patch, no unread tier; a locked record needs a
      token, but for the two proven jobs; and every key must be the label's to write. */
  lemma MetadataGateIs(s: Store, r: Request, ch: Choice)
    requires r.PatchMetadata?
    ensures var asks := Locked(s, r.id, r.who, r.keyOk) && !(r.keyOk && r.who in {StampRetired, ContradictionSweep});
            var actor := if r.who in LABELS_TO_PROVE && r.keyOk then r.who else NoLabel;
            GateRead(s, r, ch)
            == if Unproven(r.who, r.keyOk) || KTier in r.patch || r.patch == map[] || ch.fault != Fine then Done
               else if asks then Token(TierSeen(s, r.id), APatchMetadata)
               else if (forall k :: k in r.patch ==> MayWriteKey(k, actor))
                       && (TierSeen(s, r.id) == Some(Canonical) ==> KSupersededBy !in r.patch && KContradicts !in r.patch)
               then Locking(0, Gate(TierSeen(s, r.id), None))
               else Done
  {
    TokenNeededIff(s, r.id, APatchMetadata, r.who, r.keyOk);
    hide MayWriteKey, AuthorizeMetadataPatch, NeedsToken;
    PatchAllowedIff(TierSeen(s, r.id), r.who, Verified(r) == Some(true), r.patch.Keys);
  }

  lemma LeavesIff(s: Store, id: Id, target: Tier)
    requires id in s && target != Canonical
    ensures FetchTier(s, id) == TierSeen(s, id)
    ensures TierChangeAction(FetchTier(s, id), target) == Some(ADemote) <==> !HasTier(s, id, {Evidence, Temporal, Stable, target})
  {
    var tier := EffTier(s[id]);
    assert tier in {Evidence, Temporal, Stable} || tier == Insight || tier == Canonical;
  }

  /** The PATCH /tier gate: into canonical only the two user paths, with a reason and a nonce, against a
      "promote" token; out of canonical or insight against a "demote" token with a reason; into insight only
      the proven consolidators; everything else goes on unsigned. */
  lemma TierGateIs(s: Store, r: Request, ch: Choice)
    requires r.PatchTier?
    ensures var leaves := !HasTier(s, r.id, {Evidence, Temporal, Stable, r.target});
            GateRead(s, r, ch)
            == if Unproven(r.who, r.keyOk) then Done
               else if r.target == Canonical then
                 if r.who in {UserDirect, DreamAutopromote} && r.auth.reason != "" && r.auth.nonce != ""
                 then Token(None, APromote) else Done
               else if r.id !in s || ch.fault != Fine || (leaves && r.auth.reason == "") then Done
               else if leaves then Token(TierSeen(s, r.id), ADemote)
               else if r.target == Insight && r.who !in CONSOLIDATORS then Done
               else Locking(0, Gate(TierSeen(s, r.id), None))
  {
    if r.target != Canonical && r.id in s { LeavesIff(s, r.id, r.target); }
  }

  /** With its token accepted a request goes on, with the signature noted: to its lock, or for a promotion to
      the check of the text it promotes. */
  lemma TokenOpens(r: Request, tier: Option<Tier>, ch: Choice)
    ensures r.Put? && !ch.refuse ==> AfterToken(r, tier, APut, ch) == Locking(0, Gate(tier, Some(APut)))
    ensures r.PatchTier? ==>
              && AfterToken(r, tier, APromote, ch) == Canary
              && AfterToken(r, tier, ADemote, ch)
                 == if r.target == Insight && r.who !in CONSOLIDATORS then Done else Locking(0, Gate(tier, Some(ADemote)))
    ensures r.PatchMetadata? ==>
              AfterToken(r, tier, APatchMetadata, ch)
              == if (forall k :: k in r.patch ==> MayWriteKey(k, if r.who in LABELS_TO_PROVE && r.keyOk then r.who else NoLabel))
                    && (tier == Some(Canonical) ==> KSupersededBy !in r.patch && KContradicts !in r.patch)
                 then Locking(0, Gate(tier, Some(APatchMetadata))) else Done
  {
    if r.PatchMetadata? {
      hide MayWriteKey, AuthorizeMetadataPatch;
      PatchAllowedIff(tier, r.who, Verified(r) == Some(true), r.patch.Keys);
    }
  }

  /** The token step: the attempt that carries the request's own headers is made, and the request goes on if it
      is accepted and ends if it is not. */
  lemma TokenStepIs(cfg: Config, s: State, t: nat, ch: Choice)
    requires CanStep(s, t) && s.threads[t].pc.Token?
    requires s.threads[t].req.Put? || s.threads[t].req.PatchTier? || s.threads[t].req.PatchMetadata?
    ensures var r, pc, s' := s.threads[t].req, s.threads[t].pc, DoStep(cfg, s, t, ch);
            var a := ReplayStore.Attempt(r.auth.ts, r.auth.nonce, r.auth.mac, pc.action, r.id, r.auth.reason,
                                         ch.skewNow, ch.gcNow, ch.size);
            && s'.attempts == s.attempts + [a] && s'.askers == s.askers + [t]
            && s'.nonces == ReplayStore.AfterAttempt(cfg.signed, s.nonces, a)
            && s'.threads[t].pc == if ReplayStore.Accepts(cfg.signed, s.nonces, a) then AfterToken(r, pc.tier, pc.action, ch) else Done
  {
    hide AfterToken, ReplayStore.Accepts, ReplayStore.AfterAttempt;
  }

  /** The text check of a promotion: passed, the request goes on with its signature. */
  lemma CanaryStepIs(cfg: Config, s: State, t: nat, ch: Choice)
    requires CanStep(s, t) && s.threads[t].pc.Canary?
    ensures DoStep(cfg, s, t, ch).threads[t].pc
            == if ch.fault == Fine && !ch.refuse then Locking(0, Gate(None, Some(APromote))) else Done
  {
    hide BodyStep, GateRead, AfterToken;
  }
}
