/** What each handler may rely on at each of its steps, and what each step does to the four facts the
    protocol is about: a record's tier, its supersession link, its brand and its user. */
module HandlerFacts {
  import opened Records
  import opened Security
  import opened Supersession
  import opened Carryover
  import opened Handlers

  datatype Face = Face(tier: Tier, link: Option<Id>, brand: string, user: string)

  function FaceOf(p: Payload): Face {
    Face(EffTier(p), SupersededBy(p), Brand(p), User(p))
  }

  /** The intent line a request must leave in the ledger before its protected write. */
  function Intent(tid: nat, r: Request): Option<Line> {
    match r
    case PatchTier(id, target, _, _, _) => Some(TierIntent(tid, id, target))
    case Supersede(id, winner, scope, _, _) => Some(SupersedeIntent(tid, id, winner, scope))
    case Unsupersede(id, scope, _) => Some(UnsupersedeIntent(tid, id, scope))
    case _ => None
  }

  /** What an intent line announces. */
  function Announced(line: Line, f: Face): Face {
    match line
    case TierIntent(_, _, tier) => f.(tier := tier)
    case SupersedeIntent(_, _, winner, scope) => if scope == Full then f.(link := Some(winner)) else f
    case UnsupersedeIntent(_, _, scope) => if scope == PartialScope then f else f.(link := None)
    case _ => f
  }

  /** The step that carries out the announced write. */
  predicate Writes(l: Loc) { l.TierWrite? || l.SupWrite? || l.UnsDelete? }

  // ---- what holds at each step ----

  /** What the gate established before the lock, as far as it still constrains the store. */
  predicate GateOk(r: Request, g: Gate, s: Store) {
    match r
    case Put(id, _, _, _, _) =>
      g.tier.Some? && id in s && KTier !in s[id] ==> g.tier == Some(Canonical)
    case PatchTier(_, target, _, _, _) => target == Canonical ==> g.signed == Some(APromote)
    case PatchMetadata(_, patch, _, _, _) => KTier !in patch && KSupersededBy !in patch
    case _ => true
  }

  /** Every key still expected is in the record with its value, or is the canonical tier of a record
      that has none. */
  predicate Carried(want: Payload, p: Payload) {
    forall k :: k in want ==>
      || (k in p && p[k] == want[k])
      || (k == KTier && k !in p && want[k] == VTier(Canonical))
  }

  predicate Within(missing: Payload, want: Payload) {
    forall k :: k in missing ==> k in want && missing[k] == want[k]
  }

  predicate PutVerifying(r: Request, want: Payload, attempt: nat, missing: Payload, s: Store) {
    r.id in s && Carried(want, s[r.id]) && Within(missing, want) && attempt < MAX_ATTEMPTS
  }

  predicate PutOk(r: Request, l: Loc, s: Store)
    requires r.Put?
  {
    match l
    case PutRead => true
    case PutWrite(pre) => pre == if r.id in s then s[r.id] else map[]
    case PutCheck(want, attempt, missing) => PutVerifying(r, want, attempt, missing, s)
    case PutRestore(want, attempt, missing) => PutVerifying(r, want, attempt, missing, s)
    case PutRecheck(want, attempt, missing) => PutVerifying(r, want, attempt, missing, s)
    case Append(line, next, failed) => line.MemoryUpdate? && next == Exit(None) && failed == Exit(None)
    case Exit(_) => true
    case _ => false
  }

  predicate NotSuperseded(id: Id, s: Store) { id in s ==> SupersededBy(s[id]).None? }

  /** The tier the record has now may move to the target without a demote token. */
  predicate UnsignedMoveAllowed(r: Request, s: Store)
    requires r.PatchTier?
  {
    r.id in s && TierChangeAction(FetchTier(s, r.id), r.target) != Some(ADemote)
  }

  predicate TierReady(r: Request, g: Gate, s: Store)
    requires r.PatchTier?
  {
    && (r.target != Canonical && g.signed != Some(ADemote) ==> UnsignedMoveAllowed(r, s))
    && (Protected(r.target) ==> NotSuperseded(r.id, s))
  }

  predicate TierOk(tid: nat, r: Request, g: Gate, l: Loc, s: Store)
    requires r.PatchTier?
  {
    match l
    case TierSuperseded => Protected(r.target)
    case TierRecheck => r.target != Canonical && (Protected(r.target) ==> NotSuperseded(r.id, s))
    case TierWrite => TierReady(r, g, s)
    case Append(line, next, failed) =>
      Some(line) == Intent(tid, r) && next == TierWrite && failed == Exit(None) && TierReady(r, g, s)
    case Exit(_) => true
    case _ => false
  }

  predicate SupersedeReady(cfg: Config, r: Request, s: Store)
    requires r.Supersede?
  {
    && r.id in s && r.winner in s
    && Precheck(r.id, r.winner, Some(s[r.id]), Some(s[r.winner]), r.scope, r.detail, r.reason, cfg.shared) == None
    && !IsNoop(s[r.id], r.winner, r.scope, r.detail)
  }

  predicate SupersedeWriteOk(cfg: Config, r: Request, patch: Payload, s: Store)
    requires r.Supersede?
  {
    && SupersedeReady(cfg, r, s)
    && KUpdatedAt in patch && patch[KUpdatedAt].VTime?
    && patch == SupersedePayload(s[r.id], r.winner, r.scope, r.detail, patch[KUpdatedAt].time)
  }

  predicate SupersedeOk(cfg: Config, tid: nat, r: Request, l: Loc, s: Store)
    requires r.Supersede?
  {
    match l
    case SupLoser => true
    case SupWinner(loser) => loser == Get(s, r.id)
    case SupWrite(patch) => SupersedeWriteOk(cfg, r, patch, s)
    case Append(line, next, failed) =>
      && Some(line) == Intent(tid, r) && next.SupWrite? && failed == Exit(None)
      && SupersedeWriteOk(cfg, r, next.patch, s)
    case Exit(_) => true
    case _ => false
  }

  predicate UnsupersedeReady(r: Request, s: Store)
    requires r.Unsupersede?
  {
    r.id in s && !Protected(EffTier(s[r.id])) && !r.scope.BadScope?
  }

  predicate UnsupersedeOk(tid: nat, r: Request, l: Loc, s: Store)
    requires r.Unsupersede?
  {
    match l
    case UnsRead => true
    case UnsDelete => UnsupersedeReady(r, s)
    case UnsStamp => true
    case Append(line, next, failed) =>
      Some(line) == Intent(tid, r) && next == UnsDelete && failed == Exit(None) && UnsupersedeReady(r, s)
    case Exit(_) => true
    case _ => false
  }

  predicate LocOk(cfg: Config, tid: nat, r: Request, g: Gate, l: Loc, s: Store) {
    match r
    case Put(_, _, _, _, _) => PutOk(r, l, s)
    case PatchTier(_, _, _, _, _) => TierOk(tid, r, g, l, s)
    case PatchMetadata(_, _, _, _, _) => l.MetaWrite? || l.Exit?
    case NliStamp(_, _) => l.StampWrite? || l.Exit?
    case Supersede(_, _, _, _, _) => SupersedeOk(cfg, tid, r, l, s)
    case Unsupersede(_, _, _) => UnsupersedeOk(tid, r, l, s)
  }

  // ---- what one step does ----

  /** Nothing but the subject record changes, no record appears or disappears, and a tier key stays. */
  predicate Framed(id: Id, s: Store, s': Store) {
    && s'.Keys == s.Keys
    && (forall i :: i in s && i != id ==> s'[i] == s[i])
    && (id in s && KTier in s[id] ==> KTier in s'[id])
  }

  predicate SameFace(id: Id, s: Store, s': Store) {
    id in s && id in s' ==> FaceOf(s'[id]) == FaceOf(s[id])
  }

  /** The subject's face after a step: changed only by the announced write, or by a metadata merge that
      names the brand or the user. */
  predicate FaceEffect(tid: nat, r: Request, l: Loc, s: Store, s': Store) {
    || SameFace(r.id, s, s')
    || (&& Writes(l) && r.id in s && r.id in s' && Intent(tid, r).Some?
        && FaceOf(s'[r.id]) == Announced(Intent(tid, r).value, FaceOf(s[r.id])))
    || (&& l.MetaWrite? && r.PatchMetadata? && r.id in s && r.id in s'
        && EffTier(s'[r.id]) == EffTier(s[r.id]) && SupersededBy(s'[r.id]) == SupersededBy(s[r.id])
        && (KBrand !in r.patch && KUserId !in r.patch ==> SameFace(r.id, s, s')))
  }

  predicate StepKeeps(cfg: Config, tid: nat, r: Request, g: Gate, l: Loc, s: Store, ch: Choice) {
    var after := BodyStep(cfg, tid, r, g, l, s, ch);
    && LocOk(cfg, tid, r, g, after.loc, after.store)
    && Framed(r.id, s, after.store)
    && FaceEffect(tid, r, l, s, after.store)
  }

  lemma StartIsOk(cfg: Config, tid: nat, r: Request, g: Gate, s: Store)
    requires GateOk(r, g, s)
    ensures LocOk(cfg, tid, r, g, StartLoc(tid, r, g), s)
  {
  }

  lemma UnlistedKeyKept(p: Payload, patch: Payload, k: Key)
    requires k !in patch
    ensures k in p + patch <==> k in p
    ensures k in p ==> (p + patch)[k] == p[k]
  {
  }

  lemma FaceKept(p: Payload, patch: Payload)
    requires KTier !in patch && KSupersededBy !in patch && KBrand !in patch && KUserId !in patch
    ensures FaceOf(p + patch) == FaceOf(p)
    ensures KTier in p ==> KTier in p + patch
  {
  }

  lemma RebuildKeepsFace(ix: TextIndex, p: Payload, text: string, now: Time)
    ensures var after := Rebuild(ix, p, ComputeCarryover(p), text, now);
            FaceOf(after) == FaceOf(p) && (KTier in p <==> KTier in after)
  {
    RebuiltKey(ix, p, text, now, KTier);
    RebuiltKey(ix, p, text, now, KSupersededBy);
    RebuiltKey(ix, p, text, now, KBrand);
    RebuiltKey(ix, p, text, now, KUserId);
  }

  lemma RebuildCarries(ix: TextIndex, p: Payload, tier: Option<Tier>, text: string, now: Time)
    requires tier.Some? && KTier !in p ==> tier == Some(Canonical)
    ensures Carried(Expected(p, tier), Rebuild(ix, p, ComputeCarryover(p), text, now))
  {
    var want := Expected(p, tier);
    forall k | k in want
      ensures var after := Rebuild(ix, p, ComputeCarryover(p), text, now);
              (k in after && after[k] == want[k]) || (k == KTier && k !in after && want[k] == VTier(Canonical))
    {
      RebuiltKey(ix, p, text, now, k);
    }
  }

  /** Restoring expected keys changes nothing but, at most, writing the tier a tier-less record reads as. */
  lemma RestoreKeepsFace(want: Payload, missing: Payload, p: Payload)
    requires Carried(want, p) && Within(missing, want)
    ensures Carried(want, p + missing)
    ensures FaceOf(p + missing) == FaceOf(p)
  {
  }

  lemma RetryIsOk(tid: nat, r: Request, want: Payload, attempt: nat, missing: Payload, s: Store)
    requires r.Put? && PutVerifying(r, want, attempt, missing, s)
    ensures PutOk(r, PutRetry(tid, r.id, want, attempt, missing), s)
  {
  }

  lemma MissingIsWithin(want: Payload, p: Option<Payload>)
    ensures Within(Missing(want, p), want)
  {
  }

  lemma PutWriteKeeps(cfg: Config, tid: nat, r: Request, g: Gate, l: Loc, s: Store, ch: Choice)
    requires r.Put? && l.PutWrite? && PutOk(r, l, s) && GateOk(r, g, s)
    ensures StepKeeps(cfg, tid, r, g, l, s, ch)
  {
    if r.id in s && ch.fault != Refused {
      var p := s[r.id];
      var p' := Rebuild(cfg.index, p, ComputeCarryover(p), r.text, ch.now);
      RebuildKeepsFace(cfg.index, p, r.text, ch.now);
      RebuildCarries(cfg.index, p, g.tier, r.text, ch.now);
      RebuiltPutKeeps(cfg, tid, r, g, l, s, ch, p');
    }
  }

  lemma PutWriteResult(cfg: Config, tid: nat, r: Request, g: Gate, l: Loc, s: Store, ch: Choice)
    requires r.Put? && l.PutWrite? && r.id in s && ch.fault != Refused
    ensures var want, after := Expected(l.pre, g.tier), BodyStep(cfg, tid, r, g, l, s, ch);
            && after.store == s[r.id := Rebuild(cfg.index, s[r.id], ComputeCarryover(l.pre), r.text, ch.now)]
            && (after.loc == Exit(None) || after.loc == PutFinish(tid, r.id, want, map[]) || after.loc == PutCheck(want, 0, map[]))
  {
    hide Rebuild, ComputeCarryover, Expected;
  }

  lemma RebuiltPutKeeps(cfg: Config, tid: nat, r: Request, g: Gate, l: Loc, s: Store, ch: Choice, p': Payload)
    requires r.Put? && l.PutWrite? && r.id in s && l.pre == s[r.id] && ch.fault != Refused
    requires p' == Rebuild(cfg.index, s[r.id], ComputeCarryover(s[r.id]), r.text, ch.now)
    requires FaceOf(p') == FaceOf(s[r.id]) && (KTier in s[r.id] <==> KTier in p')
    requires Carried(Expected(s[r.id], g.tier), p')
    ensures StepKeeps(cfg, tid, r, g, l, s, ch)
  {
    hide BodyStep, Rebuild, ComputeCarryover, Expected;
    PutWriteResult(cfg, tid, r, g, l, s, ch);
    assert PutVerifying(r, Expected(s[r.id], g.tier), 0, map[], BodyStep(cfg, tid, r, g, l, s, ch).store);
  }

  lemma PutRestoreKeeps(cfg: Config, tid: nat, r: Request, g: Gate, l: Loc, s: Store, ch: Choice)
    requires r.Put? && l.PutRestore? && PutOk(r, l, s)
    ensures StepKeeps(cfg, tid, r, g, l, s, ch)
  {
    RestoreKeepsFace(l.want, l.missing, s[r.id]);
    var after := BodyStep(cfg, tid, r, g, l, s, ch).store;
    assert PutVerifying(r, l.want, l.attempt, l.missing, after);
    RetryIsOk(tid, r, l.want, l.attempt, l.missing, after);
  }

  lemma PutCheckKeeps(cfg: Config, tid: nat, r: Request, g: Gate, l: Loc, s: Store, ch: Choice)
    requires r.Put? && (l.PutCheck? || l.PutRecheck?) && PutOk(r, l, s)
    ensures StepKeeps(cfg, tid, r, g, l, s, ch)
  {
    var found := Missing(l.want, Get(s, r.id));
    MissingIsWithin(l.want, Get(s, r.id));
    RetryIsOk(tid, r, l.want, l.attempt, l.missing, s);
    RetryIsOk(tid, r, l.want, l.attempt, found, s);
    assert BodyStep(cfg, tid, r, g, l, s, ch).store == s;
  }

  lemma PutStepKeeps(cfg: Config, tid: nat, r: Request, g: Gate, l: Loc, s: Store, ch: Choice)
    requires r.Put? && PutOk(r, l, s) && GateOk(r, g, s)
    ensures StepKeeps(cfg, tid, r, g, l, s, ch)
  {
    match l
    case PutWrite(_) => PutWriteKeeps(cfg, tid, r, g, l, s, ch);
    case PutRestore(_, _, _) => PutRestoreKeeps(cfg, tid, r, g, l, s, ch);
    case PutCheck(_, _, _) => PutCheckKeeps(cfg, tid, r, g, l, s, ch);
    case PutRecheck(_, _, _) => PutCheckKeeps(cfg, tid, r, g, l, s, ch);
    case _ =>
  }

  lemma TierStepKeeps(cfg: Config, tid: nat, r: Request, g: Gate, l: Loc, s: Store, ch: Choice)
    requires r.PatchTier? && TierOk(tid, r, g, l, s) && GateOk(r, g, s)
    ensures StepKeeps(cfg, tid, r, g, l, s, ch)
  {
    match l
    case TierWrite => TierWriteKeeps(cfg, tid, r, g, l, s, ch);
    case Append(_, _, _) => assert BodyStep(cfg, tid, r, g, l, s, ch).store == s;
    case Exit(_) =>
    case _ => TierReadKeeps(cfg, tid, r, g, l, s, ch);
  }

  lemma TierReadKeeps(cfg: Config, tid: nat, r: Request, g: Gate, l: Loc, s: Store, ch: Choice)
    requires r.PatchTier? && (l.TierSuperseded? || l.TierRecheck?) && TierOk(tid, r, g, l, s)
    ensures StepKeeps(cfg, tid, r, g, l, s, ch)
  {
    var after := TierStep(tid, r, g, l, s, ch);
    assert after.store == s;
    assert after.loc.Append? ==> TierReady(r, g, s);
  }

  lemma TierWriteKeeps(cfg: Config, tid: nat, r: Request, g: Gate, l: Loc, s: Store, ch: Choice)
    requires r.PatchTier? && l.TierWrite?
    ensures StepKeeps(cfg, tid, r, g, l, s, ch)
  {
    var after := BodyStep(cfg, tid, r, g, l, s, ch);
    assert after.loc.Exit?;
    if r.id in s {
      TierPatchFace(r, s[r.id], ch.now);
      assert after.store == s || after.store == s[r.id := s[r.id] + TierPatch(r, ch.now)];
    }
  }

  lemma TierPatchFace(r: Request, p: Payload, now: Time)
    requires r.PatchTier?
    ensures FaceOf(p + TierPatch(r, now)) == FaceOf(p).(tier := r.target)
    ensures KTier in p + TierPatch(r, now)
  {
  }

  lemma MergeStepKeeps(cfg: Config, tid: nat, r: Request, g: Gate, l: Loc, s: Store, ch: Choice)
    requires (r.PatchMetadata? || r.NliStamp?) && LocOk(cfg, tid, r, g, l, s) && GateOk(r, g, s)
    ensures StepKeeps(cfg, tid, r, g, l, s, ch)
  {
    if r.id in s {
      if r.NliStamp? {
        FaceKept(s[r.id], StampPatch(r, ch.now));
      } else {
        UnlistedKeyKept(s[r.id], MetaPatch(r, ch.now), KTier);
        UnlistedKeyKept(s[r.id], MetaPatch(r, ch.now), KSupersededBy);
        if KBrand !in r.patch && KUserId !in r.patch {
          FaceKept(s[r.id], MetaPatch(r, ch.now));
        }
      }
    }
  }

  lemma SupersedePatchFace(p: Payload, winner: Id, scope: Scope, detail: string, now: Time)
    requires scope == Full || scope == PartialScope
    ensures var after := p + SupersedePayload(p, winner, scope, detail, now);
            && FaceOf(after) == FaceOf(p).(link := if scope == Full then Some(winner) else SupersededBy(p))
            && (KTier in p ==> KTier in after)
  {
  }

  lemma SupWinnerKeeps(cfg: Config, tid: nat, r: Request, g: Gate, l: Loc, s: Store, ch: Choice)
    requires r.Supersede? && l.SupWinner? && SupersedeOk(cfg, tid, r, l, s)
    ensures StepKeeps(cfg, tid, r, g, l, s, ch)
  {
    var after := SupersedeStep(cfg, tid, r, l, s, ch);
    assert after.store == s;
    if after.loc.Append? {
      assert SupersedeReady(cfg, r, s);
      assert SupersedeWriteOk(cfg, r, after.loc.next.patch, s);
    }
  }

  lemma SupersedeStepKeeps(cfg: Config, tid: nat, r: Request, g: Gate, l: Loc, s: Store, ch: Choice)
    requires r.Supersede? && SupersedeOk(cfg, tid, r, l, s)
    ensures StepKeeps(cfg, tid, r, g, l, s, ch)
  {
    match l
    case SupWinner(_) => SupWinnerKeeps(cfg, tid, r, g, l, s, ch);
    case SupWrite(_) => SupWriteKeeps(cfg, tid, r, g, l, s, ch);
    case _ =>
  }

  lemma SupWriteKeeps(cfg: Config, tid: nat, r: Request, g: Gate, l: Loc, s: Store, ch: Choice)
    requires r.Supersede? && l.SupWrite? && SupersedeWriteOk(cfg, r, l.patch, s)
    ensures StepKeeps(cfg, tid, r, g, l, s, ch)
  {
    SupersedePatchFace(s[r.id], r.winner, r.scope, r.detail, l.patch[KUpdatedAt].time);
    var after := BodyStep(cfg, tid, r, g, l, s, ch);
    assert after.loc.Exit?;
    assert after.store == s || after.store == s[r.id := s[r.id] + l.patch];
  }

  lemma ClearedFace(p: Payload, scope: Scope)
    requires !scope.BadScope?
    ensures FaceOf(p - ClearKeys(scope)) == if scope == PartialScope then FaceOf(p) else FaceOf(p).(link := None)
    ensures KTier in p ==> KTier in p - ClearKeys(scope)
  {
  }

  lemma UnsupersedeStepKeeps(cfg: Config, tid: nat, r: Request, g: Gate, l: Loc, s: Store, ch: Choice)
    requires r.Unsupersede? && UnsupersedeOk(tid, r, l, s)
    ensures StepKeeps(cfg, tid, r, g, l, s, ch)
  {
    match l
    case UnsDelete => UnsDeleteKeeps(cfg, tid, r, g, l, s, ch);
    case UnsStamp =>
      if r.id in s { FaceKept(s[r.id], map[KUpdatedAt := VTime(ch.now)]); }
    case _ =>
  }

  lemma UnsDeleteKeeps(cfg: Config, tid: nat, r: Request, g: Gate, l: Loc, s: Store, ch: Choice)
    requires r.Unsupersede? && l.UnsDelete? && UnsupersedeReady(r, s)
    ensures StepKeeps(cfg, tid, r, g, l, s, ch)
  {
    ClearedFace(s[r.id], r.scope);
    var after := BodyStep(cfg, tid, r, g, l, s, ch);
    assert after.loc == Exit(None) || after.loc == UnsStamp;
    assert after.store == s || after.store == s[r.id := s[r.id] - ClearKeys(r.scope)];
  }

  /** Every step of every handler keeps what the handler relies on, touches only its subject record, and
      changes that record's tier or link only by the write its intent line announced. */
  lemma StepIsKept(cfg: Config, tid: nat, r: Request, g: Gate, l: Loc, s: Store, ch: Choice)
    requires LocOk(cfg, tid, r, g, l, s) && GateOk(r, g, s)
    ensures StepKeeps(cfg, tid, r, g, l, s, ch)
  {
    match r
    case Put(_, _, _, _, _) => PutStepKeeps(cfg, tid, r, g, l, s, ch);
    case PatchTier(_, _, _, _, _) => TierStepKeeps(cfg, tid, r, g, l, s, ch);
    case PatchMetadata(_, _, _, _, _) => MergeStepKeeps(cfg, tid, r, g, l, s, ch);
    case NliStamp(_, _) => MergeStepKeeps(cfg, tid, r, g, l, s, ch);
    case Supersede(_, _, _, _, _) => SupersedeStepKeeps(cfg, tid, r, g, l, s, ch);
    case Unsupersede(_, _, _) => UnsupersedeStepKeeps(cfg, tid, r, g, l, s, ch);
  }

  // ---- what a step depends on ----

  predicate AgreeOn(ids: set<Id>, a: Store, b: Store) {
    forall i :: i in ids ==> Get(a, i) == Get(b, i)
  }

  lemma SupersedeStepIsLocal(cfg: Config, tid: nat, r: Request, l: Loc, a: Store, b: Store, ch: Choice)
    requires r.Supersede? && Get(a, r.id) == Get(b, r.id) && Get(a, r.winner) == Get(b, r.winner)
    ensures var sa, sb := SupersedeStep(cfg, tid, r, l, a, ch), SupersedeStep(cfg, tid, r, l, b, ch);
            sa.loc == sb.loc && AgreeOn(LockSet(r), sa.store, sb.store)
  {
  }

  lemma PutStepIsLocal(cfg: Config, tid: nat, r: Request, g: Gate, l: Loc, a: Store, b: Store, ch: Choice)
    requires r.Put? && Get(a, r.id) == Get(b, r.id)
    ensures var sa, sb := PutStep(cfg, tid, r, g, l, a, ch), PutStep(cfg, tid, r, g, l, b, ch);
            sa.loc == sb.loc && Get(sa.store, r.id) == Get(sb.store, r.id)
  {
  }

  /** A step reads and writes only the records its request locks. */
  lemma StepIsLocal(cfg: Config, tid: nat, r: Request, g: Gate, l: Loc, a: Store, b: Store, ch: Choice)
    requires AgreeOn(LockSet(r), a, b)
    ensures BodyStep(cfg, tid, r, g, l, a, ch).loc == BodyStep(cfg, tid, r, g, l, b, ch).loc
    ensures AgreeOn(LockSet(r), BodyStep(cfg, tid, r, g, l, a, ch).store, BodyStep(cfg, tid, r, g, l, b, ch).store)
  {
    hide PutStep, SupersedeStep;
    assert Get(a, r.id) == Get(b, r.id);
    match r
    case Put(_, _, _, _, _) => PutStepIsLocal(cfg, tid, r, g, l, a, b, ch);
    case Supersede(_, winner, _, _, _) =>
      assert Get(a, winner) == Get(b, winner);
      SupersedeStepIsLocal(cfg, tid, r, l, a, b, ch);
    case _ =>
  }

  lemma StepLeavesOthers(cfg: Config, tid: nat, r: Request, g: Gate, l: Loc, s: Store, ch: Choice, i: Id)
    requires i != r.id
    ensures Get(BodyStep(cfg, tid, r, g, l, s, ch).store, i) == Get(s, i)
  {
  }

  lemma FactsAreLocal(cfg: Config, tid: nat, r: Request, g: Gate, l: Loc, a: Store, b: Store)
    requires AgreeOn(LockSet(r), a, b)
    ensures LocOk(cfg, tid, r, g, l, a) <==> LocOk(cfg, tid, r, g, l, b)
  {
    assert Get(a, r.id) == Get(b, r.id);
    assert r.Supersede? ==> Get(a, r.winner) == Get(b, r.winner);
  }
}
