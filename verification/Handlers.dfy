/** The six handlers that read, change and write back a payload, as the steps they take while they hold
    the record locks. One step is one call of the store or of the ledger. */
module Handlers {
  import opened Records
  import opened Security
  import opened Supersession
  import opened Carryover
  import ReplayStore

  // The user-direct headers of a request, with the reason they sign.
  datatype Auth = Auth(ts: Time, nonce: string, mac: string, reason: string)

  datatype Request =
    | Put(id: Id, text: string, who: Label, keyOk: bool, auth: Auth)
    | PatchTier(id: Id, target: Tier, who: Label, keyOk: bool, auth: Auth)
    | PatchMetadata(id: Id, patch: Payload, who: Label, keyOk: bool, auth: Auth)
    | NliStamp(id: Id, canonical: Id)
    | Supersede(id: Id, winner: Id, scope: Scope, detail: string, reason: string)
    | Unsupersede(id: Id, scope: Scope, reason: string)

  // How one foreign call ends: answered, refused before it applied, or applied with the answer lost.
  datatype Fault = Fine | Refused | Lost

  // Everything a step takes from outside: the call's outcome, the clocks, the size of the nonce file, and
  // whether a check the model does not interpret (text cap, imperative canary, empty reason) refuses.
  datatype Choice = Choice(fault: Fault, now: Time, refuse: bool, skewNow: Time, gcNow: Time, size: nat)

  datatype Config = Config(signed: ReplayStore.Signer, shared: set<string>, index: TextIndex)

  // What the handler knows when it reaches its lock: the tier the gate read, the action it saw signed.
  datatype Gate = Gate(tier: Option<Tier>, signed: Option<Action>)

  datatype Line =
    | TierIntent(tid: nat, id: Id, tier: Tier)
    | TierDone(tid: nat, id: Id, tier: Tier)
    | SupersedeIntent(tid: nat, id: Id, winner: Id, scope: Scope)
    | SupersedeDone(tid: nat, id: Id, winner: Id, scope: Scope)
    | UnsupersedeIntent(tid: nat, id: Id, scope: Scope)
    | UnsupersedeDone(tid: nat, id: Id, scope: Scope)
    | MemoryUpdate(tid: nat, id: Id)
    | MetadataMerge(tid: nat, id: Id)
    | NliFlag(tid: nat, id: Id, canonical: Id)

  datatype Loc =
    | PutRead
    | PutWrite(pre: Payload)
    | PutCheck(want: Payload, attempt: nat, missing: Payload)
    | PutRestore(want: Payload, attempt: nat, missing: Payload)
    | PutRecheck(want: Payload, attempt: nat, missing: Payload)
    | TierSuperseded
    | TierRecheck
    | TierWrite
    | MetaWrite
    | StampWrite
    | SupLoser
    | SupWinner(loser: Option<Payload>)
    | SupWrite(patch: Payload)
    | UnsRead
    | UnsDelete
    | UnsStamp
    | Append(line: Line, next: Loc, failed: Loc)   // takes the ledger lock, appends, releases it
    | Exit(after: Option<Line>)                    // leaves the locked region; `after` is appended outside

  datatype Local = Local(loc: Loc, store: Store)

  /** The records a request locks, in the order it locks them. */
  function LockOrder(r: Request): seq<Id>
    ensures |LockOrder(r)| > 0
    ensures forall i, j :: 0 <= i < j < |LockOrder(r)| ==> LockOrder(r)[i] < LockOrder(r)[j]
  {
    if r.Supersede? && r.winner != r.id
    then if r.winner < r.id then [r.winner, r.id] else [r.id, r.winner]
    else [r.id]
  }

  function LockSet(r: Request): set<Id> {
    if r.Supersede? then {r.id, r.winner} else {r.id}
  }

  // ---- PUT: rebuild the payload, then verify that the carried keys landed ----

  const MAX_ATTEMPTS := 4

  function Missing(want: Payload, p: Option<Payload>): Payload {
    map k | k in want && (p.None? || k !in p.value) :: want[k]
  }

  /** The carried keys, and the gate's tier when the record carried none. */
  function Expected(pre: Payload, tier: Option<Tier>): Payload {
    var carry := ComputeCarryover(pre);
    if tier.Some? && KTier !in carry then carry[KTier := VTier(tier.value)] else carry
  }

  function PutFinish(tid: nat, id: Id, want: Payload, missing: Payload): Loc {
    if missing != map[] && KTier in want && want[KTier].VTier? then Exit(None)   // 500: a tiered record lost keys
    else Append(MemoryUpdate(tid, id), Exit(None), Exit(None))
  }

  function PutRetry(tid: nat, id: Id, want: Payload, attempt: nat, missing: Payload): Loc {
    if attempt + 1 < MAX_ATTEMPTS then PutCheck(want, attempt + 1, missing) else PutFinish(tid, id, want, missing)
  }

  function PutStep(cfg: Config, tid: nat, r: Request, g: Gate, l: Loc, s: Store, ch: Choice): Local
    requires r.Put?
  {
    match l
    case PutRead =>
      if ch.fault != Fine then Local(Exit(None), s)
      else Local(PutWrite(if r.id in s then s[r.id] else map[]), s)
    case PutWrite(pre) =>
      if ch.fault == Refused || r.id !in s then Local(Exit(None), s)
      else
        var s' := s[r.id := Rebuild(cfg.index, s[r.id], ComputeCarryover(pre), r.text, ch.now)];
        var want := Expected(pre, g.tier);
        if ch.fault == Lost then Local(Exit(None), s')
        else if want == map[] then Local(PutFinish(tid, r.id, want, map[]), s')
        else Local(PutCheck(want, 0, map[]), s')
    case PutCheck(want, attempt, missing) =>
      if ch.fault != Fine then Local(PutRetry(tid, r.id, want, attempt, missing), s)
      else
        var found := Missing(want, Get(s, r.id));
        Local(if found == map[] then PutFinish(tid, r.id, want, map[]) else PutRestore(want, attempt, found), s)
    case PutRestore(want, attempt, missing) =>
      var s' := if ch.fault == Refused then s else SetPayload(s, r.id, missing);
      Local(if ch.fault != Fine then PutRetry(tid, r.id, want, attempt, missing)
            else PutRecheck(want, attempt, missing), s')
    case PutRecheck(want, attempt, missing) =>
      if ch.fault != Fine then Local(PutRetry(tid, r.id, want, attempt, missing), s)
      else
        var found := Missing(want, Get(s, r.id));
        Local(if found == map[] then PutFinish(tid, r.id, want, map[])
              else PutRetry(tid, r.id, want, attempt, found), s)
    case _ => Local(Exit(None), s)
  }

  // ---- PATCH /tier: re-check under the lock, intent line, write ----

  function TierPatch(r: Request, now: Time): Payload
    requires r.PatchTier?
  {
    map[KTier := VTier(r.target), KUpdatedAt := VTime(now), KTierActor := VText(LabelName(r.who))]
  }

  function TierAppend(tid: nat, r: Request): Loc
    requires r.PatchTier?
  {
    Append(TierIntent(tid, r.id, r.target), TierWrite, Exit(None))
  }

  function TierAfterPromotionCheck(tid: nat, r: Request, g: Gate): Loc
    requires r.PatchTier?
  {
    if r.target != Canonical && g.signed != Some(ADemote) then TierRecheck else TierAppend(tid, r)
  }

  function TierStep(tid: nat, r: Request, g: Gate, l: Loc, s: Store, ch: Choice): Local
    requires r.PatchTier?
  {
    match l
    case TierSuperseded =>
      Local(if ch.fault != Fine || PromotionRefused(Get(s, r.id), r.target) then Exit(None)
            else TierAfterPromotionCheck(tid, r, g), s)
    case TierRecheck =>
      var now := FetchTier(s, r.id);
      Local(if ch.fault != Fine || now.None? || TierChangeAction(now, r.target) == Some(ADemote) then Exit(None)
            else TierAppend(tid, r), s)
    case TierWrite =>
      var s' := if ch.fault == Refused then s else SetPayload(s, r.id, TierPatch(r, ch.now));
      Local(Exit(if ch.fault == Fine then Some(TierDone(tid, r.id, r.target)) else None), s')
    case _ => Local(Exit(None), s)
  }

  // ---- PATCH /metadata and the NLI stamp: one merge ----

  function MergeStep(s: Store, id: Id, patch: Payload, done: Line, ch: Choice): Local {
    Local(Exit(if ch.fault == Fine then Some(done) else None),
          if ch.fault == Refused then s else SetPayload(s, id, patch))
  }

  function MetaPatch(r: Request, now: Time): Payload
    requires r.PatchMetadata?
  {
    r.patch + map[KUpdatedAt := VTime(now)]
  }

  function StampPatch(r: Request, now: Time): Payload
    requires r.NliStamp?
  {
    map[KContradicts := VId(r.canonical), KNliGateCheckedAt := VTime(now), KUpdatedAt := VTime(now)]
  }

  // ---- supersede and unsupersede ----

  function SupersedeStep(cfg: Config, tid: nat, r: Request, l: Loc, s: Store, ch: Choice): Local
    requires r.Supersede?
  {
    match l
    case SupLoser =>
      Local(if ch.fault != Fine then Exit(None) else SupWinner(Get(s, r.id)), s)
    case SupWinner(loser) =>
      if ch.fault != Fine
         || Precheck(r.id, r.winner, loser, Get(s, r.winner), r.scope, r.detail, r.reason, cfg.shared).Some?
         || IsNoop(loser.value, r.winner, r.scope, r.detail)
      then Local(Exit(None), s)
      else Local(Append(SupersedeIntent(tid, r.id, r.winner, r.scope),
                        SupWrite(SupersedePayload(loser.value, r.winner, r.scope, r.detail, ch.now)),
                        Exit(None)), s)
    case SupWrite(patch) =>
      MergeStep(s, r.id, patch, SupersedeDone(tid, r.id, r.winner, r.scope), ch)
    case _ => Local(Exit(None), s)
  }

  function UnsupersedeStep(tid: nat, r: Request, l: Loc, s: Store, ch: Choice): Local
    requires r.Unsupersede?
  {
    match l
    case UnsRead =>
      var loser := Get(s, r.id);
      if ch.fault != Fine || ClearPrecheck(loser, r.scope, r.reason).Some? || !HasSupersession(loser.value, r.scope)
      then Local(Exit(None), s)
      else Local(Append(UnsupersedeIntent(tid, r.id, r.scope), UnsDelete, Exit(None)), s)
    case UnsDelete =>
      Local(if ch.fault != Fine then Exit(None) else UnsStamp,
            if ch.fault == Refused then s else DeleteKeys(s, r.id, ClearKeys(r.scope)))
    case UnsStamp =>
      MergeStep(s, r.id, map[KUpdatedAt := VTime(ch.now)], UnsupersedeDone(tid, r.id, r.scope), ch)
    case _ => Local(Exit(None), s)
  }

  // ---- the locked region of any request ----

  function StartLoc(tid: nat, r: Request, g: Gate): Loc {
    match r
    case Put(_, _, _, _, _) => PutRead
    case PatchTier(_, target, _, _, _) =>
      if target == Canonical || target == Insight then TierSuperseded else TierAfterPromotionCheck(tid, r, g)
    case PatchMetadata(_, _, _, _, _) => MetaWrite
    case NliStamp(_, _) => StampWrite
    case Supersede(_, _, _, _, _) => SupLoser
    case Unsupersede(_, _, _) => UnsRead
  }

  /** One step under the lock. The store effect of an append is nil; what it adds to the ledger is in Wrote. */
  function BodyStep(cfg: Config, tid: nat, r: Request, g: Gate, l: Loc, s: Store, ch: Choice): Local {
    if l.Exit? then Local(l, s)
    else if l.Append? then Local(if ch.fault == Fine then l.next else l.failed, s)
    else
      match r
      case Put(_, _, _, _, _) => PutStep(cfg, tid, r, g, l, s, ch)
      case PatchTier(_, _, _, _, _) => TierStep(tid, r, g, l, s, ch)
      case PatchMetadata(id, _, _, _, _) =>
        if l.MetaWrite? then MergeStep(s, id, MetaPatch(r, ch.now), MetadataMerge(tid, id), ch) else Local(Exit(None), s)
      case NliStamp(id, canonical) =>
        if l.StampWrite? then MergeStep(s, id, StampPatch(r, ch.now), NliFlag(tid, id, canonical), ch) else Local(Exit(None), s)
      case Supersede(_, _, _, _, _) => SupersedeStep(cfg, tid, r, l, s, ch)
      case Unsupersede(_, _, _) => UnsupersedeStep(tid, r, l, s, ch)
  }

  /** An append that failed may still have left its line behind (Lost). */
  function Wrote(l: Loc, ch: Choice): seq<Line> {
    if l.Append? && ch.fault != Refused then [l.line] else []
  }

  /** The locked region run with no one else in it, along a trail of outcomes. */
  function RunBody(cfg: Config, tid: nat, r: Request, g: Gate, trail: seq<Choice>, s: Store): Local {
    if trail == [] then Local(StartLoc(tid, r, g), s)
    else
      var before := RunBody(cfg, tid, r, g, trail[..|trail| - 1], s);
      BodyStep(cfg, tid, r, g, before.loc, before.store, trail[|trail| - 1])
  }
}
