/** The write policy: which request needs a signed token, and which metadata keys a label may write. */
module Security {
  import opened Records

  datatype Action = APut | ADelete | APatchMetadata | AMergeGoals | APromote | ADemote

  // The free-text actor of a request, after strip and lower-case.
  datatype Label =
    | NoLabel
    | UserDirect | DreamAutopromote
    | StampRetired | ContradictionSweep
    | BackfillApply | DecayScan | SystemFlow
    | C1Consolidator | DreamConsolidator | C1DreamConsolidator
    | OtherLabel(name: string)

  function LabelName(l: Label): string {
    match l
    case NoLabel => ""
    case UserDirect => "user-direct"
    case DreamAutopromote => "dream-autopromote"
    case StampRetired => "stamp-retired-v013"
    case ContradictionSweep => "contradiction-sweep-v019"
    case BackfillApply => "backfill-apply-v013"
    case DecayScan => "decay-scan"
    case SystemFlow => "system"
    case C1Consolidator => "c1-consolidator"
    case DreamConsolidator => "dream-consolidator"
    case C1DreamConsolidator => "c1-dream-consolidator"
    case OtherLabel(name) => name
  }

  /** The built-in names are all different, so a stored actor name tells its label. */
  lemma NamesTellLabelsApart(a: Label, b: Label)
    requires !a.OtherLabel? && !b.OtherLabel? && LabelName(a) == LabelName(b)
    ensures a == b
  {
  }

  predicate InsightAllowed(l: Label) {
    l.C1Consolidator? || l.DreamConsolidator? || l.C1DreamConsolidator?
  }

  predicate Trusted(l: Label) { l.StampRetired? || l.ContradictionSweep? }

  function TrustedKeys(l: Label): set<Key> {
    match l
    case StampRetired => {KRetiredAt}
    case ContradictionSweep => {KContradicts, KContradictionCheckedAt, KContradictsPending}
    case _ => {}
  }

  function LegacyKeys(l: Label): set<Key> {
    match l
    case BackfillApply => {KRetrievable}
    case DecayScan => {KExpiresAt, KRetrievable}
    case SystemFlow => {KExpiresAt, KTierActor}
    case _ => {}
  }

  predicate Privileged(l: Label) {
    Trusted(l) || InsightAllowed(l) || l.BackfillApply? || l.DecayScan? || l.SystemFlow?
  }

  const RETRIEVAL_HIDE_KEYS: set<Key> := {KSupersededBy, KContradicts}

  const METADATA_FORBIDDEN_KEYS: set<Key> :=
    {KRetrievable, KExpiresAt, KCreatedAt, KTierActor,
     KSupersededBy, KContradicts, KContradictionCheckedAt,
     KContradictsPending, KNliGateCheckedAt,
     KSupersededAt, KSupersededVia, KPartials}

  /** None: refused (403). Some(verified): whether the label was proven by the service key. */
  function RequireServiceCredential(l: Label, keyOk: bool): Option<bool> {
    if !Privileged(l) then Some(false) else if keyOk then Some(true) else None
  }

  /** The tier the gates see: None when the point does not exist, canonical when it has no tier. */
  function FetchTier(s: Store, id: Id): Option<Tier> {
    if id in s then Some(EffTier(s[id])) else None
  }

  function TierChangeAction(current: Option<Tier>, target: Tier): Option<Action> {
    if target == Canonical then Some(APromote)
    else if current == Some(Canonical) then Some(ADemote)
    else if current == Some(Insight) && target != Insight then Some(ADemote)
    else None
  }

  /** assert_writable: does this write need a user-direct token for `action`? */
  predicate NeedsToken(tier: Option<Tier>, action: Action, l: Label, verified: bool) {
    if tier == None then false
    else if action == APatchMetadata && verified && Trusted(l) then false
    else if tier == Some(Canonical) then true
    else if tier == Some(Insight) then !(verified && InsightAllowed(l))
    else false
  }

  predicate AuthorizeMetadataPatch(tier: Option<Tier>, l: Label, verified: bool, keys: set<Key>) {
    var actor := if verified then l else NoLabel;
    && (RETRIEVAL_HIDE_KEYS * keys != {} ==> tier != Some(Canonical))
    && METADATA_FORBIDDEN_KEYS * keys <= LegacyKeys(actor) + TrustedKeys(actor)
    && (Trusted(actor) ==> keys <= TrustedKeys(actor))
  }

  // ---- what the policy guarantees ----

  /** No label, proven or not, writes a supersede-door key through PATCH /metadata, and a hide key
      is written only by the proven contradiction sweep, never on a canonical record. */
  lemma MetadataPatchNeverHides(tier: Option<Tier>, l: Label, verified: bool, keys: set<Key>)
    requires AuthorizeMetadataPatch(tier, l, verified, keys)
    ensures KSupersededBy !in keys && KSupersededAt !in keys && KSupersededVia !in keys && KPartials !in keys
    ensures KContradicts in keys ==> verified && l == ContradictionSweep && tier != Some(Canonical)
    ensures KRetrievable in keys ==> verified && l in {BackfillApply, DecayScan}
  {
    var actor := if verified then l else NoLabel;
    var allowed := LegacyKeys(actor) + TrustedKeys(actor);
    forall k | k in {KSupersededBy, KSupersededAt, KSupersededVia, KPartials}
      ensures k !in keys
    {
      assert k in METADATA_FORBIDDEN_KEYS && k !in allowed;
      assert k in keys ==> k in METADATA_FORBIDDEN_KEYS * keys;
    }
    if KContradicts in keys {
      assert KContradicts in METADATA_FORBIDDEN_KEYS * keys;
      assert KContradicts in RETRIEVAL_HIDE_KEYS * keys;
    }
    if KRetrievable in keys {
      assert KRetrievable in METADATA_FORBIDDEN_KEYS * keys;
    }
  }

  /** A tier change that leaves `tier` alone needs no demote token; every exit from a protected tier
      needs exactly one signed action, and entering canonical is always signed "promote". */
  lemma ProtectedTiersAreSigned(current: Tier, target: Tier)
    ensures target == Canonical ==> TierChangeAction(Some(current), target) == Some(APromote)
    ensures current in {Canonical, Insight} && target != current && target != Canonical
            ==> TierChangeAction(Some(current), target) == Some(ADemote)
    ensures TierChangeAction(Some(current), target) == None
            ==> target != Canonical && current != Canonical && (current == Insight ==> target == Insight)
  {
  }

  // ---- the policy in terms of the stored keys and the labels ----

  const LABELS_TO_PROVE: set<Label> :=
    {StampRetired, ContradictionSweep, BackfillApply, DecayScan, SystemFlow,
     C1Consolidator, DreamConsolidator, C1DreamConsolidator}

  const CONSOLIDATORS: set<Label> := {C1Consolidator, DreamConsolidator, C1DreamConsolidator}

  /** A record that a plain caller may not write: canonical, of no tier, or insight without the proven
      consolidator. */
  predicate Locked(s: Store, id: Id, who: Label, keyOk: bool) {
    id in s && !(KTier in s[id] && s[id][KTier] in {VTier(Evidence), VTier(Temporal), VTier(Stable)})
    && !(KTier in s[id] && s[id][KTier] == VTier(Insight) && keyOk && who in CONSOLIDATORS)
  }

  /** A label that needs proof passes exactly with the service key; a write needs a token exactly when the
      record is locked, but for the metadata jobs proven to be the two trusted ones. */
  lemma TokenNeededIff(s: Store, id: Id, action: Action, who: Label, keyOk: bool)
    ensures RequireServiceCredential(who, keyOk).None? <==> who in LABELS_TO_PROVE && !keyOk
    ensures RequireServiceCredential(who, keyOk).Some? ==>
              (NeedsToken(FetchTier(s, id), action, who, RequireServiceCredential(who, keyOk).value)
               <==> && Locked(s, id, who, keyOk)
                    && !(action == APatchMetadata && keyOk && who in {StampRetired, ContradictionSweep}))
  {
    if id in s && KTier in s[id] && s[id][KTier].VTier? {
      match s[id][KTier].tier
      case Evidence =>
      case Temporal =>
      case Stable =>
      case Insight =>
      case Canonical =>
    }
  }

  /** The keys a label may write, whatever the order of the checks. */
  predicate MayWriteKey(k: Key, actor: Label) {
    match actor
    case StampRetired => k == KRetiredAt
    case ContradictionSweep => k in {KContradicts, KContradictionCheckedAt, KContradictsPending}
    case _ =>
      || k !in {KRetrievable, KExpiresAt, KCreatedAt, KTierActor, KSupersededBy, KContradicts, KContradictionCheckedAt,
                KContradictsPending, KNliGateCheckedAt, KSupersededAt, KSupersededVia, KPartials}
      || (k == KRetrievable && actor in {BackfillApply, DecayScan})
      || (k == KExpiresAt && actor in {DecayScan, SystemFlow})
      || (k == KTierActor && actor == SystemFlow)
  }

  /** A metadata patch passes exactly when each of its keys does, and a canonical record is never hidden. */
  lemma PatchAllowedIff(tier: Option<Tier>, l: Label, verified: bool, keys: set<Key>)
    ensures AuthorizeMetadataPatch(tier, l, verified, keys)
            <==> && (forall k :: k in keys ==> MayWriteKey(k, if verified then l else NoLabel))
                 && (tier == Some(Canonical) ==> KSupersededBy !in keys && KContradicts !in keys)
  {
    var actor := if verified then l else NoLabel;
    var allowed := LegacyKeys(actor) + TrustedKeys(actor);
    if forall k :: k in keys ==> MayWriteKey(k, actor) {
      forall k | k in METADATA_FORBIDDEN_KEYS * keys ensures k in allowed { assert MayWriteKey(k, actor); }
      forall k | k in keys && Trusted(actor) ensures k in TrustedKeys(actor) { assert MayWriteKey(k, actor); }
    }
    if AuthorizeMetadataPatch(tier, l, verified, keys) {
      forall k | k in keys ensures MayWriteKey(k, actor) {
        assert k in METADATA_FORBIDDEN_KEYS ==> k in METADATA_FORBIDDEN_KEYS * keys && k in allowed;
      }
    }
    assert KSupersededBy in keys ==> KSupersededBy in RETRIEVAL_HIDE_KEYS * keys;
    assert KContradicts in keys ==> KContradicts in RETRIEVAL_HIDE_KEYS * keys;
  }
}
