/** The supersede door: the refusal matrix, the payloads it writes and the rules other paths share. */
module Supersession {
  import opened Records

  datatype Scope = Full | PartialScope | All | BadScope(name: string)

  datatype Refusal =
    | BadScopeRefusal | SelfRefusal | DetailRequired | DetailTooLong | ReasonTooLong
    | LoserNotFound | WinnerNotFound | LoserCanonical | LoserInsight
    | LoserRetired | WinnerRetired | WinnerSuperseded | CrossTenant | CrossBrand | AlreadySuperseded

  const DETAIL_MAX_CHARS := 300
  const REASON_MAX_CHARS := 500
  const PARTIAL_MAX_ENTRIES := 20

  const FULL_KEYS: set<Key> := {KSupersededBy, KSupersededAt, KSupersededVia}
  const PARTIAL_KEYS: set<Key> := {KPartials}
  const ENDPOINT_ACTOR := "supersede-endpoint"

  predicate Protected(t: Tier) { t == Canonical || t == Insight }

  /** A brand label that every scope may see is neutral. */
  function NeutralBrand(brand: string, shared: set<string>): string {
    if brand in shared then "" else brand
  }

  /** The refusal matrix; `detail` and `reason` are the stripped texts ("" when absent). */
  function Precheck(loserId: Id, winnerId: Id, loser: Option<Payload>, winner: Option<Payload>,
                    scope: Scope, detail: string, reason: string, shared: set<string>): Option<Refusal>
  {
    if scope != Full && scope != PartialScope then Some(BadScopeRefusal)
    else if loserId == winnerId then Some(SelfRefusal)
    else if scope == PartialScope && detail == "" then Some(DetailRequired)
    else if |detail| > DETAIL_MAX_CHARS then Some(DetailTooLong)
    else if |reason| > REASON_MAX_CHARS then Some(ReasonTooLong)
    else if loser.None? then Some(LoserNotFound)
    else if winner.None? then Some(WinnerNotFound)
    else PrecheckRecords(winnerId, loser.value, winner.value, scope, shared)
  }

  function PrecheckRecords(winnerId: Id, loser: Payload, winner: Payload, scope: Scope,
                           shared: set<string>): Option<Refusal>
  {
    var lb := NeutralBrand(Brand(loser), shared);
    var wb := NeutralBrand(Brand(winner), shared);
    var existing := SupersededBy(loser);
    if EffTier(loser) == Canonical then Some(LoserCanonical)
    else if EffTier(loser) == Insight then Some(LoserInsight)
    else if Retired(loser) then Some(LoserRetired)
    else if Retired(winner) then Some(WinnerRetired)
    else if SupersededBy(winner).Some? then Some(WinnerSuperseded)
    else if User(loser) != User(winner) then Some(CrossTenant)
    else if lb != "" && wb != "" && lb != wb then Some(CrossBrand)
    else if wb != "" && lb == "" then Some(CrossBrand)
    else if existing.Some? && existing.value != winnerId then Some(AlreadySuperseded)
    else if scope == PartialScope && existing.Some? then Some(AlreadySuperseded)
    else None
  }

  predicate IsNoop(loser: Payload, winnerId: Id, scope: Scope, detail: string) {
    if scope == Full then SupersededBy(loser) == Some(winnerId)
    else exists e :: e in Partials(loser) && e.winner == winnerId && e.detail == detail
  }

  function FullPayload(winnerId: Id, now: Time): Payload {
    map[KSupersededBy := VId(winnerId), KSupersededAt := VTime(now), KSupersededVia := VText(ENDPOINT_ACTOR)]
  }

  function LastEntries(entries: seq<Partial>, n: nat): (last: seq<Partial>)
    ensures |last| <= n
  {
    if |entries| <= n then entries else entries[|entries| - n..]
  }

  function PartialEntries(entries: seq<Partial>, entry: Partial): seq<Partial> {
    LastEntries(entries, PARTIAL_MAX_ENTRIES - 1) + [entry]
  }

  function PartialPayload(loser: Payload, winnerId: Id, detail: string, now: Time): Payload {
    map[KPartials := VPartials(PartialEntries(Partials(loser), Partial(winnerId, detail, now)))]
  }

  function SupersedePayload(loser: Payload, winnerId: Id, scope: Scope, detail: string, now: Time): Payload {
    (if scope == Full then FullPayload(winnerId, now) else PartialPayload(loser, winnerId, detail, now))
    + map[KUpdatedAt := VTime(now)]
  }

  function ClearKeys(scope: Scope): set<Key> {
    match scope
    case Full => FULL_KEYS
    case PartialScope => PARTIAL_KEYS
    case All => FULL_KEYS + PARTIAL_KEYS
    case BadScope(_) => {}
  }

  function ClearPrecheck(loser: Option<Payload>, scope: Scope, reason: string): Option<Refusal> {
    if scope.BadScope? then Some(BadScopeRefusal)
    else if |reason| > REASON_MAX_CHARS then Some(ReasonTooLong)
    else if loser.None? then Some(LoserNotFound)
    else if EffTier(loser.value) == Canonical then Some(LoserCanonical)
    else if EffTier(loser.value) == Insight then Some(LoserInsight)
    else None
  }

  predicate Empty(v: Value) { v == VText("") || v == VPartials([]) }

  predicate HasSupersession(loser: Payload, scope: Scope) {
    exists k :: k in ClearKeys(scope) && k in loser && !Empty(loser[k])
  }

  /** Refuses to move a superseded record into a protected tier. */
  predicate PromotionRefused(p: Option<Payload>, target: Tier) {
    Protected(target) && p.Some? && SupersededBy(p.value).Some?
  }

  predicate CascadeProtected(p: Option<Payload>) {
    p.None? || Protected(EffTier(p.value))
  }

  // ---- what the door guarantees ----

  /** What the door stands for, in no order: two different live records of one user and one brand scope, the
      first unprotected and not hidden by anyone else, the second not hidden at all. */
  predicate MayHide(loser: Payload, winnerId: Id, winner: Payload, scope: Scope, shared: set<string>) {
    var lb, wb := NeutralBrand(Brand(loser), shared), NeutralBrand(Brand(winner), shared);
    && !Protected(EffTier(loser)) && !Retired(loser) && !Retired(winner)
    && User(loser) == User(winner) && (wb == "" || wb == lb)
    && SupersededBy(winner) == None
    && SupersededBy(loser) in (if scope == Full then {None, Some(winnerId)} else {None})
  }

  /** The refusal matrix lets exactly these through. */
  lemma DoorAdmitsExactly(loserId: Id, winnerId: Id, loser: Option<Payload>, winner: Option<Payload>,
                          scope: Scope, detail: string, reason: string, shared: set<string>)
    ensures Precheck(loserId, winnerId, loser, winner, scope, detail, reason, shared) == None
            <==> && (scope == Full || (scope == PartialScope && detail != ""))
                 && loserId != winnerId && |detail| <= 300 && |reason| <= 500
                 && loser.Some? && winner.Some? && MayHide(loser.value, winnerId, winner.value, scope, shared)
  {
  }

  /** The rule a refusal stands for, by the stored keys. */
  predicate BreaksRule(loserId: Id, winnerId: Id, loser: Option<Payload>, winner: Option<Payload>, scope: Scope, detail: string,
                       reason: string, shared: set<string>, why: Refusal)
  {
    match why
    case BadScopeRefusal => scope !in {Full, PartialScope}
    case SelfRefusal => loserId == winnerId
    case DetailRequired => scope == PartialScope && detail == ""
    case DetailTooLong => |detail| > 300
    case ReasonTooLong => |reason| > 500
    case LoserNotFound => loser == None
    case WinnerNotFound => winner == None
    case LoserCanonical => loser.Some? && !(KTier in loser.value && loser.value[KTier].VTier? && loser.value[KTier].tier != Canonical)
    case LoserInsight => loser.Some? && KTier in loser.value && loser.value[KTier] == VTier(Insight)
    case LoserRetired => loser.Some? && IsRetired(loser.value)
    case WinnerRetired => winner.Some? && IsRetired(winner.value)
    case WinnerSuperseded => winner.Some? && KSupersededBy in winner.value && winner.value[KSupersededBy].VId?
    case CrossTenant => loser.Some? && winner.Some? && TextAt(loser.value, KUserId) != TextAt(winner.value, KUserId)
    case CrossBrand => loser.Some? && winner.Some? && TextAt(winner.value, KBrand) !in shared + {"", TextAt(loser.value, KBrand)}
    case AlreadySuperseded =>
      && loser.Some? && KSupersededBy in loser.value && loser.value[KSupersededBy].VId?
      && (scope == Full ==> loser.value[KSupersededBy] != VId(winnerId))
  }

  predicate IsRetired(p: Payload) {
    || (KRetrievable in p && p[KRetrievable] == VBool(false))
    || (KRetiredAt in p && p[KRetiredAt] !in {VText(""), VBool(false)})
  }

  /** A refusal names a rule that the call really breaks. */
  lemma RefusalIsTrue(loserId: Id, winnerId: Id, loser: Option<Payload>, winner: Option<Payload>,
                      scope: Scope, detail: string, reason: string, shared: set<string>)
    ensures var why := Precheck(loserId, winnerId, loser, winner, scope, detail, reason, shared);
            why.Some? ==> BreaksRule(loserId, winnerId, loser, winner, scope, detail, reason, shared, why.value)
  {
  }

  /** A repeated supersession is recognised: right after the write the same call is a no-op. */
  lemma RepeatIsNoop(loserId: Id, winnerId: Id, loser: Payload, winner: Payload, scope: Scope,
                     detail: string, reason: string, shared: set<string>, now: Time)
    requires Precheck(loserId, winnerId, Some(loser), Some(winner), scope, detail, reason, shared) == None
    ensures IsNoop(loser + SupersedePayload(loser, winnerId, scope, detail, now), winnerId, scope, detail)
  {
    var after := loser + SupersedePayload(loser, winnerId, scope, detail, now);
    if scope == PartialScope {
      var entry := Partial(winnerId, detail, now);
      var entries := PartialEntries(Partials(loser), entry);
      assert Partials(after) == entries;
      assert entries[|entries| - 1] == entry;
      assert entry in entries;
    }
  }

  /** Clearing a full supersession that was just recorded restores the payload apart from updated_at. */
  lemma ClearUndoesSupersede(loserId: Id, winnerId: Id, loser: Payload, winner: Payload,
                             detail: string, reason: string, shared: set<string>, now: Time, later: Time)
    requires Precheck(loserId, winnerId, Some(loser), Some(winner), Full, detail, reason, shared) == None
    requires KSupersededBy !in loser && KSupersededAt !in loser && KSupersededVia !in loser
    ensures
      var hidden := loser + SupersedePayload(loser, winnerId, Full, detail, now);
      && ClearPrecheck(Some(hidden), Full, "") == None
      && HasSupersession(hidden, Full)
      && (hidden - ClearKeys(Full)) + map[KUpdatedAt := VTime(later)] == loser + map[KUpdatedAt := VTime(later)]
  {
    var hidden := loser + SupersedePayload(loser, winnerId, Full, detail, now);
    assert KSupersededBy in ClearKeys(Full) && hidden[KSupersededBy] == VId(winnerId);
    assert !Empty(hidden[KSupersededBy]);
    assert EffTier(hidden) == EffTier(loser);
    var restored := (hidden - ClearKeys(Full)) + map[KUpdatedAt := VTime(later)];
    var want := loser + map[KUpdatedAt := VTime(later)];
    assert restored.Keys == want.Keys;
  }

  function AppendAll(entries: seq<Partial>, more: seq<Partial>): seq<Partial>
    decreases |more|
  {
    if more == [] then entries else PartialEntries(AppendAll(entries, more[..|more| - 1]), more[|more| - 1])
  }

  lemma LastAt(entries: seq<Partial>, n: nat, j: nat)
    requires j < |LastEntries(entries, n)|
    ensures |LastEntries(entries, n)| == if |entries| <= n then |entries| else n
    ensures LastEntries(entries, n)[j] == entries[|entries| - |LastEntries(entries, n)| + j]
  {
  }

  lemma LastOfLast(entries: seq<Partial>, m: nat, n: nat)
    requires m <= n
    ensures LastEntries(LastEntries(entries, n), m) == LastEntries(entries, m)
  {
    var a, b := LastEntries(LastEntries(entries, n), m), LastEntries(entries, m);
    forall j | 0 <= j < |a| ensures a[j] == b[j] {
      LastAt(LastEntries(entries, n), m, j);
      LastAt(entries, m, j);
    }
  }

  lemma PushKeepsTail(all: seq<Partial>, entry: Partial)
    ensures PartialEntries(LastEntries(all, PARTIAL_MAX_ENTRIES), entry) == LastEntries(all + [entry], PARTIAL_MAX_ENTRIES)
  {
    LastOfLast(all, PARTIAL_MAX_ENTRIES - 1, PARTIAL_MAX_ENTRIES);
    var a, b := LastEntries(all, PARTIAL_MAX_ENTRIES - 1) + [entry], LastEntries(all + [entry], PARTIAL_MAX_ENTRIES);
    assert |a| == |b|;
    forall j | 0 <= j < |b| ensures a[j] == b[j] {
      LastAt(all + [entry], PARTIAL_MAX_ENTRIES, j);
      if j < |a| - 1 { LastAt(all, PARTIAL_MAX_ENTRIES - 1, j); }
    }
  }

  /** Over any number of partial supersessions the list holds at most 20 entries, and they are exactly
      the newest ones of everything ever recorded, in order. */
  lemma {:induction false} PartialListKeepsNewest(entries: seq<Partial>, more: seq<Partial>)
    requires |entries| <= PARTIAL_MAX_ENTRIES
    ensures |AppendAll(entries, more)| <= PARTIAL_MAX_ENTRIES
    ensures AppendAll(entries, more) == LastEntries(entries + more, PARTIAL_MAX_ENTRIES)
  {
    var n := PARTIAL_MAX_ENTRIES;
    if more == [] {
      assert entries + more == entries;
    } else {
      var front, last := more[..|more| - 1], more[|more| - 1];
      assert entries + more == (entries + front) + [last];
      calc {
        AppendAll(entries, more);
        PartialEntries(AppendAll(entries, front), last);
        { PartialListKeepsNewest(entries, front); }
        PartialEntries(LastEntries(entries + front, n), last);
        { PushKeepsTail(entries + front, last); }
        LastEntries((entries + front) + [last], n);
        LastEntries(entries + more, n);
      }
    }
  }
}
