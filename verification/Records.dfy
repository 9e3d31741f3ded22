/** The stored record: a Qdrant payload, read and written by every handler of the server. */
module Records {
  datatype Option<+T> = None | Some(value: T)

  // A canonical UUID read as its 128-bit number: the order of the numbers is the order of the strings.
  type Id = nat
  type Time = int

  datatype Tier = Evidence | Temporal | Stable | Insight | Canonical

  // One entry of `partially_superseded_by`; the text is stored stripped.
  datatype Partial = Partial(winner: Id, detail: string, at: Time)

  datatype Key =
    | KTier | KTierActor
    | KSupersededBy | KSupersededAt | KSupersededVia | KPartials
    | KBrand | KUserId | KAgentId | KRunId | KActorId | KRole
    | KData | KHash | KTextLemmatized | KCreatedAt | KUpdatedAt
    | KRetrievable | KRetiredAt | KExpiresAt
    | KContradicts | KContradictsPending | KContradictionCheckedAt | KNliGateCheckedAt
    | KOther(name: string)

  datatype Value =
    | VTier(tier: Tier)
    | VId(id: Id)
    | VPartials(entries: seq<Partial>)
    | VText(text: string)
    | VTime(time: Time)
    | VBool(flag: bool)

  type Payload = map<Key, Value>
  type Store = map<Id, Payload>

  // ---- what the handlers read out of a payload ----

  /** A missing tier reads as canonical, here and in every gate (fail-closed). */
  function EffTier(p: Payload): Tier {
    if KTier in p && p[KTier].VTier? then p[KTier].tier else Canonical
  }

  function SupersededBy(p: Payload): Option<Id> {
    if KSupersededBy in p && p[KSupersededBy].VId? then Some(p[KSupersededBy].id) else None
  }

  function Partials(p: Payload): seq<Partial> {
    if KPartials in p && p[KPartials].VPartials? then p[KPartials].entries else []
  }

  predicate Retired(p: Payload) {
    || (KRetrievable in p && p[KRetrievable] == VBool(false))
    || (KRetiredAt in p && p[KRetiredAt] != VText("") && p[KRetiredAt] != VBool(false))
  }

  function TextAt(p: Payload, k: Key): string {
    if k in p && p[k].VText? then p[k].text else ""
  }

  function User(p: Payload): string { TextAt(p, KUserId) }

  /** Brand labels are taken as already stripped and lower-cased. */
  function Brand(p: Payload): string { TextAt(p, KBrand) }

  // ---- the store interface ----

  function Get(s: Store, id: Id): Option<Payload> {
    if id in s then Some(s[id]) else None
  }

  /** A shallow merge into an existing point; a missing point is left missing. */
  function SetPayload(s: Store, id: Id, patch: Payload): Store {
    if id in s then s[id := s[id] + patch] else s
  }

  function DeleteKeys(s: Store, id: Id, keys: set<Key>): Store {
    if id in s then s[id := s[id] - keys] else s
  }
}
