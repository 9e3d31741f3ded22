/** What a PUT carries over: mem0 rebuilds the payload from scratch, so every custom key is passed back in. */
module Carryover {
  import opened Records

  predicate SessionKey(k: Key) { k.KUserId? || k.KAgentId? || k.KRunId? || k.KActorId? || k.KRole? }

  predicate Mem0Owned(k: Key) {
    k.KData? || k.KHash? || k.KTextLemmatized? || k.KCreatedAt? || k.KUpdatedAt? || SessionKey(k)
  }

  // Stamps that say "this text was judged": they must not outlive the text.
  predicate NliCheckMarker(k: Key) {
    k.KNliGateCheckedAt? || k.KContradictionCheckedAt? || k.KContradictsPending?
  }

  predicate Dropped(k: Key) { Mem0Owned(k) || NliCheckMarker(k) }

  function ComputeCarryover(existing: Payload): Payload {
    map k | k in existing && !Dropped(k) :: existing[k]
  }

  // The text-derived values mem0 computes; the functions themselves are foreign.
  datatype TextIndex = TextIndex(digest: string -> string, lemmatize: string -> string)

  function Pinned(existing: Payload): Payload {
    map k | k in existing && (SessionKey(k) || k == KCreatedAt) :: existing[k]
  }

  /** mem0's update contract: the metadata is copied in, then mem0's own keys overwrite it; created_at
      and the session ids come from the stored record. */
  function Rebuild(ix: TextIndex, existing: Payload, metadata: Payload, text: string, now: Time): Payload {
    metadata + Pinned(existing)
    + map[KData := VText(text), KHash := VText(ix.digest(text)),
          KTextLemmatized := VText(ix.lemmatize(text)), KUpdatedAt := VTime(now)]
  }

  lemma RebuiltKey(ix: TextIndex, existing: Payload, text: string, now: Time, k: Key)
    ensures
      var after := Rebuild(ix, existing, ComputeCarryover(existing), text, now);
      && (!Dropped(k) || SessionKey(k) || k == KCreatedAt ==>
            (k in after <==> k in existing) && (k in existing ==> after[k] == existing[k]))
      && (NliCheckMarker(k) ==> k !in after)
  {
  }

  /** Under that contract a PUT changes exactly seven keys: the text with its digest, its lemmas and the time
      are new, the three "this text was judged" markers are gone, and every other key stays, with its value,
      and none appears. */
  lemma PutKeepsPayload(ix: TextIndex, existing: Payload, text: string, now: Time)
    ensures
      var after := Rebuild(ix, existing, ComputeCarryover(existing), text, now);
      && (forall k: Key :: k !in {KData, KHash, KTextLemmatized, KUpdatedAt,
                                  KNliGateCheckedAt, KContradictionCheckedAt, KContradictsPending}
            ==> (k in after <==> k in existing) && (k in existing ==> after[k] == existing[k]))
      && KNliGateCheckedAt !in after && KContradictionCheckedAt !in after && KContradictsPending !in after
      && after[KData] == VText(text) && after[KHash] == VText(ix.digest(text))
      && after[KTextLemmatized] == VText(ix.lemmatize(text)) && after[KUpdatedAt] == VTime(now)
  {
    forall k: Key | k !in {KData, KHash, KTextLemmatized, KUpdatedAt,
                           KNliGateCheckedAt, KContradictionCheckedAt, KContradictsPending}
      ensures
        var after := Rebuild(ix, existing, ComputeCarryover(existing), text, now);
        (k in after <==> k in existing) && (k in existing ==> after[k] == existing[k])
    {
      RebuiltKey(ix, existing, text, now, k);
    }
    RebuiltKey(ix, existing, text, now, KNliGateCheckedAt);
    RebuiltKey(ix, existing, text, now, KContradictionCheckedAt);
    RebuiltKey(ix, existing, text, now, KContradictsPending);
  }
}
