/** What a request comes to: an answered request does what it asks and says so in the ledger, a refused call
    does nothing, and a failed first call ends the request. The records are described by their stored keys. */
module Effects {
  import opened Records
  import opened Security
  import opened Supersession
  import opened Carryover
  import opened Handlers
  import opened HandlerFacts
  import opened Server

  // ---- calls that fail ----

  /** A call refused before it applied changes neither the store nor the ledger. */
  lemma RefusedCallDoesNothing(cfg: Config, tid: nat, r: Request, g: Gate, l: Loc, s: Store, ch: Choice)
    requires ch.fault == Refused
    ensures BodyStep(cfg, tid, r, g, l, s, ch).store == s && Wrote(l, ch) == []
  {
  }

  /** A call whose answer was lost has changed the store and the ledger exactly as an answered one. */
  lemma LostCallIsDone(cfg: Config, tid: nat, r: Request, g: Gate, l: Loc, s: Store, ch: Choice)
    requires ch.fault == Lost
    ensures BodyStep(cfg, tid, r, g, l, s, ch).store == BodyStep(cfg, tid, r, g, l, s, ch.(fault := Fine)).store
    ensures Wrote(l, ch) == Wrote(l, ch.(fault := Fine))
  {
    hide IsNoop, SupersedePayload, HasSupersession, Rebuild;
  }

  lemma {:induction false} ExitStays(cfg: Config, tid: nat, r: Request, g: Gate, trail: seq<Choice>, more: seq<Choice>, s: Store)
    requires Stand(cfg, tid, r, g, trail, s).loc.Exit?
    ensures Stand(cfg, tid, r, g, trail + more, s) == Stand(cfg, tid, r, g, trail, s)
  {
    hide Stand;
    if more == [] {
      assert trail + more == trail;
    } else {
      var front := more[..|more| - 1];
      ExitStays(cfg, tid, r, g, trail, front, s);
      StandNext(cfg, tid, r, g, trail + front, s, more[|more| - 1]);
      assert (trail + front) + [more[|more| - 1]] == trail + more;
    }
  }

  /** Fail-closed: whatever follows, a PUT, PATCH /tier, supersede or unsupersede whose first call fails ends
      there, with the store as it was; it never goes on without the record it meant to read. */
  lemma FailedFirstCallEnds(cfg: Config, tid: nat, r: Request, g: Gate, s: Store, ch: Choice, more: seq<Choice>)
    requires ch.fault != Fine && !r.PatchMetadata? && !r.NliStamp?
    ensures var st := Stand(cfg, tid, r, g, [ch] + more, s);
            && st.loc == Exit(None) && st.store == s
            && (st.lines == [] || (r.PatchTier? && st.lines == [TierIntent(tid, r.id, r.target)]))
  {
    StandStart(cfg, tid, r, g, s);
    StandNext(cfg, tid, r, g, [], s, ch);
    assert [] + [ch] == [ch];
    ExitStays(cfg, tid, r, g, [ch], more, s);
  }

  // ---- supersede ----

  /** The loser is an unprotected, live, unhidden record; the winner a live, unhidden one of the same user
      whose brand is neutral or the loser's. */
  predicate MaySupersede(loser: Payload, winner: Payload, shared: set<string>) {
    && KTier in loser && loser[KTier] in {VTier(Evidence), VTier(Temporal), VTier(Stable)}
    && KSupersededBy !in loser && KSupersededBy !in winner
    && KRetrievable !in loser && KRetiredAt !in loser && KRetrievable !in winner && KRetiredAt !in winner
    && (KUserId in loser <==> KUserId in winner) && (KUserId in loser ==> loser[KUserId] == winner[KUserId])
    && (KBrand in winner ==>
          || (KBrand in loser && loser[KBrand] == winner[KBrand])
          || (winner[KBrand].VText? && (winner[KBrand].text == "" || winner[KBrand].text in shared)))
  }

  predicate Answered(a: Choice, b: Choice, c: Choice, d: Choice) {
    a.fault == Fine && b.fault == Fine && c.fault == Fine && d.fault == Fine
  }

  lemma DoorIsOpen(cfg: Config, r: Request, loser: Payload, winner: Payload)
    requires r.Supersede? && r.id != r.winner && |r.detail| <= 300 && |r.reason| <= 500
    requires r.scope == Full || (r.scope == PartialScope && r.detail != "")
    requires MaySupersede(loser, winner, cfg.shared)
    ensures Precheck(r.id, r.winner, Some(loser), Some(winner), r.scope, r.detail, r.reason, cfg.shared) == None
    ensures r.scope == Full ==> !IsNoop(loser, r.winner, r.scope, r.detail)
  {
  }

  /** Four calls of an admitted supersession that is not yet recorded: two reads, the intent line, one merge. */
  lemma SupersedeRuns(cfg: Config, tid: nat, r: Request, g: Gate, s: Store, a: Choice, b: Choice, c: Choice, d: Choice)
    requires r.Supersede? && r.id in s && r.winner in s && Answered(a, b, c, d)
    requires Precheck(r.id, r.winner, Some(s[r.id]), Some(s[r.winner]), r.scope, r.detail, r.reason, cfg.shared) == None
    requires !IsNoop(s[r.id], r.winner, r.scope, r.detail)
    ensures Stand(cfg, tid, r, g, [a, b, c, d], s)
            == Standing(Exit(Some(SupersedeDone(tid, r.id, r.winner, r.scope))),
                        SetPayload(s, r.id, SupersedePayload(s[r.id], r.winner, r.scope, r.detail, b.now)),
                        [SupersedeIntent(tid, r.id, r.winner, r.scope)])
  {
    hide Stand, Precheck, IsNoop, SupersedePayload, SetPayload, BodyStep;
    assert [] + [a] == [a] && [a] + [b] == [a, b] && [a, b] + [c] == [a, b, c] && [a, b, c] + [d] == [a, b, c, d];
    StandStart(cfg, tid, r, g, s);
    SupersedeNext(cfg, tid, r, g, [], s, a);
    SupersedeNext(cfg, tid, r, g, [a], s, b);
    AppendNext(cfg, tid, r, g, [a, b], s, c);
    SupersedeNext(cfg, tid, r, g, [a, b, c], s, d);
  }

  /** An admitted full supersession happens: the loser points at the winner, stamped with the time of the
      call, nothing else of it changes, and the intent line went before the completion line. */
  lemma SupersedeHappens(cfg: Config, tid: nat, r: Request, g: Gate, s: Store, a: Choice, b: Choice, c: Choice, d: Choice)
    requires r.Supersede? && r.scope == Full && r.id != r.winner && |r.detail| <= 300 && |r.reason| <= 500
    requires r.id in s && r.winner in s && MaySupersede(s[r.id], s[r.winner], cfg.shared) && Answered(a, b, c, d)
    ensures Stand(cfg, tid, r, g, [a, b, c, d], s)
            == Standing(Exit(Some(SupersedeDone(tid, r.id, r.winner, Full))),
                        s[r.id := s[r.id] + map[KSupersededBy := VId(r.winner), KSupersededAt := VTime(b.now),
                                                KSupersededVia := VText("supersede-endpoint"), KUpdatedAt := VTime(b.now)]],
                        [SupersedeIntent(tid, r.id, r.winner, Full)])
  {
    DoorIsOpen(cfg, r, s[r.id], s[r.winner]);
    SupersedeRuns(cfg, tid, r, g, s, a, b, c, d);
    assert SupersedePayload(s[r.id], r.winner, Full, r.detail, b.now)
           == map[KSupersededBy := VId(r.winner), KSupersededAt := VTime(b.now),
                  KSupersededVia := VText("supersede-endpoint"), KUpdatedAt := VTime(b.now)];
  }

  /** A partial supersession that is not recorded yet adds its entry at the end of the list, behind the newest
      nineteen before it; the record stays visible. */
  lemma PartialSupersedeHappens(cfg: Config, tid: nat, r: Request, g: Gate, s: Store, a: Choice, b: Choice, c: Choice, d: Choice)
    requires r.Supersede? && r.scope == PartialScope && r.id != r.winner && 0 < |r.detail| <= 300 && |r.reason| <= 500
    requires r.id in s && r.winner in s && MaySupersede(s[r.id], s[r.winner], cfg.shared) && Answered(a, b, c, d)
    requires forall e :: e in Partials(s[r.id]) ==> e.winner != r.winner || e.detail != r.detail
    ensures var st, was := Stand(cfg, tid, r, g, [a, b, c, d], s), Partials(s[r.id]);
            var kept := if |was| <= 19 then was else was[|was| - 19..];
            && st.loc == Exit(Some(SupersedeDone(tid, r.id, r.winner, PartialScope)))
            && st.lines == [SupersedeIntent(tid, r.id, r.winner, PartialScope)]
            && st.store == s[r.id := s[r.id] + map[KPartials := VPartials(kept + [Partial(r.winner, r.detail, b.now)]),
                                                   KUpdatedAt := VTime(b.now)]]
            && KSupersededBy !in st.store[r.id]
  {
    DoorIsOpen(cfg, r, s[r.id], s[r.winner]);
    SupersedeRuns(cfg, tid, r, g, s, a, b, c, d);
    var was := Partials(s[r.id]);
    var kept := if |was| <= 19 then was else was[|was| - 19..];
    assert SupersedePayload(s[r.id], r.winner, PartialScope, r.detail, b.now)
           == map[KPartials := VPartials(kept + [Partial(r.winner, r.detail, b.now)]), KUpdatedAt := VTime(b.now)];
  }

  /** What the door refuses, and what is recorded already, changes nothing and leaves no line, whatever the
      calls answer. */
  lemma {:induction false} RefusedSupersedeDoesNothing(cfg: Config, tid: nat, r: Request, g: Gate, trail: seq<Choice>, s: Store)
    requires r.Supersede?
    requires Precheck(r.id, r.winner, Get(s, r.id), Get(s, r.winner), r.scope, r.detail, r.reason, cfg.shared).Some?
             || (r.id in s && IsNoop(s[r.id], r.winner, r.scope, r.detail))
    ensures var st := Stand(cfg, tid, r, g, trail, s);
            && st.store == s && st.lines == []
            && (st.loc == SupLoser || st.loc == SupWinner(Get(s, r.id)) || st.loc == Exit(None))
  {
    hide Precheck, IsNoop, Stand;
    if trail == [] {
      StandStart(cfg, tid, r, g, s);
    } else {
      var front, ch := trail[..|trail| - 1], trail[|trail| - 1];
      RefusedSupersedeDoesNothing(cfg, tid, r, g, front, s);
      StandNext(cfg, tid, r, g, front, s, ch);
      assert front + [ch] == trail;
      RecordsWereFound(r, Get(s, r.id), Get(s, r.winner), cfg.shared);
    }
  }

  /** By the stored keys: a record that is canonical, insight or without a tier is never superseded, a retired
      one takes no part, a winner that is hidden itself and a loser hidden by another are refused, and so is a
      winner of another user or of a brand that is neither shared nor the loser's. */
  lemma DoorIsShut(r: Request, loser: Payload, winner: Payload, shared: set<string>)
    requires r.Supersede?
    requires
      || KTier !in loser || loser[KTier] in {VTier(Canonical), VTier(Insight)}
      || (KRetrievable in loser && loser[KRetrievable] == VBool(false)) || (KRetiredAt in loser && loser[KRetiredAt].VTime?)
      || (KRetrievable in winner && winner[KRetrievable] == VBool(false)) || (KRetiredAt in winner && winner[KRetiredAt].VTime?)
      || (KSupersededBy in winner && winner[KSupersededBy].VId?)
      || (KSupersededBy in loser && loser[KSupersededBy].VId? && loser[KSupersededBy].id != r.winner)
      || (KUserId in loser && KUserId in winner && loser[KUserId].VText? && winner[KUserId].VText? && loser[KUserId] != winner[KUserId])
      || (KBrand in winner && winner[KBrand].VText? && winner[KBrand].text !in shared + {""}
          && (KBrand !in loser || loser[KBrand] != winner[KBrand]))
    ensures Precheck(r.id, r.winner, Some(loser), Some(winner), r.scope, r.detail, r.reason, shared).Some?
  {
  }

  // ---- unsupersede ----

  /** Something of that scope is recorded on the payload. */
  predicate Recorded(p: Payload, scope: Scope) {
    || (scope in {Full, All} && KSupersededBy in p && p[KSupersededBy].VId?)
    || (scope in {PartialScope, All} && KPartials in p && p[KPartials].VPartials? && p[KPartials].entries != [])
  }

  lemma RecordedIsFound(p: Payload, scope: Scope)
    requires Recorded(p, scope)
    ensures HasSupersession(p, scope) && !scope.BadScope?
  {
    if scope in {Full, All} && KSupersededBy in p && p[KSupersededBy].VId? {
      assert KSupersededBy in ClearKeys(scope) && !Empty(p[KSupersededBy]);
    } else {
      assert KPartials in ClearKeys(scope) && !Empty(p[KPartials]);
    }
  }

  lemma ClearIsOpen(r: Request, p: Payload)
    requires r.Unsupersede? && |r.reason| <= 500 && Recorded(p, r.scope)
    requires KTier in p && p[KTier] in {VTier(Evidence), VTier(Temporal), VTier(Stable)}
    ensures HasSupersession(p, r.scope) && ClearPrecheck(Some(p), r.scope, r.reason).None? && !r.scope.BadScope?
  {
    RecordedIsFound(p, r.scope);
  }

  /** Four calls of such a clear: the read, the intent line, the deletion of the keys, the stamp. */
  lemma UnsupersedeRuns(cfg: Config, tid: nat, r: Request, g: Gate, s: Store, a: Choice, b: Choice, c: Choice, d: Choice)
    requires r.Unsupersede? && r.id in s && Answered(a, b, c, d)
    requires HasSupersession(s[r.id], r.scope) && ClearPrecheck(Some(s[r.id]), r.scope, r.reason).None?
    ensures Stand(cfg, tid, r, g, [a, b, c, d], s)
            == Standing(Exit(Some(UnsupersedeDone(tid, r.id, r.scope))),
                        SetPayload(DeleteKeys(s, r.id, ClearKeys(r.scope)), r.id, map[KUpdatedAt := VTime(d.now)]),
                        [UnsupersedeIntent(tid, r.id, r.scope)])
  {
    hide Stand, HasSupersession, ClearPrecheck, ClearKeys, DeleteKeys, SetPayload, BodyStep;
    assert [] + [a] == [a] && [a] + [b] == [a, b] && [a, b] + [c] == [a, b, c] && [a, b, c] + [d] == [a, b, c, d];
    StandStart(cfg, tid, r, g, s);
    UnsupersedeNext(cfg, tid, r, g, [], s, a);
    AppendNext(cfg, tid, r, g, [a], s, b);
    UnsupersedeNext(cfg, tid, r, g, [a, b], s, c);
    UnsupersedeNext(cfg, tid, r, g, [a, b, c], s, d);
  }

  /** Clearing a recorded supersession takes exactly its keys away, in two store calls behind the intent line. */
  lemma UnsupersedeHappens(cfg: Config, tid: nat, r: Request, g: Gate, s: Store, a: Choice, b: Choice, c: Choice, d: Choice)
    requires r.Unsupersede? && |r.reason| <= 500 && Answered(a, b, c, d)
    requires r.id in s && KTier in s[r.id] && s[r.id][KTier] in {VTier(Evidence), VTier(Temporal), VTier(Stable)}
    requires Recorded(s[r.id], r.scope)
    ensures var full: set<Key> := {KSupersededBy, KSupersededAt, KSupersededVia};
            var keys := if r.scope == Full then full else if r.scope == PartialScope then {KPartials} else full + {KPartials};
            Stand(cfg, tid, r, g, [a, b, c, d], s)
            == Standing(Exit(Some(UnsupersedeDone(tid, r.id, r.scope))),
                        s[r.id := (s[r.id] - keys) + map[KUpdatedAt := VTime(d.now)]],
                        [UnsupersedeIntent(tid, r.id, r.scope)])
  {
    hide Stand;
    ClearIsOpen(r, s[r.id]);
    UnsupersedeRuns(cfg, tid, r, g, s, a, b, c, d);
  }

  /** What may not be cleared, and what is not recorded, stays: no change, no line, whatever the calls answer. */
  lemma {:induction false} ClosedClearDoesNothing(cfg: Config, tid: nat, r: Request, g: Gate, trail: seq<Choice>, s: Store)
    requires r.Unsupersede?
    requires || r.id !in s || r.scope.BadScope? || KTier !in s[r.id] || s[r.id][KTier] in {VTier(Canonical), VTier(Insight)}
             || s[r.id].Keys !! {KSupersededBy, KSupersededAt, KSupersededVia, KPartials}
    ensures var st := Stand(cfg, tid, r, g, trail, s);
            st.store == s && st.lines == [] && (st.loc == UnsRead || st.loc == Exit(None))
  {
    hide Stand;
    if trail == [] {
      StandStart(cfg, tid, r, g, s);
    } else {
      var front, ch := trail[..|trail| - 1], trail[|trail| - 1];
      ClosedClearDoesNothing(cfg, tid, r, g, front, s);
      StandNext(cfg, tid, r, g, front, s, ch);
      assert front + [ch] == trail;
      RecordsWereFound(r, Get(s, r.id), None, cfg.shared);
    }
  }

  // ---- PATCH /tier ----

  /** The calls of a tier change: the promotion check for a protected target, the re-read for an unsigned move,
      the intent line, the write. */
  function TierCalls(r: Request, g: Gate): nat
    requires r.PatchTier?
  {
    (if r.target in {Canonical, Insight} then 1 else 0) + (if r.target != Canonical && g.signed != Some(ADemote) then 1 else 0) + 2
  }

  /** The move is open: a demotion or a promotion that was signed, or one that touches no protected tier. */
  predicate MayMove(r: Request, g: Gate, s: Store)
    requires r.PatchTier?
  {
    && r.id in s
    && (r.target in {Canonical, Insight} ==> KSupersededBy !in s[r.id])
    && (|| r.target == Canonical || g.signed == Some(ADemote)
        || (KTier in s[r.id] && s[r.id][KTier] in {VTier(Evidence), VTier(Temporal), VTier(Stable)})
        || (KTier in s[r.id] && s[r.id][KTier] == VTier(Insight) && r.target == Insight))
  }

  lemma MoveIsOpen(r: Request, g: Gate, s: Store)
    requires r.PatchTier? && MayMove(r, g, s)
    ensures !PromotionRefused(Get(s, r.id), r.target) && FetchTier(s, r.id).Some?
    ensures r.target != Canonical && g.signed != Some(ADemote) ==> TierChangeAction(FetchTier(s, r.id), r.target) != Some(ADemote)
  {
  }

  /** The checks before the intent line pass, one answered call each. */
  lemma TierChecksPass(cfg: Config, tid: nat, r: Request, g: Gate, s: Store, trail: seq<Choice>)
    requires r.PatchTier? && MayMove(r, g, s) && |trail| == TierCalls(r, g) - 2
    requires forall k :: 0 <= k < |trail| ==> trail[k].fault == Fine
    ensures Stand(cfg, tid, r, g, trail, s) == Standing(TierAppend(tid, r), s, [])
  {
    MoveIsOpen(r, g, s);
    hide Stand, FetchTier, PromotionRefused, TierChangeAction, BodyStep, MayMove, Get;
    StandStart(cfg, tid, r, g, s);
    if |trail| == 0 {
      assert trail == [];
    } else {
      TierNext(cfg, tid, r, g, [], s, trail[0]);
      assert [] + [trail[0]] == [trail[0]];
      if |trail| == 1 {
        assert trail == [trail[0]];
      } else {
        TierNext(cfg, tid, r, g, [trail[0]], s, trail[1]);
        assert [trail[0]] + [trail[1]] == trail;
      }
    }
  }

  /** An open tier change happens: the record has the target tier, the time and the actor, and nothing else of
      it changes; the intent line comes first. */
  lemma TierChangeHappens(cfg: Config, tid: nat, r: Request, g: Gate, s: Store, checks: seq<Choice>, c: Choice, d: Choice)
    requires r.PatchTier? && MayMove(r, g, s) && |checks| == TierCalls(r, g) - 2
    requires (forall k :: 0 <= k < |checks| ==> checks[k].fault == Fine) && c.fault == Fine && d.fault == Fine
    ensures Stand(cfg, tid, r, g, checks + [c] + [d], s)
            == Standing(Exit(Some(TierDone(tid, r.id, r.target))),
                        s[r.id := s[r.id] + map[KTier := VTier(r.target), KUpdatedAt := VTime(d.now),
                                                KTierActor := VText(LabelName(r.who))]],
                        [TierIntent(tid, r.id, r.target)])
  {
    hide Stand, BodyStep;
    TierChecksPass(cfg, tid, r, g, s, checks);
    AppendNext(cfg, tid, r, g, checks, s, c);
    TierNext(cfg, tid, r, g, checks + [c], s, d);
  }

  lemma UnsignedExit(s: Store, id: Id, target: Tier)
    requires id in s && target != Canonical
    requires !(KTier in s[id] && s[id][KTier] in {VTier(Evidence), VTier(Temporal), VTier(Stable), VTier(target)})
    ensures TierChangeAction(FetchTier(s, id), target) == Some(ADemote)
  {
    if KTier in s[id] && s[id][KTier].VTier? {
      match s[id][KTier].tier
      case Evidence =>
      case Temporal =>
      case Stable =>
      case Insight =>
      case Canonical =>
    }
  }

  /** An unsigned move out of canonical or insight, and a promotion of a superseded record, change nothing and
      leave no line, whatever the calls answer. */
  lemma {:induction false} ClosedMoveDoesNothing(cfg: Config, tid: nat, r: Request, g: Gate, trail: seq<Choice>, s: Store)
    requires r.PatchTier? && r.id in s
    requires || (r.target in {Canonical, Insight} && KSupersededBy in s[r.id] && s[r.id][KSupersededBy].VId?)
             || (r.target != Canonical && g.signed != Some(ADemote)
                 && !(KTier in s[r.id] && s[r.id][KTier] in {VTier(Evidence), VTier(Temporal), VTier(Stable), VTier(r.target)}))
    ensures var st := Stand(cfg, tid, r, g, trail, s);
            && st.store == s && st.lines == []
            && (st.loc == Exit(None) || (st.loc == TierSuperseded && r.target in {Canonical, Insight})
                || (&& st.loc == TierRecheck && r.target != Canonical && g.signed != Some(ADemote)
                    && !PromotionRefused(Get(s, r.id), r.target)))
  {
    hide Stand;
    if trail == [] {
      StandStart(cfg, tid, r, g, s);
    } else {
      var front, ch := trail[..|trail| - 1], trail[|trail| - 1];
      ClosedMoveDoesNothing(cfg, tid, r, g, front, s);
      if Stand(cfg, tid, r, g, front, s).loc.TierRecheck? && !PromotionRefused(Get(s, r.id), r.target)
         && !(r.target in {Canonical, Insight} && KSupersededBy in s[r.id] && s[r.id][KSupersededBy].VId?) {
        UnsignedExit(s, r.id, r.target);
      }
      StandNext(cfg, tid, r, g, front, s, ch);
      assert front + [ch] == trail;
    }
  }

  // ---- PATCH /metadata and the NLI stamp ----

  /** A metadata patch lands whole: every patched key has its value, updated_at the time of the call, and no
      other key of the record changes. */
  lemma MetadataPatchHappens(cfg: Config, tid: nat, r: Request, g: Gate, s: Store, ch: Choice)
    requires r.PatchMetadata? && r.id in s && ch.fault == Fine
    ensures var st := Stand(cfg, tid, r, g, [ch], s);
            && st.loc == Exit(Some(MetadataMerge(tid, r.id))) && st.lines == []
            && st.store.Keys == s.Keys && (forall i :: i in s && i != r.id ==> st.store[i] == s[i])
            && (forall k: Key :: k in st.store[r.id] <==> k in s[r.id] || k in r.patch || k == KUpdatedAt)
            && (forall k :: k in r.patch && k != KUpdatedAt ==> st.store[r.id][k] == r.patch[k])
            && (forall k :: k in s[r.id] && k !in r.patch && k != KUpdatedAt ==> st.store[r.id][k] == s[r.id][k])
            && st.store[r.id][KUpdatedAt] == VTime(ch.now)
  {
    StandStart(cfg, tid, r, g, s);
    StandNext(cfg, tid, r, g, [], s, ch);
    assert [] + [ch] == [ch];
  }

  /** The NLI stamp names the canonical record it was judged against, and the time. */
  lemma NliStampHappens(cfg: Config, tid: nat, r: Request, g: Gate, s: Store, ch: Choice)
    requires r.NliStamp? && r.id in s && ch.fault == Fine
    ensures Stand(cfg, tid, r, g, [ch], s)
            == Standing(Exit(Some(NliFlag(tid, r.id, r.canonical))),
                        s[r.id := s[r.id] + map[KContradicts := VId(r.canonical), KNliGateCheckedAt := VTime(ch.now),
                                                KUpdatedAt := VTime(ch.now)]], [])
  {
    StandStart(cfg, tid, r, g, s);
    StandNext(cfg, tid, r, g, [], s, ch);
    assert [] + [ch] == [ch];
  }

  // ---- PUT ----

  /** The rebuilt record: every key the server carries or mem0 pins, the new text, no judgment of the old one. */
  ghost predicate TextReplaced(ix: TextIndex, was: Payload, now: Payload, text: string, at: Time) {
    && (forall k: Key :: k !in {KData, KHash, KTextLemmatized, KUpdatedAt, KTier,
                                KNliGateCheckedAt, KContradictionCheckedAt, KContradictsPending}
          ==> (k in now <==> k in was) && (k in was ==> now[k] == was[k]))
    && KNliGateCheckedAt !in now && KContradictionCheckedAt !in now && KContradictsPending !in now
    && KData in now && KHash in now && KTextLemmatized in now && KUpdatedAt in now
    && now[KData] == VText(text) && now[KHash] == VText(ix.digest(text))
    && now[KTextLemmatized] == VText(ix.lemmatize(text)) && now[KUpdatedAt] == VTime(at)
  }

  lemma RebuiltIsReplaced(ix: TextIndex, p: Payload, text: string, now: Time)
    ensures TextReplaced(ix, p, Rebuild(ix, p, ComputeCarryover(p), text, now), text, now)
    ensures KTier in p <==> KTier in Rebuild(ix, p, ComputeCarryover(p), text, now)
    ensures KTier in p ==> Rebuild(ix, p, ComputeCarryover(p), text, now)[KTier] == p[KTier]
  {
    PutKeepsPayload(ix, p, text, now);
  }

  /** The first two calls of a PUT: the read and mem0's update. */
  lemma PutUpdates(cfg: Config, tid: nat, r: Request, g: Gate, s: Store, a: Choice, b: Choice)
    requires r.Put? && r.id in s && a.fault == b.fault == Fine && g.tier.Some?
    ensures var want := Expected(s[r.id], g.tier);
            Stand(cfg, tid, r, g, [a, b], s)
            == Standing(PutCheck(want, 0, map[]),
                        s[r.id := Rebuild(cfg.index, s[r.id], ComputeCarryover(s[r.id]), r.text, b.now)], [])
  {
    hide Stand, Rebuild, ComputeCarryover, BodyStep;
    assert [] + [a] == [a] && [a] + [b] == [a, b];
    assert KTier in Expected(s[r.id], g.tier);
    StandStart(cfg, tid, r, g, s);
    PutNext(cfg, tid, r, g, [], s, a);
    PutNext(cfg, tid, r, g, [a], s, b);
  }

  lemma NothingMissing(want: Payload, p: Payload)
    requires forall k :: k in want ==> k in p
    ensures Missing(want, Some(p)) == map[]
  {
    assert Missing(want, Some(p)).Keys == {};
  }

  /** Of the expected keys only a tier can be absent. */
  lemma OnlyTierMissing(want: Payload, after: Payload)
    requires Carried(want, after) && KTier in want
    ensures Missing(want, Some(after)) == (if KTier in after then map[] else map[KTier := VTier(Canonical)])
    ensures KTier !in after ==> Missing(want, Some(after)) != map[]
    ensures Missing(want, Some(after + map[KTier := VTier(Canonical)])) == map[]
  {
    if KTier in after {
      NothingMissing(want, after);
    } else {
      assert Missing(want, Some(after)).Keys == {KTier};
    }
    NothingMissing(want, after + map[KTier := VTier(Canonical)]);
  }

  /** The record mem0 has written, and what the first check finds missing of it. */
  lemma PutCarries(cfg: Config, r: Request, g: Gate, s: Store, now: Time)
    requires r.Put? && r.id in s && GateOk(r, g, s) && g.tier.Some?
    ensures var want, after := Expected(s[r.id], g.tier), Rebuild(cfg.index, s[r.id], ComputeCarryover(s[r.id]), r.text, now);
            && KTier in want && want[KTier] == (if KTier in s[r.id] then s[r.id][KTier] else VTier(Canonical))
            && TextReplaced(cfg.index, s[r.id], after, r.text, now)
            && (KTier in after <==> KTier in s[r.id]) && (KTier in after ==> after[KTier] == s[r.id][KTier])
            && Missing(want, Some(after)) == (if KTier in s[r.id] then map[] else map[KTier := VTier(Canonical)])
            && (KTier !in s[r.id] ==> Missing(want, Some(after)) != map[])
            && Missing(want, Some(after + map[KTier := VTier(Canonical)])) == map[]
  {
    hide Rebuild, ComputeCarryover, Missing, Carried, TextReplaced;
    var want, after := Expected(s[r.id], g.tier), Rebuild(cfg.index, s[r.id], ComputeCarryover(s[r.id]), r.text, now);
    RebuiltIsReplaced(cfg.index, s[r.id], r.text, now);
    RebuildCarries(cfg.index, s[r.id], g.tier, r.text, now);
    TierExpected(s[r.id], g.tier);
    OnlyTierMissing(want, after);
  }

  lemma TierExpected(p: Payload, tier: Option<Tier>)
    requires tier.Some? && (KTier !in p ==> tier == Some(Canonical))
    ensures var want := Expected(p, tier); KTier in want && want[KTier] == if KTier in p then p[KTier] else VTier(Canonical)
  {
  }

  /** An answered PUT of a record with a tier: one check, then the ledger line. The record has the new text and
      everything else it had. */
  lemma PutHappens(cfg: Config, tid: nat, r: Request, g: Gate, s: Store, a: Choice, b: Choice, c: Choice, d: Choice)
    requires r.Put? && r.id in s && KTier in s[r.id] && g.tier.Some? && GateOk(r, g, s) && Answered(a, b, c, d)
    ensures var st := Stand(cfg, tid, r, g, [a, b, c, d], s);
            && st.loc == Exit(None) && st.lines == [MemoryUpdate(tid, r.id)]
            && r.id in st.store && st.store == s[r.id := st.store[r.id]]
            && TextReplaced(cfg.index, s[r.id], st.store[r.id], r.text, b.now)
            && KTier in st.store[r.id] && st.store[r.id][KTier] == s[r.id][KTier]
  {
    hide Stand, Rebuild, ComputeCarryover, Expected, Missing, TextReplaced, GateOk, BodyStep;
    PutUpdates(cfg, tid, r, g, s, a, b);
    PutCarries(cfg, r, g, s, b.now);
    assert [a, b] + [c] == [a, b, c] && [a, b, c] + [d] == [a, b, c, d];
    PutNext(cfg, tid, r, g, [a, b], s, c);
    AppendNext(cfg, tid, r, g, [a, b, c], s, d);
  }

  lemma TierAside(ix: TextIndex, was: Payload, now: Payload, text: string, at: Time)
    requires TextReplaced(ix, was, now, text, at)
    ensures TextReplaced(ix, was, now + map[KTier := VTier(Canonical)], text, at)
  {
  }

  /** An answered PUT of a record without a tier: the first check misses the tier, the write-back stores it as
      canonical, the re-check is clean. */
  lemma PutGivesATier(cfg: Config, tid: nat, r: Request, g: Gate, s: Store, a: Choice, b: Choice, c: Choice, d: Choice,
                      e: Choice, f: Choice)
    requires r.Put? && r.id in s && KTier !in s[r.id] && g.tier.Some? && GateOk(r, g, s)
    requires Answered(a, b, c, d) && e.fault == f.fault == Fine
    ensures var st := Stand(cfg, tid, r, g, [a, b, c, d, e, f], s);
            && st.loc == Exit(None) && st.lines == [MemoryUpdate(tid, r.id)]
            && r.id in st.store && st.store == s[r.id := st.store[r.id]]
            && TextReplaced(cfg.index, s[r.id], st.store[r.id], r.text, b.now)
            && KTier in st.store[r.id] && st.store[r.id][KTier] == VTier(Canonical)
  {
    hide Stand, Rebuild, ComputeCarryover, Expected, Missing, TextReplaced, GateOk, BodyStep;
    PutUpdates(cfg, tid, r, g, s, a, b);
    PutCarries(cfg, r, g, s, b.now);
    TierAside(cfg.index, s[r.id], Rebuild(cfg.index, s[r.id], ComputeCarryover(s[r.id]), r.text, b.now), r.text, b.now);
    assert [a, b] + [c] == [a, b, c] && [a, b, c] + [d] == [a, b, c, d] && [a, b, c, d] + [e] == [a, b, c, d, e]
           && [a, b, c, d, e] + [f] == [a, b, c, d, e, f];
    PutNext(cfg, tid, r, g, [a, b], s, c);
    PutNext(cfg, tid, r, g, [a, b, c], s, d);
    PutNext(cfg, tid, r, g, [a, b, c, d], s, e);
    AppendNext(cfg, tid, r, g, [a, b, c, d, e], s, f);
  }

  /** Two calls per round: a check that answers, a write-back that is refused. */
  function RefusedRounds(c: Choice, d: Choice, n: nat): seq<Choice> { if n == 0 then [] else RefusedRounds(c, d, n - 1) + [c, d] }

  lemma {:induction false} RoundsMissTheTier(cfg: Config, tid: nat, r: Request, g: Gate, s: Store, a: Choice, b: Choice, c: Choice,
                                             d: Choice, n: nat)
    requires r.Put? && r.id in s && KTier !in s[r.id] && g.tier.Some? && GateOk(r, g, s)
    requires a.fault == b.fault == c.fault == Fine && d.fault == Refused && n <= 4
    ensures var want, tier: Payload := Expected(s[r.id], g.tier), map[KTier := VTier(Canonical)];
            var st := Stand(cfg, tid, r, g, [a, b] + RefusedRounds(c, d, n), s);
            && st.store == s[r.id := Rebuild(cfg.index, s[r.id], ComputeCarryover(s[r.id]), r.text, b.now)] && st.lines == []
            && st.loc == (if n == 0 then PutCheck(want, 0, map[]) else if n < 4 then PutCheck(want, n, tier) else Exit(None))
  {
    hide Stand, Rebuild, ComputeCarryover, Expected, Missing, TextReplaced, GateOk, BodyStep;
    PutCarries(cfg, r, g, s, b.now);
    if n == 0 {
      PutUpdates(cfg, tid, r, g, s, a, b);
      assert [a, b] + RefusedRounds(c, d, 0) == [a, b];
    } else {
      RoundsMissTheTier(cfg, tid, r, g, s, a, b, c, d, n - 1);
      var front := [a, b] + RefusedRounds(c, d, n - 1);
      PutNext(cfg, tid, r, g, front, s, c);
      PutNext(cfg, tid, r, g, front + [c], s, d);
      assert front + [c] + [d] == [a, b] + RefusedRounds(c, d, n);
    }
  }

  /** If the tier cannot be written back in any of the four rounds the PUT ends without its ledger line: it is
      not reported as done. */
  lemma LostTierIsReported(cfg: Config, tid: nat, r: Request, g: Gate, s: Store, a: Choice, b: Choice, c: Choice, d: Choice)
    requires r.Put? && r.id in s && KTier !in s[r.id] && g.tier.Some? && GateOk(r, g, s)
    requires a.fault == b.fault == c.fault == Fine && d.fault == Refused
    ensures var st := Stand(cfg, tid, r, g, [a, b] + RefusedRounds(c, d, 4), s);
            st.loc == Exit(None) && st.lines == [] && r.id in st.store && KTier !in st.store[r.id]
  {
    hide Stand, Expected, Missing, BodyStep;
    RoundsMissTheTier(cfg, tid, r, g, s, a, b, c, d, 4);
    PutCarries(cfg, r, g, s, b.now);
  }
}
