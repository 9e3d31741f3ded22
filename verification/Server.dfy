/** The handlers as the server runs them: code that changes the store and the ledger in place. Each is
    proved to take exactly the steps the interleaving model takes under the locks. */
module Server {
  import opened Records
  import opened Security
  import opened Supersession
  import opened Carryover
  import opened Handlers

  /** The ledger lines of a locked region run along a trail of outcomes. */
  function LinesOf(cfg: Config, tid: nat, r: Request, g: Gate, trail: seq<Choice>, s: Store): seq<Line> {
    if trail == [] then []
    else
      var front, ch := trail[..|trail| - 1], trail[|trail| - 1];
      LinesOf(cfg, tid, r, g, front, s) + Wrote(RunBody(cfg, tid, r, g, front, s).loc, ch)
  }

  // Where a region stands after a trail: its place, the store, the ledger lines it has written.
  datatype Standing = Standing(loc: Loc, store: Store, lines: seq<Line>)

  function Stand(cfg: Config, tid: nat, r: Request, g: Gate, trail: seq<Choice>, s: Store): Standing {
    var now := RunBody(cfg, tid, r, g, trail, s);
    Standing(now.loc, now.store, LinesOf(cfg, tid, r, g, trail, s))
  }

  lemma StandStart(cfg: Config, tid: nat, r: Request, g: Gate, s: Store)
    ensures Stand(cfg, tid, r, g, [], s) == Standing(StartLoc(tid, r, g), s, [])
  {
  }

  lemma StandNext(cfg: Config, tid: nat, r: Request, g: Gate, trail: seq<Choice>, s: Store, ch: Choice)
    ensures var st := Stand(cfg, tid, r, g, trail, s);
            var next := BodyStep(cfg, tid, r, g, st.loc, st.store, ch);
            Stand(cfg, tid, r, g, trail + [ch], s) == Standing(next.loc, next.store, st.lines + Wrote(st.loc, ch))
  {
    assert (trail + [ch])[..|trail + [ch]| - 1] == trail;
  }

  lemma AppendNext(cfg: Config, tid: nat, r: Request, g: Gate, trail: seq<Choice>, s: Store, ch: Choice)
    requires Stand(cfg, tid, r, g, trail, s).loc.Append?
    ensures var st := Stand(cfg, tid, r, g, trail, s);
            Stand(cfg, tid, r, g, trail + [ch], s)
            == Standing(if ch.fault == Fine then st.loc.next else st.loc.failed, st.store,
                        if ch.fault != Refused then st.lines + [st.loc.line] else st.lines)
  {
    StandNext(cfg, tid, r, g, trail, s, ch);
  }

  lemma SupersedeNext(cfg: Config, tid: nat, r: Request, g: Gate, trail: seq<Choice>, s: Store, ch: Choice)
    requires r.Supersede? && !Stand(cfg, tid, r, g, trail, s).loc.Append? && !Stand(cfg, tid, r, g, trail, s).loc.Exit?
    ensures var st := Stand(cfg, tid, r, g, trail, s);
            var next := SupersedeStep(cfg, tid, r, st.loc, st.store, ch);
            Stand(cfg, tid, r, g, trail + [ch], s) == Standing(next.loc, next.store, st.lines)
  {
    hide SupersedeStep;
    StandNext(cfg, tid, r, g, trail, s, ch);
  }

  lemma UnsupersedeNext(cfg: Config, tid: nat, r: Request, g: Gate, trail: seq<Choice>, s: Store, ch: Choice)
    requires r.Unsupersede? && !Stand(cfg, tid, r, g, trail, s).loc.Append? && !Stand(cfg, tid, r, g, trail, s).loc.Exit?
    ensures var st := Stand(cfg, tid, r, g, trail, s);
            var next := UnsupersedeStep(tid, r, st.loc, st.store, ch);
            Stand(cfg, tid, r, g, trail + [ch], s) == Standing(next.loc, next.store, st.lines)
  {
    hide UnsupersedeStep;
    StandNext(cfg, tid, r, g, trail, s, ch);
  }

  lemma TierNext(cfg: Config, tid: nat, r: Request, g: Gate, trail: seq<Choice>, s: Store, ch: Choice)
    requires r.PatchTier? && !Stand(cfg, tid, r, g, trail, s).loc.Append? && !Stand(cfg, tid, r, g, trail, s).loc.Exit?
    ensures var st := Stand(cfg, tid, r, g, trail, s);
            var next := TierStep(tid, r, g, st.loc, st.store, ch);
            Stand(cfg, tid, r, g, trail + [ch], s) == Standing(next.loc, next.store, st.lines)
  {
    hide TierStep;
    StandNext(cfg, tid, r, g, trail, s, ch);
  }

  lemma PutNext(cfg: Config, tid: nat, r: Request, g: Gate, trail: seq<Choice>, s: Store, ch: Choice)
    requires r.Put? && !Stand(cfg, tid, r, g, trail, s).loc.Append? && !Stand(cfg, tid, r, g, trail, s).loc.Exit?
    ensures var st := Stand(cfg, tid, r, g, trail, s);
            var next := PutStep(cfg, tid, r, g, st.loc, st.store, ch);
            Stand(cfg, tid, r, g, trail + [ch], s) == Standing(next.loc, next.store, st.lines)
  {
    hide PutStep;
    StandNext(cfg, tid, r, g, trail, s, ch);
  }

  lemma RecordsWereFound(r: Request, loser: Option<Payload>, winner: Option<Payload>, shared: set<string>)
    ensures r.Supersede? && Precheck(r.id, r.winner, loser, winner, r.scope, r.detail, r.reason, shared).None? ==> loser.Some?
    ensures r.Unsupersede? && ClearPrecheck(loser, r.scope, r.reason).None? ==> loser.Some?
  {
  }

  /** One server; `calls` decides how each call to the store and the ledger ends, in order. */
  class Server {
    const cfg: Config
    var points: Store
    var ledger: seq<Line>

    constructor (cfg: Config, points: Store)
      ensures this.cfg == cfg && this.points == points && ledger == []
    {
      this.cfg, this.points, this.ledger := cfg, points, [];
    }

    /** What every handler promises: it ran the region to its end, and did nothing else. */
    ghost predicate Ran(tid: nat, r: Request, g: Gate, trail: seq<Choice>, s: Store, lines: seq<Line>, after: Option<Line>)
      reads this
    {
      var st := Stand(cfg, tid, r, g, trail, s);
      st.loc == Exit(after) && points == st.store && ledger == lines + st.lines
    }

    /** The completion line goes in after the locks are released; losing it loses nothing else. */
    method Finish(after: Option<Line>, ch: Choice)
      modifies this`ledger
      ensures ledger == old(ledger) + (if after.Some? && ch.fault != Refused then [after.value] else [])
    {
      if after.Some? && ch.fault != Refused { ledger := ledger + [after.value]; }
    }

    method RunSupersede(tid: nat, r: Request, g: Gate, calls: nat -> Choice) returns (after: Option<Line>, trail: seq<Choice>)
      requires r.Supersede?
      modifies this`points, this`ledger
      ensures forall i :: 0 <= i < |trail| ==> trail[i] == calls(i)
      ensures Ran(tid, r, g, trail, old(points), old(ledger), after)
    {
      hide Stand, RunBody, LinesOf, Get, SetPayload, Precheck, IsNoop, SupersedePayload, BodyStep;
      ghost var s := points;
      after, trail := None, [];
      StandStart(cfg, tid, r, g, s);
      SupersedeNext(cfg, tid, r, g, trail, s, calls(0));
      trail := trail + [calls(0)];
      if calls(0).fault != Fine { return; }
      var loser := Get(points, r.id);
      SupersedeNext(cfg, tid, r, g, trail, s, calls(1));
      trail := trail + [calls(1)];
      if calls(1).fault != Fine { return; }
      var winner := Get(points, r.winner);
      RecordsWereFound(r, loser, winner, cfg.shared);
      if Precheck(r.id, r.winner, loser, winner, r.scope, r.detail, r.reason, cfg.shared).Some? { return; }
      if IsNoop(loser.value, r.winner, r.scope, r.detail) { return; }
      var payload := SupersedePayload(loser.value, r.winner, r.scope, r.detail, calls(1).now);
      AppendNext(cfg, tid, r, g, trail, s, calls(2));
      trail := trail + [calls(2)];
      if calls(2).fault != Refused { ledger := ledger + [SupersedeIntent(tid, r.id, r.winner, r.scope)]; }
      if calls(2).fault != Fine { return; }
      SupersedeNext(cfg, tid, r, g, trail, s, calls(3));
      trail := trail + [calls(3)];
      if calls(3).fault != Refused { points := SetPayload(points, r.id, payload); }
      if calls(3).fault == Fine { after := Some(SupersedeDone(tid, r.id, r.winner, r.scope)); }
    }

    method RunUnsupersede(tid: nat, r: Request, g: Gate, calls: nat -> Choice) returns (after: Option<Line>, trail: seq<Choice>)
      requires r.Unsupersede?
      modifies this`points, this`ledger
      ensures forall i :: 0 <= i < |trail| ==> trail[i] == calls(i)
      ensures Ran(tid, r, g, trail, old(points), old(ledger), after)
    {
      hide Stand, RunBody, LinesOf, Get, SetPayload, ClearPrecheck, HasSupersession, ClearKeys, DeleteKeys, BodyStep;
      ghost var s := points;
      after, trail := None, [];
      StandStart(cfg, tid, r, g, s);
      UnsupersedeNext(cfg, tid, r, g, trail, s, calls(0));
      trail := trail + [calls(0)];
      if calls(0).fault != Fine { return; }
      var loser := Get(points, r.id);
      RecordsWereFound(r, loser, None, cfg.shared);
      if ClearPrecheck(loser, r.scope, r.reason).Some? || !HasSupersession(loser.value, r.scope) { return; }
      AppendNext(cfg, tid, r, g, trail, s, calls(1));
      trail := trail + [calls(1)];
      if calls(1).fault != Refused { ledger := ledger + [UnsupersedeIntent(tid, r.id, r.scope)]; }
      if calls(1).fault != Fine { return; }
      UnsupersedeNext(cfg, tid, r, g, trail, s, calls(2));
      trail := trail + [calls(2)];
      if calls(2).fault != Refused { points := DeleteKeys(points, r.id, ClearKeys(r.scope)); }
      if calls(2).fault != Fine { return; }
      UnsupersedeNext(cfg, tid, r, g, trail, s, calls(3));
      trail := trail + [calls(3)];
      if calls(3).fault != Refused { points := SetPayload(points, r.id, map[KUpdatedAt := VTime(calls(3).now)]); }
      if calls(3).fault == Fine { after := Some(UnsupersedeDone(tid, r.id, r.scope)); }
    }

    /** PATCH /tier under its lock: the two re-checks, the intent line, the write. */
    method UpdateTier(tid: nat, r: Request, g: Gate, calls: nat -> Choice) returns (after: Option<Line>, trail: seq<Choice>)
      requires r.PatchTier?
      modifies this`points, this`ledger
      ensures forall i :: 0 <= i < |trail| ==> trail[i] == calls(i)
      ensures Ran(tid, r, g, trail, old(points), old(ledger), after)
    {
      hide Stand, RunBody, LinesOf, Get, SetPayload, PromotionRefused, FetchTier, TierChangeAction, TierPatch, BodyStep;
      ghost var s := points;
      after, trail := None, [];
      StandStart(cfg, tid, r, g, s);
      var ch := calls(0);
      if r.target == Canonical || r.target == Insight {
        TierNext(cfg, tid, r, g, trail, s, ch);
        trail := trail + [ch];
        if ch.fault != Fine || PromotionRefused(Get(points, r.id), r.target) { return; }
      }
      assert Stand(cfg, tid, r, g, trail, s) == Standing(TierAfterPromotionCheck(tid, r, g), points, []);
      if r.target != Canonical && g.signed != Some(ADemote) {
        ch := calls(|trail|);
        TierNext(cfg, tid, r, g, trail, s, ch);
        trail := trail + [ch];
        var now := FetchTier(points, r.id);
        if ch.fault != Fine || now.None? || TierChangeAction(now, r.target) == Some(ADemote) { return; }
      }
      assert Stand(cfg, tid, r, g, trail, s) == Standing(TierAppend(tid, r), points, []);
      ch := calls(|trail|);
      AppendNext(cfg, tid, r, g, trail, s, ch);
      trail := trail + [ch];
      if ch.fault != Refused { ledger := ledger + [TierIntent(tid, r.id, r.target)]; }
      if ch.fault != Fine { return; }
      ch := calls(|trail|);
      TierNext(cfg, tid, r, g, trail, s, ch);
      trail := trail + [ch];
      if ch.fault != Refused { points := SetPayload(points, r.id, TierPatch(r, ch.now)); }
      if ch.fault == Fine { after := Some(TierDone(tid, r.id, r.target)); }
    }

    /** PATCH /metadata and the NLI stamp: one merge under the lock, no intent line. */
    method Merge(tid: nat, r: Request, g: Gate, calls: nat -> Choice) returns (after: Option<Line>, trail: seq<Choice>)
      requires r.PatchMetadata? || r.NliStamp?
      modifies this`points, this`ledger
      ensures forall i :: 0 <= i < |trail| ==> trail[i] == calls(i)
      ensures Ran(tid, r, g, trail, old(points), old(ledger), after)
    {
      hide Stand, RunBody, LinesOf, Get, SetPayload, PutStep, UnsupersedeStep, SupersedeStep, TierStep;
      ghost var s := points;
      var patch := if r.PatchMetadata? then MetaPatch(r, calls(0).now) else StampPatch(r, calls(0).now);
      var done := if r.PatchMetadata? then MetadataMerge(tid, r.id) else NliFlag(tid, r.id, r.canonical);
      StandStart(cfg, tid, r, g, s);
      StandNext(cfg, tid, r, g, [], s, calls(0));
      assert [] + [calls(0)] == [calls(0)];
      trail := [calls(0)];
      if calls(0).fault != Refused { points := SetPayload(points, r.id, patch); }
      after := if calls(0).fault == Fine then Some(done) else None;
    }

    /** PUT under its lock: fail-closed read, rebuild, then up to four rounds of check, restore, re-check. */
    method Update(tid: nat, r: Request, g: Gate, calls: nat -> Choice) returns (after: Option<Line>, trail: seq<Choice>)
      requires r.Put?
      modifies this`points, this`ledger
      ensures forall i :: 0 <= i < |trail| ==> trail[i] == calls(i)
      ensures Ran(tid, r, g, trail, old(points), old(ledger), after)
    {
      hide Stand, RunBody, LinesOf, Get, SetPayload, Expected, Rebuild, ComputeCarryover, BodyStep;
      ghost var s := points;
      after, trail := None, [];
      StandStart(cfg, tid, r, g, s);
      PutNext(cfg, tid, r, g, trail, s, calls(0));
      trail := trail + [calls(0)];
      if calls(0).fault != Fine { return; }
      var pre := if r.id in points then points[r.id] else map[];
      PutNext(cfg, tid, r, g, trail, s, calls(1));
      trail := trail + [calls(1)];
      if calls(1).fault == Refused || r.id !in points { return; }
      points := points[r.id := Rebuild(cfg.index, points[r.id], ComputeCarryover(pre), r.text, calls(1).now)];
      if calls(1).fault == Lost { return; }
      var want := Expected(pre, g.tier);
      var missing: Payload := map[];
      if want != map[] {
        missing, trail := PostVerify(tid, r, g, calls, want, trail, s, ledger);
      }
      if missing != map[] && KTier in want && want[KTier].VTier? { return; }
      AppendNext(cfg, tid, r, g, trail, s, calls(|trail|));
      trail := trail + [calls(|trail|)];
      if calls(|trail| - 1).fault != Refused { ledger := ledger + [MemoryUpdate(tid, r.id)]; }
    }

    method PostVerify(tid: nat, r: Request, g: Gate, calls: nat -> Choice, want: Payload, start: seq<Choice>,
                      ghost s: Store, ghost lines: seq<Line>) returns (missing: Payload, trail: seq<Choice>)
      requires r.Put? && want != map[]
      requires forall i :: 0 <= i < |start| ==> start[i] == calls(i)
      requires Stand(cfg, tid, r, g, start, s) == Standing(PutCheck(want, 0, map[]), points, []) && ledger == lines
      modifies this`points
      ensures forall i :: 0 <= i < |trail| ==> trail[i] == calls(i)
      ensures Stand(cfg, tid, r, g, trail, s) == Standing(PutFinish(tid, r.id, want, missing), points, [])
    {
      hide Stand, RunBody, LinesOf, Get, SetPayload, Missing, PutFinish, BodyStep;
      missing, trail := map[], start;
      var attempt := 0;
      while attempt < MAX_ATTEMPTS
        invariant attempt <= MAX_ATTEMPTS
        invariant forall i :: 0 <= i < |trail| ==> trail[i] == calls(i)
        invariant Stand(cfg, tid, r, g, trail, s)
                  == Standing(if attempt < MAX_ATTEMPTS then PutCheck(want, attempt, missing)
                              else PutFinish(tid, r.id, want, missing), points, [])
      {
        var ch := calls(|trail|);
        PutNext(cfg, tid, r, g, trail, s, ch);
        trail := trail + [ch];
        attempt := attempt + 1;
        if ch.fault != Fine { continue; }
        var found := Missing(want, Get(points, r.id));
        if found == map[] { return map[], trail; }
        missing := found;
        ch := calls(|trail|);
        PutNext(cfg, tid, r, g, trail, s, ch);
        trail := trail + [ch];
        if ch.fault != Refused { points := SetPayload(points, r.id, missing); }
        if ch.fault != Fine { continue; }
        ch := calls(|trail|);
        PutNext(cfg, tid, r, g, trail, s, ch);
        trail := trail + [ch];
        if ch.fault != Fine { continue; }
        missing := Missing(want, Get(points, r.id));
        if missing == map[] { return map[], trail; }
      }
    }
  }
}
