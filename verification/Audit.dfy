/** The write-ahead ledger: no tier change, hide or un-hide without its own earlier intent line, whatever
    fails; and when nothing fails the ledger alone rebuilds the tiers and the supersession links. */
module Audit {
  import opened Records
  import Security
  import opened Supersession
  import opened Handlers
  import opened HandlerFacts
  import opened Machine

  predicate SameMark(a: Face, b: Face) { a.tier == b.tier && a.link == b.link }

  predicate MarkChanges(s: Store, s': Store, id: Id) {
    id in s && id in s' && !SameMark(FaceOf(s[id]), FaceOf(s'[id]))
  }

  /** Past its intent line: about to write, or writing the second half of a clear. */
  predicate Announcing(pc: PC) { pc.Body? && (Writes(pc.l) || pc.l.UnsStamp?) }

  /** The line stands in the ledger, written after its first `n` lines. */
  predicate WrittenSince(ledger: seq<Line>, n: nat, line: Line) {
    exists k :: n <= k < |ledger| && ledger[k] == line
  }

  predicate Noted(s: State, t: nat, n: nat)
    requires t < |s.threads|
  {
    var th := s.threads[t];
    Announcing(th.pc) ==> Intent(t, th.req).Some? && WrittenSince(s.ledger, n, Intent(t, th.req).value)
  }

  predicate AuditInv(s: State, n: nat) {
    n <= |s.ledger| && forall t :: 0 <= t < |s.threads| ==> Noted(s, t, n)
  }

  lemma LedgerGrows(cfg: Config, s: State, t: nat, ch: Choice)
    requires CanStep(s, t)
    ensures s.ledger <= DoStep(cfg, s, t, ch).ledger
  {
  }

  lemma EnteringAnnounces(cfg: Config, s: State, t: nat, ch: Choice)
    requires Inv(cfg, s) && CanStep(s, t)
    requires !Announcing(s.threads[t].pc) && Announcing(DoStep(cfg, s, t, ch).threads[t].pc)
    ensures var th, s' := s.threads[t], DoStep(cfg, s, t, ch);
            && th.pc.Body? && th.pc.l.Append? && ch.fault == Fine && Writes(th.pc.l.next)
            && Intent(t, th.req) == Some(th.pc.l.line)
            && s'.ledger == s.ledger + [th.pc.l.line] && s'.threads[t].pc == Body(th.pc.g, th.pc.l.next)
            && s'.store == s.store
  {
    var th := s.threads[t];
    if !th.pc.Body? {
      RegionEntry(cfg, s, t, ch);
    } else if th.pc.Body? && th.pc.l.Append? {
      AppendLeadsToItsWrite(cfg, t, th.req, th.pc.g, th.pc.l, s.store);
    } else if th.pc.Body? {
      NoWriteWithoutAppend(cfg, t, th.req, th.pc.g, th.pc.l, s.store, ch);
    }
  }

  lemma GateStaysOutside(s: Store, r: Request, tier: Option<Tier>, action: Security.Action, ch: Choice)
    ensures !GateRead(s, r, ch).Body? && !AfterToken(r, tier, action, ch).Body?
  {
  }

  lemma RegionEntry(cfg: Config, s: State, t: nat, ch: Choice)
    requires CanStep(s, t) && !s.threads[t].pc.Body?
    ensures !Announcing(DoStep(cfg, s, t, ch).threads[t].pc)
  {
    var th := s.threads[t];
    match th.pc
    case Arrive => GateStaysOutside(s.store, th.req, None, Security.APut, ch);
    case Token(tier, action) => GateStaysOutside(s.store, th.req, tier, action, ch);
    case Locking(_, g) => StartDoesNotWrite(t, th.req, g);
    case _ =>
  }

  lemma StartDoesNotWrite(tid: nat, r: Request, g: Gate)
    ensures !Writes(StartLoc(tid, r, g)) && !StartLoc(tid, r, g).UnsStamp? && !StartLoc(tid, r, g).Exit?
  {
  }

  lemma AppendLeadsToItsWrite(cfg: Config, tid: nat, r: Request, g: Gate, l: Loc, s: Store)
    requires LocOk(cfg, tid, r, g, l, s) && l.Append?
    ensures l.failed == Exit(None) && !l.next.UnsStamp? && !l.next.Append?
    ensures Writes(l.next) ==> Intent(tid, r) == Some(l.line)
    ensures !Writes(l.next) ==> l.next == Exit(None) && l.line.MemoryUpdate?
  {
  }

  lemma NoWriteWithoutAppend(cfg: Config, tid: nat, r: Request, g: Gate, l: Loc, s: Store, ch: Choice)
    requires !l.Append? && !Writes(l) && !l.UnsStamp?
    ensures var l' := BodyStep(cfg, tid, r, g, l, s, ch).loc; !Writes(l') && !l'.UnsStamp?
  {
  }

  lemma StepKeepsAudit(cfg: Config, s: State, t: nat, ch: Choice, n: nat)
    requires Inv(cfg, s) && AuditInv(s, n) && CanStep(s, t)
    ensures AuditInv(DoStep(cfg, s, t, ch), n)
  {
    hide BodyStep;
    var s' := DoStep(cfg, s, t, ch);
    StepFrame(cfg, s, t, ch);
    LedgerGrows(cfg, s, t, ch);
    forall u | 0 <= u < |s'.threads| ensures Noted(s', u, n) {
      assert Noted(s, u, n);
      if Announcing(s'.threads[u].pc) {
        if u == t && !Announcing(s.threads[t].pc) {
          EnteringAnnounces(cfg, s, t, ch);
          assert s'.ledger[|s.ledger|] == s.threads[t].pc.l.line;
        } else {
          StillWritten(s.ledger, s'.ledger, n, Intent(u, s.threads[u].req).value);
        }
      }
    }
  }

  lemma StillWritten(a: seq<Line>, b: seq<Line>, n: nat, line: Line)
    requires a <= b && WrittenSince(a, n, line)
    ensures WrittenSince(b, n, line)
  {
    var k :| n <= k < |a| && a[k] == line;
    assert b[k] == line;
  }

  lemma {:induction false} ReachableAudit(cfg: Config, s0: State, sched: seq<Move>)
    requires Initial(s0) && Runs(cfg, s0, sched)
    ensures AuditInv(After(cfg, s0, sched), |s0.ledger|)
  {
    if sched != [] {
      var front, last := sched[..|sched| - 1], sched[|sched| - 1];
      ReachableAudit(cfg, s0, front);
      ReachableInv(cfg, s0, front);
      StepKeepsAudit(cfg, After(cfg, s0, front), last.t, last.ch, |s0.ledger|);
    }
  }

  lemma ChangeIsAWrite(cfg: Config, s: State, t: nat, ch: Choice, id: Id)
    requires Inv(cfg, s) && CanStep(s, t) && MarkChanges(s.store, DoStep(cfg, s, t, ch).store, id)
    ensures var th, s' := s.threads[t], DoStep(cfg, s, t, ch);
            && th.pc.Body? && Writes(th.pc.l) && th.req.id == id && Intent(t, th.req).Some?
            && FaceOf(s'.store[id]) == Announced(Intent(t, th.req).value, FaceOf(s.store[id]))
            && s'.threads[t].pc.Body? && (s'.threads[t].pc.l.Exit? || s'.threads[t].pc.l.UnsStamp?)
  {
    var th := s.threads[t];
    StepFrame(cfg, s, t, ch);
    StepIsKept(cfg, t, th.req, th.pc.g, th.pc.l, s.store, ch);
  }

  /** Write-ahead, with any failures anywhere: a step that changes the tier or the link of a record does
      exactly what an intent line of that very request announced, and that line was written earlier in the
      run. */
  lemma ChangesAreAnnounced(cfg: Config, s0: State, sched: seq<Move>, t: nat, ch: Choice, id: Id)
    requires Initial(s0) && Runs(cfg, s0, sched) && CanStep(After(cfg, s0, sched), t)
    requires MarkChanges(After(cfg, s0, sched).store, DoStep(cfg, After(cfg, s0, sched), t, ch).store, id)
    ensures
      var s := After(cfg, s0, sched);
      var intent := Intent(t, s.threads[t].req);
      && intent.Some? && intent.value.id == id && intent.value.tid == t
      && WrittenSince(s.ledger, |s0.ledger|, intent.value)
      && SameMark(FaceOf(DoStep(cfg, s, t, ch).store[id]), Announced(intent.value, FaceOf(s.store[id])))
  {
    var s := After(cfg, s0, sched);
    ReachableInv(cfg, s0, sched);
    ReachableAudit(cfg, s0, sched);
    ChangeIsAWrite(cfg, s, t, ch, id);
    assert Noted(s, t, |s0.ledger|);
  }

  lemma RunsOn(cfg: Config, s0: State, sched: seq<Move>, m: Move)
    requires Runs(cfg, s0, sched) && CanStep(After(cfg, s0, sched), m.t)
    ensures Runs(cfg, s0, sched + [m]) && After(cfg, s0, sched + [m]) == DoStep(cfg, After(cfg, s0, sched), m.t, m.ch)
  {
    assert (sched + [m])[..|sched + [m]| - 1] == sched;
  }

  const PATCH := PatchTier(1, Stable, Security.NoLabel, false, Auth(0, "", "", ""))
  const ANSWERED := Choice(Fine, 0, false, 0, 0, 0)

  /** One unsigned tier change, step by step, up to the one that writes. */
  function PatchState(k: nat): State {
    var g, line := Gate(Some(Evidence), None), TierIntent(0, 1, Stable);
    var pc := if k == 0 then Arrive else if k == 1 then Locking(0, g)
              else if k == 2 then Body(g, TierRecheck)
              else if k <= 4 then Body(g, Append(line, TierWrite, Exit(None)))
              else Body(g, TierWrite);
    var trail := if k <= 2 then [] else if k <= 4 then [ANSWERED] else [ANSWERED, ANSWERED];
    State(map[1 := map[KTier := VTier(Evidence)]], [Thread(PATCH, pc, trail)], if k >= 2 then map[1 := 0] else map[],
          if k >= 5 then [line] else [], if k == 4 then Some(0) else None, [], [], [], [])
  }

  lemma PatchGate(cfg: Config)
    ensures DoStep(cfg, PatchState(0), 0, ANSWERED) == PatchState(1)
  {
    assert GateRead(PatchState(0).store, PATCH, ANSWERED) == Locking(0, Gate(Some(Evidence), None));
  }

  lemma PatchLocks(cfg: Config)
    ensures DoStep(cfg, PatchState(1), 0, ANSWERED) == PatchState(2)
  {
    assert LockOrder(PATCH) == [1];
  }

  lemma PatchRechecks(cfg: Config)
    ensures DoStep(cfg, PatchState(2), 0, ANSWERED) == PatchState(3)
  {
    var g := Gate(Some(Evidence), None);
    assert BodyStep(cfg, 0, PATCH, g, TierRecheck, PatchState(2).store, ANSWERED)
           == Local(TierAppend(0, PATCH), PatchState(2).store);
    var s' := DoStep(cfg, PatchState(2), 0, ANSWERED);
    assert s'.threads[0].trail == [ANSWERED] && s'.ledger == [];
    assert s'.threads == PatchState(3).threads;
  }

  lemma PatchAppends(cfg: Config)
    ensures DoStep(cfg, PatchState(3), 0, ANSWERED) == PatchState(4)
    ensures DoStep(cfg, PatchState(4), 0, ANSWERED) == PatchState(5)
  {
    var s' := DoStep(cfg, PatchState(4), 0, ANSWERED);
    assert s'.threads[0].trail == [ANSWERED, ANSWERED] && s'.ledger == [TierIntent(0, 1, Stable)];
    assert s'.threads == PatchState(5).threads;
  }

  lemma PatchSteps(cfg: Config, k: nat)
    requires k < 5
    ensures CanStep(PatchState(k), 0) && DoStep(cfg, PatchState(k), 0, ANSWERED) == PatchState(k + 1)
  {
    hide DoStep;
    assert LockOrder(PATCH) == [1];
    if k == 0 { PatchGate(cfg); }
    else if k == 1 { PatchLocks(cfg); }
    else if k == 2 { PatchRechecks(cfg); }
    else { PatchAppends(cfg); }
  }

  lemma PatchWrites(cfg: Config)
    ensures CanStep(PatchState(5), 0)
    ensures MarkChanges(PatchState(5).store, DoStep(cfg, PatchState(5), 0, ANSWERED).store, 1)
  {
    var s := PatchState(5).store;
    var g := Gate(Some(Evidence), None);
    assert BodyStep(cfg, 0, PATCH, g, TierWrite, s, ANSWERED).store == SetPayload(s, 1, TierPatch(PATCH, 0));
    assert EffTier(SetPayload(s, 1, TierPatch(PATCH, 0))[1]) == Stable;
  }

  lemma {:induction false} PatchRuns(cfg: Config, k: nat) returns (sched: seq<Move>)
    requires k <= 5
    ensures Runs(cfg, PatchState(0), sched) && After(cfg, PatchState(0), sched) == PatchState(k)
  {
    if k == 0 {
      sched := [];
    } else {
      hide PatchState, DoStep, CanStep;
      var front := PatchRuns(cfg, k - 1);
      PatchSteps(cfg, k - 1);
      RunsOn(cfg, PatchState(0), front, Move(0, ANSWERED));
      sched := front + [Move(0, ANSWERED)];
    }
  }

  /** Runs with such a change exist. */
  lemma AChangeHappens(cfg: Config) returns (s0: State, sched: seq<Move>)
    ensures Initial(s0) && Runs(cfg, s0, sched) && CanStep(After(cfg, s0, sched), 0)
    ensures MarkChanges(After(cfg, s0, sched).store, DoStep(cfg, After(cfg, s0, sched), 0, ANSWERED).store, 1)
  {
    hide Runs, After, DoStep, CanStep, MarkChanges;
    s0 := PatchState(0);
    sched := PatchRuns(cfg, 5);
    PatchWrites(cfg);
  }

  // ---- its own line: a request changes a record at most once ----

  // How far a request has come past its append: to the write, past the write, out of the region's work.
  datatype Stage = Acting | Acted | Left

  predicate Reached(pc: PC, stage: Stage) {
    || (pc.Body? && pc.l.Exit?) || pc.Unlocking? || pc.Finish? || pc.Done?
    || (stage != Left && pc.Body? && pc.l.UnsStamp?)
    || (stage == Acting && Announcing(pc))
  }

  predicate ChangesAt(cfg: Config, s0: State, sched: seq<Move>, k: int, id: Id)
    requires Runs(cfg, s0, sched)
  {
    && 0 <= k < |sched|
    && Runs(cfg, s0, sched[..k]) && CanStep(After(cfg, s0, sched[..k]), sched[k].t)
    && MarkChanges(After(cfg, s0, sched[..k]).store,
                   DoStep(cfg, After(cfg, s0, sched[..k]), sched[k].t, sched[k].ch).store, id)
  }

  lemma {:induction false} PrefixRuns(cfg: Config, s0: State, sched: seq<Move>, k: nat)
    requires Runs(cfg, s0, sched) && k <= |sched|
    ensures Runs(cfg, s0, sched[..k])
    ensures k < |sched| ==> CanStep(After(cfg, s0, sched[..k]), sched[k].t)
                            && sched[..k + 1][..k] == sched[..k]
    decreases |sched|
  {
    if k == |sched| {
      assert sched[..k] == sched;
    } else {
      assert sched[..k + 1][..k] == sched[..k];
      if k < |sched| - 1 {
        assert sched[..|sched| - 1][..k] == sched[..k] && sched[..|sched| - 1][k] == sched[k];
        PrefixRuns(cfg, s0, sched[..|sched| - 1], k);
      }
    }
  }

  lemma StageStays(cfg: Config, s: State, t: nat, ch: Choice, u: nat, stage: Stage)
    requires Inv(cfg, s) && CanStep(s, t) && u < |s.threads| && Reached(s.threads[u].pc, stage)
    ensures Reached(DoStep(cfg, s, t, ch).threads[u].pc, stage)
  {
    StepFrame(cfg, s, t, ch);
    if u == t && s.threads[t].pc.Body? {
      var th := s.threads[t];
      assert LocOk(cfg, t, th.req, th.pc.g, th.pc.l, s.store);
    }
  }

  lemma {:induction false} StageStaysReached(cfg: Config, s0: State, sched: seq<Move>, k: nat, u: nat, stage: Stage)
    requires Initial(s0) && Runs(cfg, s0, sched) && k <= |sched|
    requires Runs(cfg, s0, sched[..k]) && u < |After(cfg, s0, sched[..k]).threads|
    requires Reached(After(cfg, s0, sched[..k]).threads[u].pc, stage)
    ensures u < |After(cfg, s0, sched).threads| && Reached(After(cfg, s0, sched).threads[u].pc, stage)
  {
    if k == |sched| {
      assert sched[..k] == sched;
    } else {
      var front, last := sched[..|sched| - 1], sched[|sched| - 1];
      assert front[..k] == sched[..k];
      StageStaysReached(cfg, s0, front, k, u, stage);
      ReachableInv(cfg, s0, front);
      StepFrame(cfg, After(cfg, s0, front), last.t, last.ch);
      StageStays(cfg, After(cfg, s0, front), last.t, last.ch, u, stage);
    }
  }

  lemma StepAt(cfg: Config, s0: State, sched: seq<Move>, k: nat)
    requires Runs(cfg, s0, sched) && k < |sched|
    ensures Runs(cfg, s0, sched[..k]) && CanStep(After(cfg, s0, sched[..k]), sched[k].t)
    ensures Runs(cfg, s0, sched[..k + 1])
    ensures After(cfg, s0, sched[..k + 1]) == DoStep(cfg, After(cfg, s0, sched[..k]), sched[k].t, sched[k].ch)
  {
    PrefixRuns(cfg, s0, sched, k);
    PrefixRuns(cfg, s0, sched, k + 1);
    assert sched[..k + 1][..k] == sched[..k] && sched[..k + 1][k] == sched[k];
  }

  lemma ChangeSpends(cfg: Config, s0: State, sched: seq<Move>, k: nat, id: Id)
    requires Initial(s0) && Runs(cfg, s0, sched) && k < |sched| && ChangesAt(cfg, s0, sched, k, id)
    ensures Runs(cfg, s0, sched[..k]) && Runs(cfg, s0, sched[..k + 1])
    ensures sched[k].t < |After(cfg, s0, sched[..k]).threads| && sched[k].t < |After(cfg, s0, sched[..k + 1]).threads|
    ensures !Reached(After(cfg, s0, sched[..k]).threads[sched[k].t].pc, Acted)
    ensures Reached(After(cfg, s0, sched[..k + 1]).threads[sched[k].t].pc, Acted)
  {
    StepAt(cfg, s0, sched, k);
    ReachableInv(cfg, s0, sched[..k]);
    ChangeIsAWrite(cfg, After(cfg, s0, sched[..k]), sched[k].t, sched[k].ch, id);
    StepFrame(cfg, After(cfg, s0, sched[..k]), sched[k].t, sched[k].ch);
  }

  /** Every change has its own line: two changes in one run are never the work of the same request. */
  lemma OneChangePerRequest(cfg: Config, s0: State, sched: seq<Move>, k: nat, m: nat, i: Id, j: Id)
    requires Initial(s0) && Runs(cfg, s0, sched) && k < m
    requires ChangesAt(cfg, s0, sched, k, i) && ChangesAt(cfg, s0, sched, m, j)
    ensures sched[k].t != sched[m].t
  {
    hide DoStep, CanStep;
    ChangeSpends(cfg, s0, sched, k, i);
    ChangeSpends(cfg, s0, sched, m, j);
    assert sched[..m][..k + 1] == sched[..k + 1];
    StageStaysReached(cfg, s0, sched[..m], k + 1, sched[k].t, Acted);
  }

  // ---- a failed append refuses the write ----

  /** The k-th move is the append of a line, under the ledger lock, and it fails. */
  predicate AppendFailsAt(cfg: Config, s0: State, sched: seq<Move>, k: int)
    requires Runs(cfg, s0, sched)
  {
    && 0 <= k < |sched| && sched[k].ch.fault != Fine
    && Runs(cfg, s0, sched[..k]) && CanStep(After(cfg, s0, sched[..k]), sched[k].t)
    && var s := After(cfg, s0, sched[..k]);
       s.owner == Some(sched[k].t) && s.threads[sched[k].t].pc.Body? && s.threads[sched[k].t].pc.l.Append?
  }

  lemma StoreChangeIsAnnounced(cfg: Config, s: State, t: nat, ch: Choice)
    requires Inv(cfg, s) && CanStep(s, t) && Intent(t, s.threads[t].req).Some?
    requires DoStep(cfg, s, t, ch).store != s.store
    ensures Announcing(s.threads[t].pc)
  {
    var th := s.threads[t];
    StepFrame(cfg, s, t, ch);
    assert LocOk(cfg, t, th.req, th.pc.g, th.pc.l, s.store);
  }

  lemma {:induction false} RequestStays(cfg: Config, s0: State, sched: seq<Move>, t: nat)
    requires Runs(cfg, s0, sched) && t < |s0.threads|
    ensures t < |After(cfg, s0, sched).threads| && After(cfg, s0, sched).threads[t].req == s0.threads[t].req
  {
    if sched != [] {
      var front, last := sched[..|sched| - 1], sched[|sched| - 1];
      RequestStays(cfg, s0, front, t);
      ThreadFrame(cfg, After(cfg, s0, front), last.t, last.ch);
    }
  }

  lemma FailedAppendLeaves(cfg: Config, s: State, t: nat, ch: Choice)
    requires Inv(cfg, s) && CanStep(s, t) && ch.fault != Fine && s.owner == Some(t)
    requires s.threads[t].pc.Body? && s.threads[t].pc.l.Append?
    ensures DoStep(cfg, s, t, ch).store == s.store && Reached(DoStep(cfg, s, t, ch).threads[t].pc, Left)
  {
    var th := s.threads[t];
    AppendLeadsToItsWrite(cfg, t, th.req, th.pc.g, th.pc.l, s.store);
  }

  /** If the intent append of a request fails, no step of that request changes the store, before or after the
      failure, whatever the other requests do in between. */
  lemma FailedAppendWritesNothing(cfg: Config, s0: State, sched: seq<Move>, k: nat, m: nat)
    requires Initial(s0) && Runs(cfg, s0, sched) && AppendFailsAt(cfg, s0, sched, k)
    requires m < |sched| && sched[m].t == sched[k].t
    requires sched[k].t < |s0.threads| && Intent(sched[k].t, s0.threads[sched[k].t].req).Some?
    ensures Runs(cfg, s0, sched[..m]) && Runs(cfg, s0, sched[..m + 1])
    ensures After(cfg, s0, sched[..m + 1]).store == After(cfg, s0, sched[..m]).store
  {
    hide DoStep, CanStep, Inv;
    var t := sched[k].t;
    StepAt(cfg, s0, sched, m);
    StepAt(cfg, s0, sched, k);
    ReachableInv(cfg, s0, sched[..m]);
    ReachableInv(cfg, s0, sched[..k]);
    RequestStays(cfg, s0, sched[..m], t);
    var s := After(cfg, s0, sched[..m]);
    FailedAppendLeaves(cfg, After(cfg, s0, sched[..k]), t, sched[k].ch);
    if DoStep(cfg, s, t, sched[m].ch).store != s.store {
      StoreChangeIsAnnounced(cfg, s, t, sched[m].ch);
      if m < k {
        assert sched[..k][..m] == sched[..m];
        StageStaysReached(cfg, s0, sched[..k], m, t, Acting);
      } else if k < m {
        assert sched[..m][..k + 1] == sched[..k + 1];
        RequestStays(cfg, s0, sched[..k + 1], t);
        StageStaysReached(cfg, s0, sched[..m], k + 1, t, Left);
      }
    }
  }

  // ---- when nothing fails, the ledger rebuilds the marks ----

  type Marks = map<Id, Face>

  function MarksOf(s: Store): Marks { map i | i in s :: FaceOf(s[i]) }

  function ReplayLine(m: Marks, line: Line): Marks {
    if line.id in m then m[line.id := Announced(line, m[line.id])] else m
  }

  function Replay(m: Marks, ledger: seq<Line>): Marks {
    if ledger == [] then m else ReplayLine(Replay(m, ledger[..|ledger| - 1]), ledger[|ledger| - 1])
  }

  predicate Quiet(line: Line) { !line.TierIntent? && !line.SupersedeIntent? && !line.UnsupersedeIntent? }

  /** Completion lines announce nothing. */
  predicate QuietAfter(pc: PC) {
    match pc
    case Body(_, l) => l.Exit? && l.after.Some? ==> Quiet(l.after.value)
    case Unlocking(_, after) => after.Some? ==> Quiet(after.value)
    case Finish(line) => Quiet(line)
    case _ => true
  }

  predicate PendingOn(s: State, t: int, id: Id) {
    0 <= t < |s.threads| && s.threads[t].pc.Body? && Writes(s.threads[t].pc.l) && s.threads[t].req.id == id
  }

  ghost predicate MarkMatches(s: State, replayed: Marks, id: Id) {
    && id in s.store && id in replayed
    && (forall t :: PendingOn(s, t, id) ==>
          Intent(t, s.threads[t].req).Some?
          && SameMark(replayed[id], Announced(Intent(t, s.threads[t].req).value, FaceOf(s.store[id]))))
    && ((forall t :: !PendingOn(s, t, id)) ==> SameMark(replayed[id], FaceOf(s.store[id])))
  }

  ghost predicate ReplayInv(s0: State, s: State) {
    && s0.ledger <= s.ledger
    && s.store.Keys == s0.store.Keys
    && (forall t :: 0 <= t < |s.threads| ==> QuietAfter(s.threads[t].pc))
    && forall id :: id in s.store ==> MarkMatches(s, Replay(MarksOf(s0.store), s.ledger[|s0.ledger|..]), id)
  }

  lemma {:induction false} ReplayKeepsKeys(m: Marks, ledger: seq<Line>)
    ensures Replay(m, ledger).Keys == m.Keys
  {
    if ledger != [] { ReplayKeepsKeys(m, ledger[..|ledger| - 1]); }
  }

  lemma RegionIsQuiet(cfg: Config, tid: nat, r: Request, g: Gate, l: Loc, s: Store, ch: Choice)
    requires LocOk(cfg, tid, r, g, l, s) && !l.Exit?
    ensures var l' := BodyStep(cfg, tid, r, g, l, s, ch).loc; l'.Exit? && l'.after.Some? ==> Quiet(l'.after.value)
  {
    if l.Append? { AppendLeadsToItsWrite(cfg, tid, r, g, l, s); }
  }

  lemma QuietStep(cfg: Config, s: State, t: nat, ch: Choice)
    requires Inv(cfg, s) && CanStep(s, t) && QuietAfter(s.threads[t].pc)
    ensures QuietAfter(DoStep(cfg, s, t, ch).threads[t].pc)
  {
    var th := s.threads[t];
    match th.pc
    case Arrive => GateShape(s.store, th.req, None, Security.APut, ch);
    case Token(tier, action) => GateShape(s.store, th.req, tier, action, ch);
    case Locking(_, g) => StartDoesNotWrite(t, th.req, g);
    case Body(g, l) =>
      assert PcOk(cfg, t, th, s.store);
      if !l.Exit? { RegionIsQuiet(cfg, t, th.req, g, l, s.store, ch); }
    case _ =>
  }

  lemma FineWriteDoesWhatItSaid(cfg: Config, tid: nat, r: Request, g: Gate, l: Loc, s: Store, ch: Choice)
    requires LocOk(cfg, tid, r, g, l, s) && Writes(l) && ch.fault == Fine && r.id in s && Intent(tid, r).Some?
    ensures var s' := BodyStep(cfg, tid, r, g, l, s, ch).store;
            r.id in s' && FaceOf(s'[r.id]) == Announced(Intent(tid, r).value, FaceOf(s[r.id]))
            && !Writes(BodyStep(cfg, tid, r, g, l, s, ch).loc)
  {
    match r
    case PatchTier(_, _, _, _, _) => TierPatchFace(r, s[r.id], ch.now);
    case Supersede(_, winner, scope, detail, _) =>
      SupersedePatchFace(s[r.id], winner, scope, detail, l.patch[KUpdatedAt].time);
    case Unsupersede(_, scope, _) => ClearedFace(s[r.id], scope);
    case _ =>
  }

  /** Only one thread at a time stands between an intent line and its write on a given record. */
  lemma OnePending(cfg: Config, s: State, t: int, u: int, id: Id)
    requires Inv(cfg, s) && PendingOn(s, t, id)
    requires 0 <= u < |s.threads| && s.threads[u].pc.Body? && s.threads[u].req.id == id
    ensures t == u
  {
    OrderIsLockSet(s.threads[t].req);
    OrderIsLockSet(s.threads[u].req);
    if t != u { MutualExclusion(s, t, u); }
  }

  lemma MarkStepAppend(cfg: Config, s: State, t: nat, ch: Choice, replayed: Marks, id: Id)
    requires Inv(cfg, s) && CanStep(s, t) && MarkMatches(s, replayed, id)
    requires s.threads[t].pc.Body? && s.threads[t].pc.l.Append?
    requires !Announcing(s.threads[t].pc) && Announcing(DoStep(cfg, s, t, ch).threads[t].pc)
    ensures MarkMatches(DoStep(cfg, s, t, ch), ReplayLine(replayed, s.threads[t].pc.l.line), id)
  {
    var s' := DoStep(cfg, s, t, ch);
    var line := s.threads[t].pc.l.line;
    EnteringAnnounces(cfg, s, t, ch);
    StepFrame(cfg, s, t, ch);
    assert line.id == s.threads[t].req.id;
    if line.id == id {
      forall u ensures !PendingOn(s, u, id) {
        if PendingOn(s, u, id) { OnePending(cfg, s, u, t, id); }
      }
      MarkAfterIntent(s, s', t, line, replayed, id);
    } else {
      WriteElsewhere(s, s', t, id);
      MarkUntouched(s, s', replayed, ReplayLine(replayed, line), id);
    }
  }

  lemma MarkUntouched(s: State, s': State, replayed: Marks, replayed': Marks, id: Id)
    requires MarkMatches(s, replayed, id)
    requires id in s'.store && FaceOf(s'.store[id]) == FaceOf(s.store[id])
    requires id in replayed' && replayed'[id] == replayed[id]
    requires forall u :: PendingOn(s', u, id) <==> PendingOn(s, u, id)
    requires forall u :: PendingOn(s', u, id) ==> u < |s.threads| && s'.threads[u].req == s.threads[u].req
    ensures MarkMatches(s', replayed', id)
  {
  }

  lemma MarkAfterIntent(s: State, s': State, t: nat, line: Line, replayed: Marks, id: Id)
    requires MarkMatches(s, replayed, id) && (forall u :: !PendingOn(s, u, id))
    requires t < |s.threads| == |s'.threads| && s'.store == s.store
    requires forall u :: 0 <= u < |s.threads| && u != t ==> s'.threads[u] == s.threads[u]
    requires PendingOn(s', t, id) && Intent(t, s'.threads[t].req) == Some(line) && line.id == id
    ensures MarkMatches(s', ReplayLine(replayed, line), id)
  {
    forall u | u != t ensures !PendingOn(s', u, id) {
      assert !PendingOn(s, u, id);
    }
    assert SameMark(replayed[id], FaceOf(s.store[id]));
    assert PendingOn(s', t, id);
  }

  lemma MarkStepWrite(cfg: Config, s: State, t: nat, ch: Choice, replayed: Marks, id: Id)
    requires Inv(cfg, s) && CanStep(s, t) && MarkMatches(s, replayed, id) && ch.fault == Fine
    requires s.threads[t].pc.Body? && Writes(s.threads[t].pc.l)
    ensures MarkMatches(DoStep(cfg, s, t, ch), replayed, id)
  {
    var s' := DoStep(cfg, s, t, ch);
    var th := s.threads[t];
    StepFrame(cfg, s, t, ch);
    if th.req.id == id {
      assert PendingOn(s, t, id);
      FineWriteDoesWhatItSaid(cfg, t, th.req, th.pc.g, th.pc.l, s.store, ch);
      forall u ensures !PendingOn(s', u, id) {
        if PendingOn(s', u, id) && u != t { OnePending(cfg, s, t, u, id); }
      }
    } else {
      WriteElsewhere(s, s', t, id);
    }
  }

  lemma WriteElsewhere(s: State, s': State, t: nat, id: Id)
    requires t < |s.threads| == |s'.threads|
    requires forall u :: 0 <= u < |s.threads| && u != t ==> s'.threads[u] == s.threads[u]
    requires s'.threads[t].req == s.threads[t].req
    requires s.threads[t].req.id != id
           || ((s.threads[t].pc.Body? && Writes(s.threads[t].pc.l)) <==> (s'.threads[t].pc.Body? && Writes(s'.threads[t].pc.l)))
    ensures forall u :: PendingOn(s', u, id) <==> PendingOn(s, u, id)
  {
  }

  lemma MarkStepOther(cfg: Config, s: State, t: nat, ch: Choice, replayed: Marks, id: Id)
    requires Inv(cfg, s) && CanStep(s, t) && MarkMatches(s, replayed, id)
    requires var s' := DoStep(cfg, s, t, ch);
             && !(s.threads[t].pc.Body? && Writes(s.threads[t].pc.l))
             && !(!Announcing(s.threads[t].pc) && Announcing(s'.threads[t].pc))
    ensures MarkMatches(DoStep(cfg, s, t, ch), replayed, id)
  {
    var s' := DoStep(cfg, s, t, ch);
    StepFrame(cfg, s, t, ch);
    if MarkChanges(s.store, s'.store, id) {
      ChangeIsAWrite(cfg, s, t, ch, id);
    }
    NotWritingStays(cfg, s, t, ch);
    MarkKept(s, s', t, replayed, id);
  }

  lemma MarkKept(s: State, s': State, t: nat, replayed: Marks, id: Id)
    requires MarkMatches(s, replayed, id) && t < |s.threads| == |s'.threads|
    requires forall u :: 0 <= u < |s.threads| && u != t ==> s'.threads[u] == s.threads[u]
    requires s'.threads[t].req == s.threads[t].req
    requires !(s.threads[t].pc.Body? && Writes(s.threads[t].pc.l)) && !(s'.threads[t].pc.Body? && Writes(s'.threads[t].pc.l))
    requires id in s'.store && SameMark(FaceOf(s'.store[id]), FaceOf(s.store[id]))
    ensures MarkMatches(s', replayed, id)
  {
    WriteElsewhere(s, s', t, id);
  }

  lemma NotWritingStays(cfg: Config, s: State, t: nat, ch: Choice)
    requires Inv(cfg, s) && CanStep(s, t)
    requires var s' := DoStep(cfg, s, t, ch);
             && !(s.threads[t].pc.Body? && Writes(s.threads[t].pc.l))
             && !(!Announcing(s.threads[t].pc) && Announcing(s'.threads[t].pc))
    ensures var pc' := DoStep(cfg, s, t, ch).threads[t].pc; !(pc'.Body? && Writes(pc'.l))
  {
    var th := s.threads[t];
    if Announcing(th.pc) {
      assert LocOk(cfg, t, th.req, th.pc.g, th.pc.l, s.store);
    }
  }

  predicate Entering(s: State, s': State, t: nat)
    requires t < |s.threads| && t < |s'.threads|
  {
    !Announcing(s.threads[t].pc) && Announcing(s'.threads[t].pc)
  }

  /** Apart from the intent it is about to act on, a step adds nothing to the ledger or a quiet line. */
  lemma LedgerStep(cfg: Config, s: State, t: nat, ch: Choice)
    requires Inv(cfg, s) && CanStep(s, t) && QuietAfter(s.threads[t].pc) && ch.fault == Fine
    requires !Entering(s, DoStep(cfg, s, t, ch), t)
    ensures var before, after := s.ledger, DoStep(cfg, s, t, ch).ledger;
            after == before || (|after| == |before| + 1 && after[..|before|] == before && Quiet(after[|before|]))
  {
    var th := s.threads[t];
    if th.pc.Body? && th.pc.l.Append? {
      assert PcOk(cfg, t, th, s.store);
      AppendLeadsToItsWrite(cfg, t, th.req, th.pc.g, th.pc.l, s.store);
    }
  }

  lemma ReplayQuiet(m: Marks, ledger: seq<Line>, more: seq<Line>)
    requires |more| == |ledger| + 1 && more[..|ledger|] == ledger
    ensures Replay(m, more) == ReplayLine(Replay(m, ledger), more[|ledger|])
    ensures Quiet(more[|ledger|]) ==> Replay(m, more) == Replay(m, ledger)
  {
    assert more[..|more| - 1] == ledger;
  }

  /** The replayed part of the ledger grows by the intent, or stays equivalent. */
  lemma ReplayedAfter(cfg: Config, s: State, t: nat, ch: Choice, m: Marks, n: nat)
    requires Inv(cfg, s) && CanStep(s, t) && QuietAfter(s.threads[t].pc) && ch.fault == Fine && n <= |s.ledger|
    ensures var s' := DoStep(cfg, s, t, ch);
            && n <= |s'.ledger|
            && Replay(m, s'.ledger[n..])
               == if Entering(s, s', t) && s.threads[t].pc.Body? && s.threads[t].pc.l.Append?
                  then ReplayLine(Replay(m, s.ledger[n..]), s.threads[t].pc.l.line)
                  else Replay(m, s.ledger[n..])
  {
    var s' := DoStep(cfg, s, t, ch);
    if Entering(s, s', t) { EnteringAnnounces(cfg, s, t, ch); } else { LedgerStep(cfg, s, t, ch); }
    var before, after := s.ledger[n..], s'.ledger[n..];
    if s'.ledger != s.ledger {
      assert after[..|before|] == before && after[|before|] == s'.ledger[|s.ledger|];
      ReplayQuiet(m, before, after);
    }
  }

  lemma StepKeepsReplay(cfg: Config, s0: State, s: State, t: nat, ch: Choice)
    requires Inv(cfg, s) && CanStep(s, t) && ReplayInv(s0, s) && ch.fault == Fine
    ensures ReplayInv(s0, DoStep(cfg, s, t, ch))
  {
    hide BodyStep, GateRead, PcOk, TableOk;
    var s' := DoStep(cfg, s, t, ch);
    var m, n := MarksOf(s0.store), |s0.ledger|;
    StepFrame(cfg, s, t, ch);
    QuietStep(cfg, s, t, ch);
    LedgerGrows(cfg, s, t, ch);
    ReplayedAfter(cfg, s, t, ch, m, n);
    forall id | id in s'.store ensures MarkMatches(s', Replay(m, s'.ledger[n..]), id) {
      assert MarkMatches(s, Replay(m, s.ledger[n..]), id);
      MarkStep(cfg, s, t, ch, Replay(m, s.ledger[n..]), id);
    }
  }

  lemma MarkStep(cfg: Config, s: State, t: nat, ch: Choice, replayed: Marks, id: Id)
    requires Inv(cfg, s) && CanStep(s, t) && MarkMatches(s, replayed, id) && ch.fault == Fine
    ensures var s' := DoStep(cfg, s, t, ch);
            if Entering(s, s', t)
            then s.threads[t].pc.Body? && s.threads[t].pc.l.Append?
                 && MarkMatches(s', ReplayLine(replayed, s.threads[t].pc.l.line), id)
            else MarkMatches(s', replayed, id)
  {
    var th := s.threads[t];
    if Entering(s, DoStep(cfg, s, t, ch), t) {
      EnteringAnnounces(cfg, s, t, ch);
      MarkStepAppend(cfg, s, t, ch, replayed, id);
    } else if th.pc.Body? && Writes(th.pc.l) {
      MarkStepWrite(cfg, s, t, ch, replayed, id);
    } else {
      MarkStepOther(cfg, s, t, ch, replayed, id);
    }
  }

  predicate NothingFails(sched: seq<Move>) {
    forall k :: 0 <= k < |sched| ==> sched[k].ch.fault == Fine
  }

  lemma {:induction false} ReachableReplay(cfg: Config, s0: State, sched: seq<Move>)
    requires Initial(s0) && Runs(cfg, s0, sched) && NothingFails(sched)
    ensures ReplayInv(s0, After(cfg, s0, sched))
  {
    if sched == [] {
      assert s0.ledger[|s0.ledger|..] == [];
    } else {
      var front, last := sched[..|sched| - 1], sched[|sched| - 1];
      ReachableReplay(cfg, s0, front);
      ReachableInv(cfg, s0, front);
      StepKeepsReplay(cfg, s0, After(cfg, s0, front), last.t, last.ch);
    }
  }

  /** Once every request is done and nothing failed, replaying the lines of the run over the initial
      store gives every record its effective tier and its supersession link. */
  lemma LedgerRebuildsMarks(cfg: Config, s0: State, sched: seq<Move>)
    requires Initial(s0) && Runs(cfg, s0, sched) && NothingFails(sched) && AllDone(After(cfg, s0, sched))
    ensures s0.ledger <= After(cfg, s0, sched).ledger
    ensures
      var s := After(cfg, s0, sched);
      var rebuilt := Replay(MarksOf(s0.store), s.ledger[|s0.ledger|..]);
      && rebuilt.Keys == s.store.Keys
      && forall id :: id in s.store ==> SameMark(rebuilt[id], FaceOf(s.store[id]))
  {
    ReachableReplay(cfg, s0, sched);
    var s := After(cfg, s0, sched);
    var rebuilt := Replay(MarksOf(s0.store), s.ledger[|s0.ledger|..]);
    ReplayKeepsKeys(MarksOf(s0.store), s.ledger[|s0.ledger|..]);
    forall id | id in s.store ensures SameMark(rebuilt[id], FaceOf(s.store[id])) {
      assert MarkMatches(s, rebuilt, id);
      assert forall t :: !PendingOn(s, t, id);
    }
  }
}
