/** The lock protocol never gets stuck and never runs forever: two-record locks are taken in one global
    order, the ledger lock is always the last one taken, and every handler has a bounded number of steps. */
module Progress {
  import opened Records
  import Security
  import opened Handlers
  import opened HandlerFacts
  import opened Machine

  /** The record a thread is blocked on. */
  predicate WaitsFor(s: State, t: nat, i: Id) {
    && t < |s.threads| && s.threads[t].pc.Locking?
    && s.threads[t].pc.k < |LockOrder(s.threads[t].req)|
    && LockOrder(s.threads[t].req)[s.threads[t].pc.k] == i && i in s.locks
  }

  lemma StuckMeansWaiting(cfg: Config, s: State, t: nat)
    requires Inv(cfg, s) && s.owner == None && t < |s.threads|
    requires !s.threads[t].pc.Done? && !CanStep(s, t)
    ensures s.threads[t].pc.Locking? && s.threads[t].pc.k < |LockOrder(s.threads[t].req)|
            && WaitsFor(s, t, LockOrder(s.threads[t].req)[s.threads[t].pc.k])
  {
    assert PcOk(cfg, t, s.threads[t], s.store);
  }

  /** Whoever holds a lock has not finished, and if it waits itself, it waits for a later record. */
  lemma HolderWaitsLater(cfg: Config, s: State, i: Id)
    requires Inv(cfg, s) && i in s.locks
    ensures var u := s.locks[i];
            && u < |s.threads| && !s.threads[u].pc.Done?
            && (s.threads[u].pc.Locking? && s.threads[u].pc.k < |LockOrder(s.threads[u].req)| ==>
                  i < LockOrder(s.threads[u].req)[s.threads[u].pc.k])
  {
    var u := s.locks[i];
    assert i in HeldBy(s)[u];
    var th := s.threads[u];
    if th.pc.Locking? && th.pc.k < |LockOrder(th.req)| {
      FirstIn(LockOrder(th.req), th.pc.k, i);
    }
  }

  /** Following the holders of the locks leads, record by record in increasing order, to a thread that
      can take a step. */
  lemma {:induction false} ChainEndsInAStep(cfg: Config, s: State, t: nat, i: Id) returns (u: nat)
    requires Inv(cfg, s) && s.owner == None && WaitsFor(s, t, i)
    ensures CanStep(s, u)
    decreases set j | j in s.locks && j >= i
  {
    HolderWaitsLater(cfg, s, i);
    u := s.locks[i];
    if !CanStep(s, u) {
      StuckMeansWaiting(cfg, s, u);
      var later := LockOrder(s.threads[u].req)[s.threads[u].pc.k];
      var here, there := set j | j in s.locks && j >= i, set j | j in s.locks && j >= later;
      assert there <= here && i in here && i !in there;
      u := ChainEndsInAStep(cfg, s, u, later);
    }
  }

  /** No deadlock: while some request is unfinished, some thread can take a step. */
  lemma NeverDeadlocks(cfg: Config, s0: State, sched: seq<Move>)
    requires Initial(s0) && Runs(cfg, s0, sched) && !AllDone(After(cfg, s0, sched))
    ensures exists t :: 0 <= t < |s0.threads| && CanStep(After(cfg, s0, sched), t)
  {
    var s := After(cfg, s0, sched);
    ReachableInv(cfg, s0, sched);
    ThreadCount(cfg, s0, sched);
    if s.owner.Some? {
      assert CanStep(s, s.owner.value);
    } else {
      var t :| 0 <= t < |s.threads| && s.threads[t].pc != Done;
      if !CanStep(s, t) {
        StuckMeansWaiting(cfg, s, t);
        var u := ChainEndsInAStep(cfg, s, t, LockOrder(s.threads[t].req)[s.threads[t].pc.k]);
      }
    }
  }

  lemma {:induction false} ThreadCount(cfg: Config, s0: State, sched: seq<Move>)
    requires Initial(s0) && Runs(cfg, s0, sched)
    ensures |After(cfg, s0, sched).threads| == |s0.threads|
  {
    if sched != [] {
      var front := sched[..|sched| - 1];
      ThreadCount(cfg, s0, front);
      ReachableInv(cfg, s0, front);
      StepFrame(cfg, After(cfg, s0, front), sched[|sched| - 1].t, sched[|sched| - 1].ch);
    }
  }

  // ---- every run is bounded ----

  function Max(a: nat, b: nat): nat { if a < b then b else a }

  /** How many more steps the locked region can take at most. */
  function LocRank(l: Loc): nat {
    match l
    case PutRead => 24
    case PutWrite(_) => 23
    case PutCheck(_, attempt, _) => if attempt < MAX_ATTEMPTS then 4 * (MAX_ATTEMPTS - attempt) + 6 else 0
    case PutRestore(_, attempt, _) => if attempt < MAX_ATTEMPTS then 4 * (MAX_ATTEMPTS - attempt) + 5 else 0
    case PutRecheck(_, attempt, _) => if attempt < MAX_ATTEMPTS then 4 * (MAX_ATTEMPTS - attempt) + 4 else 0
    case TierSuperseded => 4
    case TierRecheck => 3
    case TierWrite => 1
    case MetaWrite => 1
    case StampWrite => 1
    case SupLoser => 4
    case SupWinner(_) => 3
    case SupWrite(_) => 1
    case UnsRead => 4
    case UnsDelete => 2
    case UnsStamp => 1
    case Append(_, next, failed) => 1 + Max(LocRank(next), LocRank(failed))
    case Exit(_) => 0
  }

  function Rank(pc: PC): nat {
    match pc
    case Arrive => 60
    case Token(_, _) => 59
    case Canary => 58
    case Locking(k, _) => if k <= 2 then 57 - k else 50
    case Body(_, l) => 5 + LocRank(l)
    case Unlocking(k, _) => 1 + k
    case Finish(_) => 1
    case Done => 0
  }

  function TotalRank(threads: seq<Thread>): nat {
    if threads == [] then 0 else TotalRank(threads[..|threads| - 1]) + Rank(threads[|threads| - 1].pc)
  }

  function Measure(s: State): nat {
    2 * TotalRank(s.threads) + if s.owner == None then 1 else 0
  }

  lemma {:induction false} TotalRankUpdate(threads: seq<Thread>, t: nat, th: Thread)
    requires t < |threads|
    ensures TotalRank(threads[t := th]) == TotalRank(threads) - Rank(threads[t].pc) + Rank(th.pc)
  {
    var n := |threads| - 1;
    if t == n {
      assert threads[t := th][..n] == threads[..n];
    } else {
      TotalRankUpdate(threads[..n], t, th);
      assert threads[t := th][..n] == threads[..n][t := th];
    }
  }

  lemma StartRank(tid: nat, r: Request, g: Gate)
    ensures LocRank(StartLoc(tid, r, g)) <= 24
  {
  }

  lemma PutRetryRank(tid: nat, id: Id, want: Payload, attempt: nat, missing: Payload)
    requires attempt < MAX_ATTEMPTS
    ensures LocRank(PutRetry(tid, id, want, attempt, missing)) < 4 * (MAX_ATTEMPTS - attempt) + 4
    ensures LocRank(PutFinish(tid, id, want, missing)) < 4
  {
  }

  lemma PutCheckStepsDown(cfg: Config, tid: nat, r: Request, g: Gate, l: Loc, s: Store, ch: Choice)
    requires r.Put? && (l.PutCheck? || l.PutRecheck?) && l.attempt < MAX_ATTEMPTS
    ensures LocRank(PutStep(cfg, tid, r, g, l, s, ch).loc) < LocRank(l)
  {
    var found := Missing(l.want, Get(s, r.id));
    PutRetryRank(tid, r.id, l.want, l.attempt, l.missing);
    PutRetryRank(tid, r.id, l.want, l.attempt, map[]);
    PutRetryRank(tid, r.id, l.want, l.attempt, found);
  }

  lemma PutRestoreStepsDown(cfg: Config, tid: nat, r: Request, g: Gate, l: Loc, s: Store, ch: Choice)
    requires r.Put? && l.PutRestore? && l.attempt < MAX_ATTEMPTS
    ensures LocRank(PutStep(cfg, tid, r, g, l, s, ch).loc) < LocRank(l)
  {
    PutRetryRank(tid, r.id, l.want, l.attempt, l.missing);
  }

  lemma PutStepsDown(cfg: Config, tid: nat, r: Request, g: Gate, l: Loc, s: Store, ch: Choice)
    requires r.Put? && PutOk(r, l, s) && !l.Exit?
    ensures LocRank(BodyStep(cfg, tid, r, g, l, s, ch).loc) < LocRank(l)
  {
    match l
    case PutWrite(pre) => PutRetryRank(tid, r.id, Expected(pre, g.tier), 0, map[]);
    case PutCheck(_, _, _) => PutCheckStepsDown(cfg, tid, r, g, l, s, ch);
    case PutRestore(_, _, _) => PutRestoreStepsDown(cfg, tid, r, g, l, s, ch);
    case PutRecheck(_, _, _) => PutCheckStepsDown(cfg, tid, r, g, l, s, ch);
    case _ =>
  }

  lemma TierStepsDown(cfg: Config, tid: nat, r: Request, g: Gate, l: Loc, s: Store, ch: Choice)
    requires r.PatchTier? && TierOk(tid, r, g, l, s) && !l.Exit?
    ensures LocRank(BodyStep(cfg, tid, r, g, l, s, ch).loc) < LocRank(l)
  {
    assert LocRank(TierAppend(tid, r)) == 2;
  }

  lemma SupersedeStepsDown(cfg: Config, tid: nat, r: Request, g: Gate, l: Loc, s: Store, ch: Choice)
    requires r.Supersede? && SupersedeOk(cfg, tid, r, l, s) && !l.Exit?
    ensures LocRank(BodyStep(cfg, tid, r, g, l, s, ch).loc) < LocRank(l)
  {
  }

  lemma UnsupersedeStepsDown(cfg: Config, tid: nat, r: Request, g: Gate, l: Loc, s: Store, ch: Choice)
    requires r.Unsupersede? && UnsupersedeOk(tid, r, l, s) && !l.Exit?
    ensures LocRank(BodyStep(cfg, tid, r, g, l, s, ch).loc) < LocRank(l)
  {
  }

  lemma RegionStepsDown(cfg: Config, tid: nat, r: Request, g: Gate, l: Loc, s: Store, ch: Choice)
    requires LocOk(cfg, tid, r, g, l, s) && !l.Exit?
    ensures LocRank(BodyStep(cfg, tid, r, g, l, s, ch).loc) < LocRank(l)
  {
    match r
    case Put(_, _, _, _, _) => PutStepsDown(cfg, tid, r, g, l, s, ch);
    case PatchTier(_, _, _, _, _) => TierStepsDown(cfg, tid, r, g, l, s, ch);
    case Supersede(_, _, _, _, _) => SupersedeStepsDown(cfg, tid, r, g, l, s, ch);
    case Unsupersede(_, _, _) => UnsupersedeStepsDown(cfg, tid, r, g, l, s, ch);
    case _ =>
  }

  lemma GateRanks(s: Store, r: Request, tier: Option<Tier>, action: Security.Action, ch: Choice)
    ensures Rank(GateRead(s, r, ch)) < 60
    ensures Rank(AfterToken(r, tier, action, ch)) < 59
  {
  }

  lemma ThreadStepsDown(cfg: Config, s: State, t: nat, ch: Choice)
    requires Inv(cfg, s) && CanStep(s, t)
    ensures var s' := DoStep(cfg, s, t, ch);
            || (s'.threads == s.threads && s.owner == None && s'.owner != None)
            || (s'.threads == s.threads[t := s'.threads[t]] && Rank(s'.threads[t].pc) < Rank(s.threads[t].pc))
  {
    var th := s.threads[t];
    match th.pc
    case Arrive => GateRanks(s.store, th.req, None, Security.APut, ch);
    case Token(tier, action) => GateRanks(s.store, th.req, tier, action, ch);
    case Locking(_, g) => StartRank(t, th.req, g);
    case Body(g, l) => if !l.Exit? { RegionStepsDown(cfg, t, th.req, g, l, s.store, ch); }
    case _ =>
  }

  lemma StepDecreases(cfg: Config, s: State, t: nat, ch: Choice)
    requires Inv(cfg, s) && CanStep(s, t)
    ensures Measure(DoStep(cfg, s, t, ch)) < Measure(s)
  {
    ThreadStepsDown(cfg, s, t, ch);
    TotalRankUpdate(s.threads, t, DoStep(cfg, s, t, ch).threads[t]);
  }

  lemma {:induction false} RunIsBounded(cfg: Config, s0: State, sched: seq<Move>)
    requires Initial(s0) && Runs(cfg, s0, sched)
    ensures |sched| + Measure(After(cfg, s0, sched)) <= Measure(s0)
  {
    if sched != [] {
      var front, last := sched[..|sched| - 1], sched[|sched| - 1];
      RunIsBounded(cfg, s0, front);
      ReachableInv(cfg, s0, front);
      StepDecreases(cfg, After(cfg, s0, front), last.t, last.ch);
    }
  }

  lemma {:induction false} InitialMeasure(threads: seq<Thread>)
    requires forall t :: 0 <= t < |threads| ==> threads[t].pc == Arrive
    ensures TotalRank(threads) == 60 * |threads|
  {
    if threads != [] { InitialMeasure(threads[..|threads| - 1]); }
  }

  /** Every run of n requests takes at most 120 n + 1 steps, and a run that cannot be continued has
      finished them all: whatever the schedule and whatever fails, every request comes to its end. */
  lemma EveryRequestFinishes(cfg: Config, s0: State, sched: seq<Move>)
    requires Initial(s0) && Runs(cfg, s0, sched)
    ensures |sched| <= 120 * |s0.threads| + 1
    ensures (forall t :: 0 <= t < |s0.threads| ==> !CanStep(After(cfg, s0, sched), t)) ==> AllDone(After(cfg, s0, sched))
  {
    RunIsBounded(cfg, s0, sched);
    InitialMeasure(s0.threads);
    if !AllDone(After(cfg, s0, sched)) {
      NeverDeadlocks(cfg, s0, sched);
    }
  }
}
