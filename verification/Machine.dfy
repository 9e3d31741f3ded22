/** The server as a transition system: any number of requests, each with a program counter, sharing the
    store, the per-record locks, the ledger with its lock, and the nonce file. */
module Machine {
  import opened Records
  import opened Security
  import opened Handlers
  import opened HandlerFacts
  import ReplayStore

  datatype PC =
    | Arrive                                        // before the gate has read anything
    | Token(tier: Option<Tier>, action: Action)     // the gate asks for a signed token
    | Canary                                        // a promotion reads the text it promotes
    | Locking(k: nat, g: Gate)                      // holds the first k locks, wants the next
    | Body(g: Gate, l: Loc)                         // holds all of them
    | Unlocking(k: nat, after: Option<Line>)        // still holds the first k
    | Finish(line: Line)                            // the completion line, appended outside the locks
    | Done

  // `trail` records the outcomes the locked region has met so far.
  datatype Thread = Thread(req: Request, pc: PC, trail: seq<Choice>)

  // A locked region that ran to its end.
  datatype Commit = Commit(tid: nat, g: Gate, trail: seq<Choice>)

  datatype State = State(
    store: Store,
    threads: seq<Thread>,
    locks: map<Id, nat>,                 // record -> the thread that holds its lock
    ledger: seq<Line>,
    owner: Option<nat>,                  // the thread that holds the ledger lock
    nonces: seq<ReplayStore.Line>,
    attempts: seq<ReplayStore.Attempt>,  // every call of the token validator, in order
    askers: seq<nat>,                    // the thread behind each of them
    commits: seq<Commit>)

  // ---- the gate, outside every lock ----

  function Verified(r: Request): Option<bool>
    requires r.Put? || r.PatchTier? || r.PatchMetadata?
  {
    RequireServiceCredential(r.who, r.keyOk)
  }

  function MetadataGate(r: Request, g: Gate): PC
    requires r.PatchMetadata?
  {
    if AuthorizeMetadataPatch(g.tier, r.who, Verified(r) == Some(true), r.patch.Keys) then Locking(0, g) else Done
  }

  function TierGate(r: Request, g: Gate): PC
    requires r.PatchTier?
  {
    if r.target == Insight && !InsightAllowed(r.who) then Done else Locking(0, g)
  }

  function GateRead(s: Store, r: Request, ch: Choice): PC {
    match r
    case Put(id, _, who, _, _) =>
      var tier := FetchTier(s, id);
      if Verified(r).None? || ch.refuse || ch.fault != Fine then Done
      else if NeedsToken(tier, APut, who, Verified(r).value) then Token(tier, APut)
      else Locking(0, Gate(tier, None))
    case PatchMetadata(id, patch, who, _, _) =>
      var tier := FetchTier(s, id);
      if Verified(r).None? || KTier in patch || patch == map[] || ch.fault != Fine then Done
      else if NeedsToken(tier, APatchMetadata, who, Verified(r).value) then Token(tier, APatchMetadata)
      else MetadataGate(r, Gate(tier, None))
    case PatchTier(id, target, who, _, auth) =>
      if Verified(r).None? then Done
      else if target == Canonical then
        if (who.UserDirect? || who.DreamAutopromote?) && auth.reason != "" && auth.nonce != ""
        then Token(None, APromote) else Done
      else
        var tier := FetchTier(s, id);
        if ch.fault != Fine || tier.None? then Done
        else if TierChangeAction(tier, target) != Some(ADemote) then TierGate(r, Gate(tier, None))
        else if auth.reason == "" then Done
        else Token(tier, ADemote)
    case _ => Locking(0, Gate(None, None))
  }

  function AttemptOf(r: Request, action: Action, ch: Choice): ReplayStore.Attempt {
    var auth := if r.Put? || r.PatchTier? || r.PatchMetadata? then r.auth else Auth(0, "", "", "");
    ReplayStore.Attempt(auth.ts, auth.nonce, auth.mac, action, r.id, auth.reason, ch.skewNow, ch.gcNow, ch.size)
  }

  function AfterToken(r: Request, tier: Option<Tier>, action: Action, ch: Choice): PC {
    var g := Gate(tier, Some(action));
    match r
    case Put(_, _, _, _, _) => if ch.refuse then Done else Locking(0, g)
    case PatchMetadata(_, _, _, _, _) => MetadataGate(r, g)
    case PatchTier(_, _, _, _, _) => if action == APromote then Canary else TierGate(r, g)
    case _ => Done
  }

  // ---- one step of one thread ----

  predicate AtLedger(pc: PC) { (pc.Body? && pc.l.Append?) || pc.Finish? }

  predicate CanStep(s: State, t: nat) {
    && t < |s.threads|
    && var th := s.threads[t];
       && !th.pc.Done?
       && (th.pc.Locking? ==> th.pc.k < |LockOrder(th.req)| && LockOrder(th.req)[th.pc.k] !in s.locks)
       && (th.pc.Unlocking? ==> 0 < th.pc.k <= |LockOrder(th.req)|)
       && (AtLedger(th.pc) ==> s.owner == None || s.owner == Some(t))
  }

  function Goto(s: State, t: nat, pc: PC): State
    requires t < |s.threads|
  {
    s.(threads := s.threads[t := s.threads[t].(pc := pc)])
  }

  function TokenStep(cfg: Config, s: State, t: nat, ch: Choice): State
    requires t < |s.threads| && s.threads[t].pc.Token?
  {
    var th := s.threads[t];
    var a := AttemptOf(th.req, th.pc.action, ch);
    var accepted := ReplayStore.Accepts(cfg.signed, s.nonces, a);
    Goto(s, t, if accepted then AfterToken(th.req, th.pc.tier, th.pc.action, ch) else Done)
    .(nonces := ReplayStore.AfterAttempt(cfg.signed, s.nonces, a),
      attempts := s.attempts + [a],
      askers := s.askers + [t])
  }

  function LockStep(s: State, t: nat): State
    requires CanStep(s, t) && s.threads[t].pc.Locking?
  {
    var th := s.threads[t];
    var k := th.pc.k + 1;
    Goto(s, t, if k < |LockOrder(th.req)| then Locking(k, th.pc.g)
               else Body(th.pc.g, StartLoc(t, th.req, th.pc.g)))
    .(locks := s.locks[LockOrder(th.req)[th.pc.k] := t])
  }

  function BodyMove(cfg: Config, s: State, t: nat, ch: Choice): State
    requires CanStep(s, t) && s.threads[t].pc.Body?
  {
    var th := s.threads[t];
    var g, l := th.pc.g, th.pc.l;
    if l.Exit? then
      Goto(s, t, Unlocking(|LockOrder(th.req)|, l.after)).(commits := s.commits + [Commit(t, g, th.trail)])
    else if l.Append? && s.owner == None then s.(owner := Some(t))
    else
      var after := BodyStep(cfg, t, th.req, g, l, s.store, ch);
      s.(store := after.store,
         ledger := s.ledger + Wrote(l, ch),
         owner := if l.Append? then None else s.owner,
         threads := s.threads[t := Thread(th.req, Body(g, after.loc), th.trail + [ch])])
  }

  function UnlockStep(s: State, t: nat): State
    requires CanStep(s, t) && s.threads[t].pc.Unlocking?
  {
    var th := s.threads[t];
    var k := th.pc.k - 1;
    Goto(s, t, if k > 0 then Unlocking(k, th.pc.after)
               else if th.pc.after.Some? then Finish(th.pc.after.value) else Done)
    .(locks := s.locks - {LockOrder(th.req)[k]})
  }

  function FinishStep(s: State, t: nat, ch: Choice): State
    requires CanStep(s, t) && s.threads[t].pc.Finish?
  {
    if s.owner == None then s.(owner := Some(t))
    else Goto(s, t, Done).(owner := None,
                           ledger := if ch.fault == Refused then s.ledger else s.ledger + [s.threads[t].pc.line])
  }

  function DoStep(cfg: Config, s: State, t: nat, ch: Choice): State
    requires CanStep(s, t)
  {
    var th := s.threads[t];
    match th.pc
    case Arrive => Goto(s, t, GateRead(s.store, th.req, ch))
    case Token(_, _) => TokenStep(cfg, s, t, ch)
    case Canary => Goto(s, t, if ch.fault != Fine || ch.refuse then Done else Locking(0, Gate(None, Some(APromote))))
    case Locking(_, _) => LockStep(s, t)
    case Body(_, _) => BodyMove(cfg, s, t, ch)
    case Unlocking(_, _) => UnlockStep(s, t)
    case Finish(_) => FinishStep(s, t, ch)
  }

  // ---- runs: any interleaving is a schedule of (thread, outcome) pairs ----

  datatype Move = Move(t: nat, ch: Choice)

  predicate Runs(cfg: Config, s: State, sched: seq<Move>)
    decreases |sched|, 0
  {
    sched == [] ||
    (Runs(cfg, s, sched[..|sched| - 1])
     && CanStep(After(cfg, s, sched[..|sched| - 1]), sched[|sched| - 1].t))
  }

  function After(cfg: Config, s: State, sched: seq<Move>): State
    requires Runs(cfg, s, sched)
    decreases |sched|, 1
  {
    if sched == [] then s
    else DoStep(cfg, After(cfg, s, sched[..|sched| - 1]), sched[|sched| - 1].t, sched[|sched| - 1].ch)
  }

  /** Requests arrive at a server with an arbitrary store, ledger and nonce file and no lock taken. */
  predicate Initial(s: State) {
    && (forall t :: 0 <= t < |s.threads| ==> s.threads[t].pc == Arrive && s.threads[t].trail == [])
    && s.locks == map[] && s.owner == None
    && s.attempts == [] && s.askers == [] && s.commits == []
  }

  /** The threads still carry the requests they arrived with. */
  predicate SameRequests(s0: State, s: State) {
    |s.threads| == |s0.threads| && forall t :: 0 <= t < |s.threads| ==> s.threads[t].req == s0.threads[t].req
  }

  predicate AllDone(s: State) {
    forall t :: 0 <= t < |s.threads| ==> s.threads[t].pc == Done
  }

  // ---- the invariant ----

  function First(order: seq<Id>, k: nat): set<Id>
    requires k <= |order|
  {
    if k == 0 then {} else First(order, k - 1) + {order[k - 1]}
  }

  function Held(th: Thread): set<Id> {
    var order := LockOrder(th.req);
    match th.pc
    case Locking(k, _) => if k <= |order| then First(order, k) else {}
    case Body(_, _) => First(order, |order|)
    case Unlocking(k, _) => if k <= |order| then First(order, k) else {}
    case _ => {}
  }

  /** The lock table says exactly who holds what. */
  predicate TableOk(locks: map<Id, nat>, held: seq<set<Id>>) {
    && (forall i :: i in locks ==> locks[i] < |held| && i in held[locks[i]])
    && (forall t, i :: 0 <= t < |held| && i in held[t] ==> i in locks && locks[i] == t)
  }

  function HeldBy(s: State): seq<set<Id>> {
    seq(|s.threads|, t requires 0 <= t < |s.threads| => Held(s.threads[t]))
  }

  predicate LocksOk(s: State) { TableOk(s.locks, HeldBy(s)) }

  predicate OwnerOk(s: State) {
    s.owner.Some? ==> s.owner.value < |s.threads| && AtLedger(s.threads[s.owner.value].pc)
  }

  predicate PcOk(cfg: Config, t: nat, th: Thread, s: Store) {
    match th.pc
    case Token(tier, action) =>
      && (th.req.Put? || th.req.PatchTier? || th.req.PatchMetadata?)
      && (th.req.Put? ==> GateOk(th.req, Gate(tier, None), s))
      && (th.req.PatchTier? ==> (if th.req.target == Canonical then action == APromote else action == ADemote))
      && (th.req.PatchMetadata? ==> KTier !in th.req.patch)
    case Canary => th.req.PatchTier? && th.req.target == Canonical
    case Locking(k, g) => k < |LockOrder(th.req)| && GateOk(th.req, g, s)
    case Body(g, l) => GateOk(th.req, g, s) && LocOk(cfg, t, th.req, g, l, s)
    case Unlocking(k, _) => 0 < k <= |LockOrder(th.req)|
    case _ => true
  }

  predicate Inv(cfg: Config, s: State) {
    && LocksOk(s)
    && OwnerOk(s)
    && (forall t :: 0 <= t < |s.threads| ==> PcOk(cfg, t, s.threads[t], s.store))
  }

  lemma {:induction false} FirstIn(order: seq<Id>, k: nat, i: Id)
    requires k <= |order|
    ensures i in First(order, k) <==> exists j :: 0 <= j < k && order[j] == i
  {
    if k > 0 {
      FirstIn(order, k - 1, i);
      if i in First(order, k) && i != order[k - 1] {
        var j :| 0 <= j < k - 1 && order[j] == i;
        assert 0 <= j < k && order[j] == i;
      }
      if i == order[k - 1] {
        assert 0 <= k - 1 < k && order[k - 1] == i;
      }
    }
  }

  /** The whole order is exactly the set of records the request locks. */
  lemma OrderIsLockSet(r: Request)
    ensures First(LockOrder(r), |LockOrder(r)|) == LockSet(r)
  {
    var order := LockOrder(r);
    if |order| == 1 {
      assert First(order, 1) == First(order, 0) + {order[0]};
    } else {
      assert First(order, 2) == First(order, 1) + {order[1]};
      assert First(order, 1) == First(order, 0) + {order[0]};
    }
  }

  /** A lock released is a lock no longer counted: the order has no repeats. */
  lemma NextNotHeld(r: Request, k: nat)
    requires k < |LockOrder(r)|
    ensures LockOrder(r)[k] !in First(LockOrder(r), k)
  {
    FirstIn(LockOrder(r), k, LockOrder(r)[k]);
  }

  /** A step moves one thread, which keeps its request. */
  lemma ThreadFrame(cfg: Config, s: State, t: nat, ch: Choice)
    requires CanStep(s, t)
    ensures var s' := DoStep(cfg, s, t, ch);
            && |s'.threads| == |s.threads|
            && (forall u :: 0 <= u < |s.threads| && u != t ==> s'.threads[u] == s.threads[u])
            && s'.threads[t].req == s.threads[t].req
            && (!s.threads[t].pc.Body? ==> s'.store == s.store)
  {
    hide BodyStep;
  }

  /** What the stepping thread may do to the store: at most change its own subject, under its own lock. */
  lemma StepFrame(cfg: Config, s: State, t: nat, ch: Choice)
    requires Inv(cfg, s) && CanStep(s, t)
    ensures var s' := DoStep(cfg, s, t, ch);
            && |s'.threads| == |s.threads|
            && (forall u :: 0 <= u < |s.threads| && u != t ==> s'.threads[u] == s.threads[u])
            && s'.threads[t].req == s.threads[t].req
            && Framed(s.threads[t].req.id, s.store, s'.store)
            && (s'.store != s.store ==> s.threads[t].pc.Body? && s.threads[t].req.id in Held(s.threads[t]))
  {
    var th := s.threads[t];
    OrderIsLockSet(th.req);
    if th.pc.Body? {
      StepIsKept(cfg, t, th.req, th.pc.g, th.pc.l, s.store, ch);
    }
  }

  lemma GateStable(r: Request, g: Gate, s: Store, s': Store, id: Id)
    requires Framed(id, s, s') && GateOk(r, g, s)
    ensures GateOk(r, g, s')
  {
  }

  /** A step never disturbs another thread: the records that thread relies on are locked by it. */
  lemma OthersKept(cfg: Config, s: State, t: nat, ch: Choice, u: nat)
    requires Inv(cfg, s) && CanStep(s, t) && u < |s.threads| && u != t
    ensures PcOk(cfg, u, s.threads[u], DoStep(cfg, s, t, ch).store)
    ensures s.threads[u].pc.Body? ==> AgreeOn(LockSet(s.threads[u].req), s.store, DoStep(cfg, s, t, ch).store)
  {
    StepFrame(cfg, s, t, ch);
    var s' := DoStep(cfg, s, t, ch);
    var th := s.threads[u];
    var id := s.threads[t].req.id;
    OrderIsLockSet(th.req);
    MutualExclusion(s, t, u);
    if th.pc.Body? {
      forall i | i in LockSet(th.req) ensures Get(s.store, i) == Get(s'.store, i) {
        assert i in Held(th);
        assert s'.store != s.store ==> i != id;
      }
      FactsAreLocal(cfg, u, th.req, th.pc.g, th.pc.l, s.store, s'.store);
      GateStable(th.req, th.pc.g, s.store, s'.store, id);
    } else if th.pc.Locking? {
      GateStable(th.req, th.pc.g, s.store, s'.store, id);
    } else if th.pc.Token? && th.req.Put? {
      GateStable(th.req, Gate(th.pc.tier, None), s.store, s'.store, id);
    }
  }

  lemma MetadataGateOk(r: Request, g: Gate, s: Store)
    requires r.PatchMetadata? && KTier !in r.patch && MetadataGate(r, g).Locking?
    ensures MetadataGate(r, g) == Locking(0, g) && GateOk(r, g, s)
  {
    MetadataPatchNeverHides(g.tier, r.who, Verified(r) == Some(true), r.patch.Keys);
  }

  lemma OwnStepBeforeLock(cfg: Config, s: State, t: nat, ch: Choice)
    requires CanStep(s, t) && PcOk(cfg, t, s.threads[t], s.store)
    requires var pc := s.threads[t].pc; pc.Arrive? || pc.Token? || pc.Canary?
    ensures var s' := DoStep(cfg, s, t, ch);
            PcOk(cfg, t, s'.threads[t], s'.store)
  {
    var th := s.threads[t];
    var pc' := DoStep(cfg, s, t, ch).threads[t].pc;
    if th.req.PatchMetadata? && pc'.Locking? {
      MetadataGateOk(th.req, pc'.g, s.store);
    }
  }

  lemma OwnStepFromLock(cfg: Config, s: State, t: nat, ch: Choice)
    requires Inv(cfg, s) && CanStep(s, t)
    requires var pc := s.threads[t].pc; !pc.Arrive? && !pc.Token? && !pc.Canary?
    ensures var s' := DoStep(cfg, s, t, ch);
            PcOk(cfg, t, s'.threads[t], s'.store)
  {
    var th := s.threads[t];
    if th.pc.Body? {
      StepIsKept(cfg, t, th.req, th.pc.g, th.pc.l, s.store, ch);
      GateStable(th.req, th.pc.g, s.store, BodyStep(cfg, t, th.req, th.pc.g, th.pc.l, s.store, ch).store, th.req.id);
    } else if th.pc.Locking? {
      StartIsOk(cfg, t, th.req, th.pc.g, s.store);
    }
  }

  lemma AcquireKeepsTable(locks: map<Id, nat>, held: seq<set<Id>>, t: nat, i: Id)
    requires TableOk(locks, held) && t < |held| && i !in locks
    ensures TableOk(locks[i := t], held[t := held[t] + {i}])
  {
  }

  lemma ReleaseKeepsTable(locks: map<Id, nat>, held: seq<set<Id>>, t: nat, i: Id)
    requires TableOk(locks, held) && t < |held| && i in held[t]
    ensures TableOk(locks - {i}, held[t := held[t] - {i}])
  {
    var locks', held' := locks - {i}, held[t := held[t] - {i}];
    forall j | j in locks' ensures locks'[j] < |held'| && j in held'[locks'[j]] {
      assert j in held[locks[j]];
    }
    forall u, j | 0 <= u < |held'| && j in held'[u] ensures j in locks' && locks'[j] == u {
      assert j in held[u] && locks[j] == u && locks[i] == t;
      assert u == t ==> j != i;
    }
  }

  lemma HeldByMove(cfg: Config, s: State, t: nat, ch: Choice)
    requires CanStep(s, t)
    ensures HeldBy(DoStep(cfg, s, t, ch)) == HeldBy(s)[t := Held(DoStep(cfg, s, t, ch).threads[t])]
  {
    ThreadFrame(cfg, s, t, ch);
  }

  lemma LockStepKeepsLocks(cfg: Config, s: State, t: nat, ch: Choice)
    requires LocksOk(s) && CanStep(s, t) && s.threads[t].pc.Locking?
    ensures LocksOk(DoStep(cfg, s, t, ch))
  {
    var th, s' := s.threads[t], DoStep(cfg, s, t, ch);
    var next := LockOrder(th.req)[th.pc.k];
    HeldByMove(cfg, s, t, ch);
    assert Held(s'.threads[t]) == Held(th) + {next};
    AcquireKeepsTable(s.locks, HeldBy(s), t, next);
  }

  lemma UnlockStepKeepsLocks(cfg: Config, s: State, t: nat, ch: Choice)
    requires LocksOk(s) && CanStep(s, t) && s.threads[t].pc.Unlocking?
    ensures LocksOk(DoStep(cfg, s, t, ch))
  {
    var th, s' := s.threads[t], DoStep(cfg, s, t, ch);
    var k := th.pc.k - 1;
    var gone := LockOrder(th.req)[k];
    HeldByMove(cfg, s, t, ch);
    NextNotHeld(th.req, k);
    assert Held(th) == First(LockOrder(th.req), k) + {gone};
    assert Held(s'.threads[t]) == First(LockOrder(th.req), k);
    assert Held(s'.threads[t]) == Held(th) - {gone};
    ReleaseKeepsTable(s.locks, HeldBy(s), t, gone);
  }

  lemma GateShape(s: Store, r: Request, tier: Option<Tier>, action: Action, ch: Choice)
    ensures var pc := GateRead(s, r, ch); pc.Token? || (pc.Locking? && pc.k == 0) || pc.Done?
    ensures var pc := AfterToken(r, tier, action, ch); pc.Canary? || (pc.Locking? && pc.k == 0) || pc.Done?
  {
  }

  lemma HeldUnmoved(cfg: Config, s: State, t: nat, ch: Choice)
    requires CanStep(s, t) && !s.threads[t].pc.Locking? && !s.threads[t].pc.Unlocking?
    ensures DoStep(cfg, s, t, ch).locks == s.locks
    ensures Held(DoStep(cfg, s, t, ch).threads[t]) == Held(s.threads[t])
  {
    var th := s.threads[t];
    assert First(LockOrder(th.req), 0) == {};
    match th.pc
    case Arrive => GateShape(s.store, th.req, None, APut, ch);
    case Token(tier, action) => GateShape(s.store, th.req, tier, action, ch);
    case Body(_, _) => assert BodyMove(cfg, s, t, ch).threads[t].req == th.req;
    case _ =>
  }

  lemma OtherStepKeepsLocks(cfg: Config, s: State, t: nat, ch: Choice)
    requires LocksOk(s) && CanStep(s, t) && !s.threads[t].pc.Locking? && !s.threads[t].pc.Unlocking?
    ensures LocksOk(DoStep(cfg, s, t, ch))
  {
    HeldUnmoved(cfg, s, t, ch);
    HeldByMove(cfg, s, t, ch);
    assert HeldBy(s)[t := Held(s.threads[t])] == HeldBy(s);
  }

  /** Two threads never hold the same record. */
  lemma MutualExclusion(s: State, t: nat, u: nat)
    requires LocksOk(s) && t < |s.threads| && u < |s.threads| && t != u
    ensures Held(s.threads[t]) !! Held(s.threads[u])
  {
    var held := HeldBy(s);
    assert held[t] == Held(s.threads[t]) && held[u] == Held(s.threads[u]);
    forall i | i in held[t] ensures i !in held[u] {
      assert s.locks[i] == t;
    }
  }

  lemma LocksKept(cfg: Config, s: State, t: nat, ch: Choice)
    requires LocksOk(s) && CanStep(s, t)
    ensures LocksOk(DoStep(cfg, s, t, ch))
  {
    if s.threads[t].pc.Locking? { LockStepKeepsLocks(cfg, s, t, ch); }
    else if s.threads[t].pc.Unlocking? { UnlockStepKeepsLocks(cfg, s, t, ch); }
    else { OtherStepKeepsLocks(cfg, s, t, ch); }
  }

  lemma StepKeepsInv(cfg: Config, s: State, t: nat, ch: Choice)
    requires Inv(cfg, s) && CanStep(s, t)
    ensures Inv(cfg, DoStep(cfg, s, t, ch))
  {
    var s' := DoStep(cfg, s, t, ch);
    StepFrame(cfg, s, t, ch);
    LocksKept(cfg, s, t, ch);
    forall u | 0 <= u < |s'.threads| ensures PcOk(cfg, u, s'.threads[u], s'.store) {
      if u == t {
        var pc := s.threads[t].pc;
        if pc.Arrive? || pc.Token? || pc.Canary? { OwnStepBeforeLock(cfg, s, t, ch); }
        else { OwnStepFromLock(cfg, s, t, ch); }
      } else {
        OthersKept(cfg, s, t, ch, u);
      }
    }
  }

  lemma {:induction false} ReachableInv(cfg: Config, s0: State, sched: seq<Move>)
    requires Initial(s0) && Runs(cfg, s0, sched)
    ensures Inv(cfg, After(cfg, s0, sched))
  {
    if sched != [] {
      var front, last := sched[..|sched| - 1], sched[|sched| - 1];
      ReachableInv(cfg, s0, front);
      StepKeepsInv(cfg, After(cfg, s0, front), last.t, last.ch);
    }
  }
}
