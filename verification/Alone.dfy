/** One request on a quiet server: the machine takes its locks, runs the region that the handler's own code
    runs, releases the locks and writes the completion line. With no one else about, nothing more happens. */
module Alone {
  import opened Records
  import opened Supersession
  import opened Handlers
  import opened Machine
  import opened Server
  import Effects
  import Gates

  /** `to` is reached from `s` by steps of thread t alone. */
  ghost predicate Reaches(cfg: Config, s: State, t: nat, to: State) {
    exists sched: seq<Move> :: OwnRun(cfg, s, t, sched) && After(cfg, s, sched) == to
  }

  predicate OwnRun(cfg: Config, s: State, t: nat, sched: seq<Move>) {
    Runs(cfg, s, sched) && forall k :: 0 <= k < |sched| ==> sched[k].t == t
  }

  lemma NoStep(cfg: Config, s: State, t: nat)
    ensures Reaches(cfg, s, t, s)
  {
    assert OwnRun(cfg, s, t, []);
  }

  lemma OneMore(cfg: Config, s: State, t: nat, mid: State, ch: Choice)
    requires Reaches(cfg, s, t, mid) && CanStep(mid, t)
    ensures Reaches(cfg, s, t, DoStep(cfg, mid, t, ch))
  {
    var sched: seq<Move> :| OwnRun(cfg, s, t, sched) && After(cfg, s, sched) == mid;
    var more := sched + [Move(t, ch)];
    assert more[..|more| - 1] == sched;
    assert OwnRun(cfg, s, t, more) && After(cfg, s, more) == DoStep(cfg, mid, t, ch);
  }

  /** Thread t of the state moved on: its place and trail, the store, the ledger and the locks. */
  function With(s: State, t: nat, pc: PC, trail: seq<Choice>, store: Store, ledger: seq<Line>, locks: map<Id, nat>): State
    requires t < |s.threads|
  {
    s.(threads := s.threads[t := Thread(s.threads[t].req, pc, trail)], store := store, ledger := ledger, locks := locks)
  }

  lemma WithItself(s: State, t: nat)
    requires t < |s.threads|
    ensures With(s, t, s.threads[t].pc, s.threads[t].trail, s.store, s.ledger, s.locks) == s
  {
  }

  lemma WithTwice(s: State, t: nat, pc: PC, trail: seq<Choice>, store: Store, ledger: seq<Line>, locks: map<Id, nat>,
                  pc': PC, trail': seq<Choice>, store': Store, ledger': seq<Line>, locks': map<Id, nat>)
    requires t < |s.threads|
    ensures var mid := With(s, t, pc, trail, store, ledger, locks);
            && mid.threads[t] == Thread(s.threads[t].req, pc, trail) && |mid.threads| == |s.threads|
            && mid.store == store && mid.ledger == ledger && mid.locks == locks && mid.owner == s.owner && mid.commits == s.commits
            && With(mid, t, pc', trail', store', ledger', locks') == With(s, t, pc', trail', store', ledger', locks')
  {
  }

  function LocksOf(r: Request, t: nat, k: nat): map<Id, nat>
    requires k <= |LockOrder(r)|
  {
    map i | i in LockOrder(r)[..k] :: t
  }

  predicate Quiet(s: State, t: nat) { t < |s.threads| && s.owner == None && s.locks == map[] }

  // ---- the locks ----

  /** Where the thread is with k locks taken, and with k locks not yet given back. */
  function Taking(r: Request, t: nat, g: Gate, k: nat): PC {
    if k < |LockOrder(r)| then Locking(k, g) else Body(g, StartLoc(t, r, g))
  }

  function Leaving(after: Option<Line>, k: nat): PC {
    if k > 0 then Unlocking(k, after) else if after.Some? then Finish(after.value) else Done
  }

  lemma NextLock(r: Request, t: nat, k: nat)
    requires k < |LockOrder(r)|
    ensures var i := LockOrder(r)[k];
            i !in LocksOf(r, t, k) && LocksOf(r, t, k)[i := t] == LocksOf(r, t, k + 1) && LocksOf(r, t, k + 1) - {i} == LocksOf(r, t, k)
  {
    assert LockOrder(r)[..k + 1] == LockOrder(r)[..k] + [LockOrder(r)[k]];
    assert LockOrder(r)[k] !in LockOrder(r)[..k];
  }

  lemma LockTaken(cfg: Config, s: State, t: nat, g: Gate, ch: Choice, k: nat)
    requires t < |s.threads| && k < |LockOrder(s.threads[t].req)|
    ensures var r := s.threads[t].req;
            var mid := With(s, t, Locking(k, g), [], s.store, s.ledger, LocksOf(r, t, k));
            CanStep(mid, t) && DoStep(cfg, mid, t, ch) == With(s, t, Taking(r, t, g, k + 1), [], s.store, s.ledger, LocksOf(r, t, k + 1))
  {
    hide BodyStep, GateRead, LocksOf, LockOrder, StartLoc;
    var r := s.threads[t].req;
    NextLock(r, t, k);
    var mid := With(s, t, Locking(k, g), [], s.store, s.ledger, LocksOf(r, t, k));
    assert DoStep(cfg, mid, t, ch).threads
           == With(s, t, Taking(r, t, g, k + 1), [], s.store, s.ledger, LocksOf(r, t, k + 1)).threads;
  }

  lemma {:induction false} TakesLocks(cfg: Config, s: State, t: nat, g: Gate, ch: Choice, k: nat)
    requires Quiet(s, t) && s.threads[t].pc == Locking(0, g) && s.threads[t].trail == [] && k <= |LockOrder(s.threads[t].req)|
    ensures var r := s.threads[t].req;
            Reaches(cfg, s, t, With(s, t, Taking(r, t, g, k), [], s.store, s.ledger, LocksOf(r, t, k)))
  {
    hide Reaches, DoStep, CanStep;
    var r := s.threads[t].req;
    if k == 0 {
      NoStep(cfg, s, t);
      assert LocksOf(r, t, 0) == map[];
      assert With(s, t, Locking(0, g), [], s.store, s.ledger, map[]) == s;
    } else {
      TakesLocks(cfg, s, t, g, ch, k - 1);
      LockTaken(cfg, s, t, g, ch, k - 1);
      OneMore(cfg, s, t, With(s, t, Locking(k - 1, g), [], s.store, s.ledger, LocksOf(r, t, k - 1)), ch);
    }
  }

  lemma LockGiven(cfg: Config, s: State, t: nat, after: Option<Line>, ch: Choice, k: nat)
    requires t < |s.threads| && k < |LockOrder(s.threads[t].req)|
    ensures var r, trail := s.threads[t].req, s.threads[t].trail;
            var mid := With(s, t, Unlocking(k + 1, after), trail, s.store, s.ledger, LocksOf(r, t, k + 1));
            CanStep(mid, t) && DoStep(cfg, mid, t, ch) == With(s, t, Leaving(after, k), trail, s.store, s.ledger, LocksOf(r, t, k))
  {
    hide BodyStep, GateRead, LocksOf, LockOrder;
    var r, trail := s.threads[t].req, s.threads[t].trail;
    NextLock(r, t, k);
    var mid := With(s, t, Unlocking(k + 1, after), trail, s.store, s.ledger, LocksOf(r, t, k + 1));
    assert DoStep(cfg, mid, t, ch).threads == With(s, t, Leaving(after, k), trail, s.store, s.ledger, LocksOf(r, t, k)).threads;
  }

  lemma {:induction false} ReleasesLocks(cfg: Config, s0: State, s: State, t: nat, after: Option<Line>, ch: Choice, k: nat)
    requires t < |s.threads| && s.threads[t].pc == Unlocking(|LockOrder(s.threads[t].req)|, after)
    requires s.locks == LocksOf(s.threads[t].req, t, |LockOrder(s.threads[t].req)|)
    requires k <= |LockOrder(s.threads[t].req)| && Reaches(cfg, s0, t, s)
    ensures Reaches(cfg, s0, t, With(s, t, Leaving(after, k), s.threads[t].trail, s.store, s.ledger, LocksOf(s.threads[t].req, t, k)))
    decreases |LockOrder(s.threads[t].req)| - k
  {
    hide Reaches, DoStep, CanStep;
    var r, trail := s.threads[t].req, s.threads[t].trail;
    if k == |LockOrder(r)| {
      assert With(s, t, Unlocking(k, after), trail, s.store, s.ledger, LocksOf(r, t, k)) == s;
    } else {
      ReleasesLocks(cfg, s0, s, t, after, ch, k + 1);
      LockGiven(cfg, s, t, after, ch, k);
      OneMore(cfg, s0, t, With(s, t, Unlocking(k + 1, after), trail, s.store, s.ledger, LocksOf(r, t, k + 1)), ch);
    }
  }

  // ---- the region ----

  /** The region is still running before each of the calls. */
  predicate RunsOn(cfg: Config, tid: nat, r: Request, g: Gate, trail: seq<Choice>, s: Store) {
    forall k :: 0 <= k < |trail| ==> !Stand(cfg, tid, r, g, trail[..k], s).loc.Exit?
  }

  lemma RunsOnBefore(cfg: Config, tid: nat, r: Request, g: Gate, trail: seq<Choice>, s: Store)
    requires trail != [] && RunsOn(cfg, tid, r, g, trail, s)
    ensures var front := trail[..|trail| - 1]; RunsOn(cfg, tid, r, g, front, s) && !Stand(cfg, tid, r, g, front, s).loc.Exit?
  {
    hide Stand;
    var front := trail[..|trail| - 1];
    forall k | 0 <= k < |front| ensures !Stand(cfg, tid, r, g, front[..k], s).loc.Exit? {
      assert front[..k] == trail[..k];
    }
  }

  lemma {:induction false} RunsRegion(cfg: Config, s0: State, s: State, t: nat, g: Gate, trail: seq<Choice>)
    requires t < |s.threads| && s.owner == None && Reaches(cfg, s0, t, s)
    requires var r := s.threads[t].req; s.threads[t] == Thread(r, Body(g, StartLoc(t, r, g)), []) && RunsOn(cfg, t, r, g, trail, s.store)
    ensures var st := Stand(cfg, t, s.threads[t].req, g, trail, s.store);
            Reaches(cfg, s0, t, With(s, t, Body(g, st.loc), trail, st.store, s.ledger + st.lines, s.locks))
  {
    var r := s.threads[t].req;
    hide Stand, BodyStep, Reaches, DoStep, CanStep, Wrote, RunsOn, StartLoc, With;
    if trail == [] {
      StandStart(cfg, t, r, g, s.store);
      WithItself(s, t);
      assert s.ledger + [] == s.ledger;
    } else {
      var front, ch := trail[..|trail| - 1], trail[|trail| - 1];
      RunsOnBefore(cfg, t, r, g, trail, s.store);
      RunsRegion(cfg, s0, s, t, g, front);
      OneMoreCall(cfg, s0, s, t, g, front, ch);
      assert front + [ch] == trail;
    }
  }

  lemma OneMoreCall(cfg: Config, s0: State, s: State, t: nat, g: Gate, front: seq<Choice>, ch: Choice)
    requires t < |s.threads| && s.owner == None && !Stand(cfg, t, s.threads[t].req, g, front, s.store).loc.Exit?
    requires var st := Stand(cfg, t, s.threads[t].req, g, front, s.store);
             Reaches(cfg, s0, t, With(s, t, Body(g, st.loc), front, st.store, s.ledger + st.lines, s.locks))
    ensures var st := Stand(cfg, t, s.threads[t].req, g, front + [ch], s.store);
            Reaches(cfg, s0, t, With(s, t, Body(g, st.loc), front + [ch], st.store, s.ledger + st.lines, s.locks))
  {
    hide Stand, BodyStep, Reaches, DoStep, CanStep, Wrote, With;
    var r := s.threads[t].req;
    StandNext(cfg, t, r, g, front, s.store, ch);
    var st := Stand(cfg, t, r, g, front, s.store);
    var next := BodyStep(cfg, t, r, g, st.loc, st.store, ch);
    WithTwice(s, t, Body(g, st.loc), front, st.store, s.ledger + st.lines, s.locks,
              Body(g, next.loc), front + [ch], next.store, (s.ledger + st.lines) + Wrote(st.loc, ch), s.locks);
    RegionStep(cfg, s0, With(s, t, Body(g, st.loc), front, st.store, s.ledger + st.lines, s.locks), t, g, st.loc, front, ch);
    assert (s.ledger + st.lines) + Wrote(st.loc, ch) == s.ledger + (st.lines + Wrote(st.loc, ch));
  }

  /** One call of the region: one step of the machine, two for an append, which first takes the ledger lock. */
  lemma RegionStep(cfg: Config, s0: State, mid: State, t: nat, g: Gate, l: Loc, front: seq<Choice>, ch: Choice)
    requires t < |mid.threads| && mid.owner == None && Reaches(cfg, s0, t, mid)
    requires mid.threads[t] == Thread(mid.threads[t].req, Body(g, l), front) && !l.Exit?
    ensures var next := BodyStep(cfg, t, mid.threads[t].req, g, l, mid.store, ch);
            Reaches(cfg, s0, t, With(mid, t, Body(g, next.loc), front + [ch], next.store, mid.ledger + Wrote(l, ch), mid.locks))
  {
    hide BodyStep, Reaches;
    var next := BodyStep(cfg, t, mid.threads[t].req, g, l, mid.store, ch);
    OneMore(cfg, s0, t, mid, ch);
    if l.Append? {
      var held := DoStep(cfg, mid, t, ch);
      assert held == mid.(owner := Some(t));
      OneMore(cfg, s0, t, held, ch);
      assert DoStep(cfg, held, t, ch)
             == With(mid, t, Body(g, next.loc), front + [ch], next.store, mid.ledger + Wrote(l, ch), mid.locks);
    } else {
      assert DoStep(cfg, mid, t, ch)
             == With(mid, t, Body(g, next.loc), front + [ch], next.store, mid.ledger + Wrote(l, ch), mid.locks);
    }
  }

  // ---- the whole request ----

  /** From its first lock on a request alone comes to Done with the store its handler leaves, the ledger lines
      of its region and, if that call is not refused, its completion line; every lock is free again. */
  lemma RequestAlone(cfg: Config, s: State, t: nat, g: Gate, trail: seq<Choice>, last: Choice)
    requires Quiet(s, t) && s.threads[t].pc == Locking(0, g) && s.threads[t].trail == []
    requires RunsOn(cfg, t, s.threads[t].req, g, trail, s.store) && Stand(cfg, t, s.threads[t].req, g, trail, s.store).loc.Exit?
    ensures var st := Stand(cfg, t, s.threads[t].req, g, trail, s.store);
            var closing := if st.loc.after.Some? && last.fault != Refused then [st.loc.after.value] else [];
            Reaches(cfg, s, t, With(s, t, Done, trail, st.store, s.ledger + st.lines + closing, map[])
                               .(commits := s.commits + [Commit(t, g, trail)]))
  {
    hide Stand, Reaches, LocksOf, LockOrder, DoStep, CanStep, RunsOn, StartLoc;
    var r := s.threads[t].req;
    var n, st := |LockOrder(r)|, Stand(cfg, t, r, g, trail, s.store);
    TakesLocks(cfg, s, t, g, last, n);
    var inside := With(s, t, Body(g, StartLoc(t, r, g)), [], s.store, s.ledger, LocksOf(r, t, n));
    RunsRegion(cfg, s, inside, t, g, trail);
    Leaves(cfg, s, inside, t, g, trail, last);
    var closing := if st.loc.after.Some? && last.fault != Refused then [st.loc.after.value] else [];
    assert With(inside, t, Done, trail, st.store, s.ledger + st.lines + closing, map[])
           == With(s, t, Done, trail, st.store, s.ledger + st.lines + closing, map[]);
  }

  lemma ExitStep(cfg: Config, s: State, t: nat, g: Gate, after: Option<Line>, ch: Choice)
    requires t < |s.threads| && s.threads[t].pc == Body(g, Exit(after))
    ensures CanStep(s, t)
    ensures DoStep(cfg, s, t, ch)
            == With(s, t, Unlocking(|LockOrder(s.threads[t].req)|, after), s.threads[t].trail, s.store, s.ledger, s.locks)
               .(commits := s.commits + [Commit(t, g, s.threads[t].trail)])
  {
    hide BodyStep;
    assert DoStep(cfg, s, t, ch).threads
           == With(s, t, Unlocking(|LockOrder(s.threads[t].req)|, after), s.threads[t].trail, s.store, s.ledger, s.locks).threads;
  }

  /** From the end of the region: the commit, the locks, the completion line. */
  lemma Leaves(cfg: Config, s0: State, s: State, t: nat, g: Gate, trail: seq<Choice>, last: Choice)
    requires t < |s.threads| && s.owner == None && s.locks == LocksOf(s.threads[t].req, t, |LockOrder(s.threads[t].req)|)
    requires Stand(cfg, t, s.threads[t].req, g, trail, s.store).loc.Exit?
    requires var st := Stand(cfg, t, s.threads[t].req, g, trail, s.store);
             Reaches(cfg, s0, t, With(s, t, Body(g, st.loc), trail, st.store, s.ledger + st.lines, s.locks))
    ensures var st := Stand(cfg, t, s.threads[t].req, g, trail, s.store);
            var closing := if st.loc.after.Some? && last.fault != Refused then [st.loc.after.value] else [];
            Reaches(cfg, s0, t, With(s, t, Done, trail, st.store, s.ledger + st.lines + closing, map[])
                                .(commits := s.commits + [Commit(t, g, trail)]))
  {
    hide Stand, Reaches, LocksOf, LockOrder, DoStep, CanStep;
    var r := s.threads[t].req;
    var st := Stand(cfg, t, r, g, trail, s.store);
    var after := st.loc.after;
    var ended := With(s, t, Body(g, st.loc), trail, st.store, s.ledger + st.lines, s.locks);
    ExitStep(cfg, ended, t, g, after, last);
    OneMore(cfg, s0, t, ended, last);
    var leaving := DoStep(cfg, ended, t, last);
    ReleasesLocks(cfg, s0, leaving, t, after, last, 0);
    NoLocks(r, t);
    var free := With(leaving, t, Leaving(after, 0), trail, st.store, s.ledger + st.lines, map[]);
    Completes(cfg, s0, free, t, after, last);
    var closing := if after.Some? && last.fault != Refused then [after.value] else [];
    assert With(free, t, Done, trail, st.store, s.ledger + st.lines + closing, map[])
           == With(s, t, Done, trail, st.store, s.ledger + st.lines + closing, map[]).(commits := s.commits + [Commit(t, g, trail)]);
  }

  lemma NoLocks(r: Request, t: nat)
    ensures LocksOf(r, t, 0) == map[]
  {
  }

  lemma Completes(cfg: Config, s0: State, s: State, t: nat, after: Option<Line>, ch: Choice)
    requires t < |s.threads| && s.owner == None && Reaches(cfg, s0, t, s)
    requires s.threads[t].pc == if after.Some? then Finish(after.value) else Done
    ensures Reaches(cfg, s0, t, With(s, t, Done, s.threads[t].trail, s.store,
                                     s.ledger + (if after.Some? && ch.fault != Refused then [after.value] else []), s.locks))
  {
    hide Reaches;
    if after.None? {
      assert With(s, t, Done, s.threads[t].trail, s.store, s.ledger + [], s.locks) == s;
    } else {
      OneMore(cfg, s0, t, s, ch);
      var held := DoStep(cfg, s, t, ch);
      assert held == s.(owner := Some(t));
      OneMore(cfg, s0, t, held, ch);
      assert DoStep(cfg, held, t, ch)
             == With(s, t, Done, s.threads[t].trail, s.store,
                     s.ledger + (if ch.fault != Refused then [after.value] else []), s.locks);
    }
  }

  // ---- from arrival to completion ----

  /** An unsigned request whose gate lets it through, alone: as RequestAlone, from its arrival on. */
  lemma ArrivalAlone(cfg: Config, s: State, t: nat, g: Gate, ch: Choice)
    requires Quiet(s, t) && s.threads[t].pc == Arrive && s.threads[t].trail == []
    requires GateRead(s.store, s.threads[t].req, ch) == Locking(0, g)
    ensures Reaches(cfg, s, t, With(s, t, Locking(0, g), [], s.store, s.ledger, map[]))
  {
    hide GateRead, BodyStep;
    NoStep(cfg, s, t);
    OneMore(cfg, s, t, s, ch);
    assert DoStep(cfg, s, t, ch).threads == With(s, t, Locking(0, g), [], s.store, s.ledger, map[]).threads;
  }

  lemma {:induction false} RunsConcat(cfg: Config, s: State, t: nat, a: seq<Move>, b: seq<Move>)
    requires OwnRun(cfg, s, t, a) && OwnRun(cfg, After(cfg, s, a), t, b)
    ensures OwnRun(cfg, s, t, a + b) && After(cfg, s, a + b) == After(cfg, After(cfg, s, a), b)
    decreases |b|
  {
    hide DoStep, CanStep;
    if b == [] {
      assert a + b == a;
    } else {
      var front, last := b[..|b| - 1], b[|b| - 1];
      RunsConcat(cfg, s, t, a, front);
      assert (a + b)[..|a + b| - 1] == a + front && (a + b)[|a + b| - 1] == last;
    }
  }

  lemma ReachesOn(cfg: Config, s: State, t: nat, mid: State, to: State)
    requires Reaches(cfg, s, t, mid) && Reaches(cfg, mid, t, to)
    ensures Reaches(cfg, s, t, to)
  {
    var a: seq<Move> :| OwnRun(cfg, s, t, a) && After(cfg, s, a) == mid;
    var b: seq<Move> :| OwnRun(cfg, mid, t, b) && After(cfg, mid, b) == to;
    RunsConcat(cfg, s, t, a, b);
    assert OwnRun(cfg, s, t, a + b);
  }

  /** On a quiet server an admitted supersede request, every call answered, goes from its arrival to its end:
      the loser points at the winner, the ledger has the intent line and behind it the completion line, and
      every lock is free. */
  lemma SupersedeAlone(cfg: Config, s: State, t: nat, ch: Choice)
    requires Quiet(s, t) && s.threads[t].pc == Arrive && s.threads[t].trail == [] && ch.fault == Fine
    requires var r := s.threads[t].req;
             && r.Supersede? && r.scope == Full && r.id != r.winner && |r.detail| <= 300 && |r.reason| <= 500
             && r.id in s.store && r.winner in s.store && Effects.MaySupersede(s.store[r.id], s.store[r.winner], cfg.shared)
    ensures var r := s.threads[t].req;
            exists to ::
              && Reaches(cfg, s, t, to) && t < |to.threads| && to.threads[t].pc == Done && to.locks == map[] && to.owner == None
              && to.ledger == s.ledger + [SupersedeIntent(t, r.id, r.winner, Full), SupersedeDone(t, r.id, r.winner, Full)]
              && to.store == s.store[r.id := s.store[r.id]
                                             + map[KSupersededBy := VId(r.winner), KSupersededAt := VTime(ch.now),
                                                   KSupersededVia := VText("supersede-endpoint"), KUpdatedAt := VTime(ch.now)]]
  {
    var r, g, trail := s.threads[t].req, Gate(None, None), [ch, ch, ch, ch];
    ArrivalAlone(cfg, s, t, g, ch);
    var mid := With(s, t, Locking(0, g), [], s.store, s.ledger, map[]);
    Effects.SupersedeHappens(cfg, t, r, g, s.store, ch, ch, ch, ch);
    SupersedeRunsOn(cfg, t, r, g, s.store, ch);
    hide Stand, Reaches, RunsOn, Effects.MaySupersede;
    RequestAlone(cfg, mid, t, g, trail, ch);
    var st := Stand(cfg, t, r, g, trail, s.store);
    var to := With(mid, t, Done, trail, st.store, s.ledger + st.lines + [st.loc.after.value], map[])
              .(commits := mid.commits + [Commit(t, g, trail)]);
    ReachesOn(cfg, s, t, mid, to);
    assert to.ledger == s.ledger + [SupersedeIntent(t, r.id, r.winner, Full), SupersedeDone(t, r.id, r.winner, Full)];
  }

  lemma SupersedeRunsOn(cfg: Config, tid: nat, r: Request, g: Gate, s: Store, ch: Choice)
    requires r.Supersede? && r.scope == Full && r.id != r.winner && |r.detail| <= 300 && |r.reason| <= 500 && ch.fault == Fine
    requires r.id in s && r.winner in s && Effects.MaySupersede(s[r.id], s[r.winner], cfg.shared)
    ensures RunsOn(cfg, tid, r, g, [ch, ch, ch, ch], s)
  {
    Effects.DoorIsOpen(cfg, r, s[r.id], s[r.winner]);
    hide Stand, Precheck, IsNoop, SupersedePayload, SetPayload, BodyStep, Effects.MaySupersede;
    var trail := [ch, ch, ch, ch];
    assert trail[..0] == [] && trail[..1] == [ch] && trail[..2] == [ch, ch] && trail[..3] == [ch, ch, ch];
    assert [] + [ch] == [ch] && [ch] + [ch] == [ch, ch] && [ch, ch] + [ch] == [ch, ch, ch];
    StandStart(cfg, tid, r, g, s);
    SupersedeNext(cfg, tid, r, g, [], s, ch);
    SupersedeNext(cfg, tid, r, g, [ch], s, ch);
    AppendNext(cfg, tid, r, g, [ch, ch], s, ch);
    forall k | 0 <= k < |trail| ensures !Stand(cfg, tid, r, g, trail[..k], s).loc.Exit? {
      assert k == 0 || k == 1 || k == 2 || k == 3;
    }
  }
}
