/** The per-record locks make the handlers atomic: whatever the interleaving, the store is the one that
    running the locked regions one after the other, in the order they ended, leaves behind. */
module Serializability {
  import opened Records
  import opened Handlers
  import opened HandlerFacts
  import opened Machine

  // ---- a locked region depends only on its own records ----

  lemma {:induction false} RegionIsLocal(cfg: Config, tid: nat, r: Request, g: Gate, trail: seq<Choice>, a: Store, b: Store)
    requires AgreeOn(LockSet(r), a, b)
    ensures var ra, rb := RunBody(cfg, tid, r, g, trail, a), RunBody(cfg, tid, r, g, trail, b);
            ra.loc == rb.loc && AgreeOn(LockSet(r), ra.store, rb.store)
  {
    if trail != [] {
      var front := trail[..|trail| - 1];
      RegionIsLocal(cfg, tid, r, g, front, a, b);
      var ra, rb := RunBody(cfg, tid, r, g, front, a), RunBody(cfg, tid, r, g, front, b);
      StepIsLocal(cfg, tid, r, g, ra.loc, ra.store, rb.store, trail[|trail| - 1]);
    }
  }

  lemma {:induction false} RegionLeavesOthers(cfg: Config, tid: nat, r: Request, g: Gate, trail: seq<Choice>, s: Store, i: Id)
    requires i != r.id
    ensures Get(RunBody(cfg, tid, r, g, trail, s).store, i) == Get(s, i)
  {
    if trail != [] {
      var front := trail[..|trail| - 1];
      RegionLeavesOthers(cfg, tid, r, g, front, s, i);
      var before := RunBody(cfg, tid, r, g, front, s);
      StepLeavesOthers(cfg, tid, r, g, before.loc, before.store, trail[|trail| - 1], i);
    }
  }

  // ---- the serial execution ----

  predicate Committable(threads: seq<Thread>, commits: seq<Commit>) {
    forall k :: 0 <= k < |commits| ==> commits[k].tid < |threads|
  }

  /** The locked regions of `commits` run one at a time, in that order. */
  function Serial(cfg: Config, threads: seq<Thread>, commits: seq<Commit>, s: Store): Store
    requires Committable(threads, commits)
  {
    if commits == [] then s
    else
      var c := commits[|commits| - 1];
      RunBody(cfg, c.tid, threads[c.tid].req, c.g, c.trail, Serial(cfg, threads, commits[..|commits| - 1], s)).store
  }

  /** Each region runs to its end in the serial execution too: it takes the same steps there. */
  predicate SerialComplete(cfg: Config, threads: seq<Thread>, commits: seq<Commit>, s: Store)
    requires Committable(threads, commits)
  {
    forall k :: 0 <= k < |commits| ==>
      var c := commits[k];
      RunBody(cfg, c.tid, threads[c.tid].req, c.g, c.trail, Serial(cfg, threads, commits[..k], s)).loc.Exit?
  }

  predicate PastBody(pc: PC) { pc.Unlocking? || pc.Finish? || pc.Done? }

  /** Every region that ran is in the order exactly once, and nothing else is. */
  predicate Accounted(s: State) {
    && (forall k :: 0 <= k < |s.commits| ==>
          && s.commits[k].tid < |s.threads|
          && PastBody(s.threads[s.commits[k].tid].pc)
          && s.commits[k].trail == s.threads[s.commits[k].tid].trail)
    && (forall j, k :: 0 <= j < k < |s.commits| ==> s.commits[j].tid != s.commits[k].tid)
    && (forall t :: 0 <= t < |s.threads| && PastBody(s.threads[t].pc) ==>
          s.threads[t].trail == [] || exists k :: 0 <= k < |s.commits| && s.commits[k].tid == t)
    && (forall t :: 0 <= t < |s.threads| && !PastBody(s.threads[t].pc) && !s.threads[t].pc.Body? ==> s.threads[t].trail == [])
  }

  predicate Covered(s: State, i: Id) {
    exists u :: 0 <= u < |s.threads| && s.threads[u].pc.Body? && i in LockSet(s.threads[u].req)
  }

  /** Thread t's region, run alone on the serial store, is where thread t is now. */
  predicate Follows(cfg: Config, s: State, t: nat, serial: Store)
    requires t < |s.threads|
  {
    var th := s.threads[t];
    th.pc.Body? ==>
      var alone := RunBody(cfg, t, th.req, th.pc.g, th.trail, serial);
      alone.loc == th.pc.l && AgreeOn(LockSet(th.req), alone.store, s.store)
  }

  ghost predicate Simulates(cfg: Config, s: State, serial: Store) {
    && (forall i :: !Covered(s, i) ==> Get(serial, i) == Get(s.store, i))
    && (forall t :: 0 <= t < |s.threads| ==> Follows(cfg, s, t, serial))
  }

  ghost predicate SerialInv(cfg: Config, s0: State, s: State) {
    && Inv(cfg, s)
    && SameRequests(s0, s)
    && Accounted(s)
    && Committable(s0.threads, s.commits)
    && SerialComplete(cfg, s0.threads, s.commits, s0.store)
    && Simulates(cfg, s, Serial(cfg, s0.threads, s.commits, s0.store))
  }

  // ---- one step ----

  lemma CoveredFrame(s: State, s': State, t: nat, i: Id)
    requires t < |s.threads| == |s'.threads|
    requires forall u :: 0 <= u < |s.threads| && u != t ==> s'.threads[u] == s.threads[u]
    requires s'.threads[t].req == s.threads[t].req
    requires s.threads[t].pc.Body? ==> s'.threads[t].pc.Body? || i !in LockSet(s.threads[t].req)
    ensures !Covered(s', i) ==> !Covered(s, i)
  {
    if Covered(s, i) {
      var u :| 0 <= u < |s.threads| && s.threads[u].pc.Body? && i in LockSet(s.threads[u].req);
      assert s'.threads[u].pc.Body? && i in LockSet(s'.threads[u].req);
    }
  }

  /** A step inside the region: the serial store waits, the region's lone run takes the same step. */
  lemma RegionStepSimulates(cfg: Config, s: State, t: nat, ch: Choice, serial: Store)
    requires Inv(cfg, s) && CanStep(s, t) && Simulates(cfg, s, serial)
    requires s.threads[t].pc.Body? && !s.threads[t].pc.l.Exit?
    ensures Simulates(cfg, DoStep(cfg, s, t, ch), serial)
  {
    var s' := DoStep(cfg, s, t, ch);
    var th := s.threads[t];
    var g, l := th.pc.g, th.pc.l;
    StepFrame(cfg, s, t, ch);
    if !(l.Append? && s.owner == None) {
      var alone := RunBody(cfg, t, th.req, g, th.trail, serial);
      assert Follows(cfg, s, t, serial);
      StepIsLocal(cfg, t, th.req, g, l, alone.store, s.store, ch);
      assert (th.trail + [ch])[..|th.trail|] == th.trail;
    }
    forall u | 0 <= u < |s'.threads| ensures Follows(cfg, s', u, serial) {
      assert Follows(cfg, s, u, serial);
      if u != t { OthersKept(cfg, s, t, ch, u); }
    }
    forall i | i in LockSet(th.req) ensures Covered(s', i) {
      assert s'.threads[t].pc.Body?;
    }
    forall i | !Covered(s', i) ensures Get(serial, i) == Get(s'.store, i) {
      CoveredFrame(s, s', t, i);
    }
  }

  /** The end of the region: the serial store takes the whole region at once. */
  lemma CommitSimulates(cfg: Config, s: State, t: nat, ch: Choice, serial: Store)
    requires Inv(cfg, s) && CanStep(s, t) && Simulates(cfg, s, serial)
    requires s.threads[t].pc.Body? && s.threads[t].pc.l.Exit?
    ensures var th := s.threads[t];
            var alone := RunBody(cfg, t, th.req, th.pc.g, th.trail, serial);
            alone.loc.Exit? && Simulates(cfg, DoStep(cfg, s, t, ch), alone.store)
  {
    var s' := DoStep(cfg, s, t, ch);
    var th := s.threads[t];
    var serial' := RunBody(cfg, t, th.req, th.pc.g, th.trail, serial).store;
    assert Follows(cfg, s, t, serial);
    StepFrame(cfg, s, t, ch);
    assert s'.store == s.store;
    forall u | 0 <= u < |s'.threads| ensures Follows(cfg, s', u, serial') {
      assert Follows(cfg, s, u, serial);
      if u != t && s.threads[u].pc.Body? {
        var other := s.threads[u];
        OrderIsLockSet(th.req);
        OrderIsLockSet(other.req);
        MutualExclusion(s, t, u);
        forall i | i in LockSet(other.req) ensures Get(serial, i) == Get(serial', i) {
          RegionLeavesOthers(cfg, t, th.req, th.pc.g, th.trail, serial, i);
        }
        RegionIsLocal(cfg, u, other.req, other.pc.g, other.trail, serial, serial');
      }
    }
    forall i | !Covered(s', i) ensures Get(serial', i) == Get(s'.store, i) {
      if i !in LockSet(th.req) {
        RegionLeavesOthers(cfg, t, th.req, th.pc.g, th.trail, serial, i);
        CoveredFrame(s, s', t, i);
      }
    }
  }

  /** Outside the region nothing is read or written; on entry the records are as the serial store has them. */
  lemma OutsideStep(cfg: Config, s: State, t: nat, ch: Choice)
    requires CanStep(s, t) && !s.threads[t].pc.Body?
    ensures var s', th := DoStep(cfg, s, t, ch), s.threads[t];
            && s'.store == s.store && |s'.threads| == |s.threads|
            && (forall u :: 0 <= u < |s.threads| && u != t ==> s'.threads[u] == s.threads[u])
            && s'.threads[t].req == th.req && s'.threads[t].trail == th.trail
            && (s'.threads[t].pc.Body? ==> th.pc.Locking? && s'.threads[t].pc.l == StartLoc(t, th.req, s'.threads[t].pc.g))
  {
  }

  lemma OutsideStepSimulates(cfg: Config, s: State, t: nat, ch: Choice, serial: Store)
    requires Inv(cfg, s) && CanStep(s, t) && Simulates(cfg, s, serial)
    requires !s.threads[t].pc.Body? && (!PastBody(s.threads[t].pc) ==> s.threads[t].trail == [])
    ensures Simulates(cfg, DoStep(cfg, s, t, ch), serial)
  {
    hide DoStep, StartLoc, PcOk;
    var s' := DoStep(cfg, s, t, ch);
    OutsideStep(cfg, s, t, ch);
    StepKeepsInv(cfg, s, t, ch);
    forall i | !Covered(s', i) ensures Get(serial, i) == Get(s'.store, i) {
      CoveredFrame(s, s', t, i);
    }
    forall u | 0 <= u < |s'.threads| ensures Follows(cfg, s', u, serial) {
      assert Follows(cfg, s, u, serial);
      if u == t && s'.threads[t].pc.Body? {
        EntryAgrees(cfg, s, s', t, serial);
      }
    }
  }

  lemma EntryAgrees(cfg: Config, s: State, s': State, t: nat, serial: Store)
    requires Inv(cfg, s') && Simulates(cfg, s, serial) && s'.store == s.store
    requires t < |s.threads| == |s'.threads| && s'.threads[t].req == s.threads[t].req
    requires forall u :: 0 <= u < |s.threads| && u != t ==> s'.threads[u] == s.threads[u]
    requires !s.threads[t].pc.Body? && s'.threads[t].pc.Body?
    ensures AgreeOn(LockSet(s'.threads[t].req), serial, s.store)
  {
    OrderIsLockSet(s'.threads[t].req);
    forall i | i in LockSet(s'.threads[t].req) ensures Get(serial, i) == Get(s.store, i) {
      if Covered(s, i) {
        var u :| 0 <= u < |s.threads| && s.threads[u].pc.Body? && i in LockSet(s.threads[u].req);
        OrderIsLockSet(s.threads[u].req);
        MutualExclusion(s', t, u);
        assert false;
      }
    }
  }

  /** How a step that commits nothing moves its thread. */
  lemma TrailMove(cfg: Config, s: State, t: nat, ch: Choice)
    requires CanStep(s, t) && (!PastBody(s.threads[t].pc) && !s.threads[t].pc.Body? ==> s.threads[t].trail == [])
    requires !(s.threads[t].pc.Body? && s.threads[t].pc.l.Exit?)
    ensures var th, s' := s.threads[t], DoStep(cfg, s, t, ch);
            var th' := s'.threads[t];
            && s'.commits == s.commits
            && (PastBody(th.pc) ==> PastBody(th'.pc) && th'.trail == th.trail)
            && (!PastBody(th.pc) && PastBody(th'.pc) ==> th'.trail == [])
            && (!PastBody(th'.pc) && !th'.pc.Body? ==> th'.trail == [])
  {
  }

  lemma AccountedWithoutCommit(s: State, s': State, t: nat)
    requires Accounted(s) && t < |s.threads| == |s'.threads| && s'.commits == s.commits
    requires forall u :: 0 <= u < |s.threads| && u != t ==> s'.threads[u] == s.threads[u]
    requires var th, th' := s.threads[t], s'.threads[t];
             && (PastBody(th.pc) ==> PastBody(th'.pc) && th'.trail == th.trail)
             && (!PastBody(th.pc) && PastBody(th'.pc) ==> th'.trail == [])
             && (!PastBody(th'.pc) && !th'.pc.Body? ==> th'.trail == [])
    ensures Accounted(s')
  {
    forall u | 0 <= u < |s'.threads| && PastBody(s'.threads[u].pc)
      ensures s'.threads[u].trail == [] || exists k :: 0 <= k < |s'.commits| && s'.commits[k].tid == u
    {
      if s'.threads[u].trail != [] {
        var k :| 0 <= k < |s.commits| && s.commits[k].tid == u;
        assert s'.commits[k].tid == u;
      }
    }
  }

  lemma AccountedWithCommit(s: State, s': State, t: nat, c: Commit)
    requires Accounted(s) && t < |s.threads| == |s'.threads| && s'.commits == s.commits + [c]
    requires forall u :: 0 <= u < |s.threads| && u != t ==> s'.threads[u] == s.threads[u]
    requires s.threads[t].pc.Body? && PastBody(s'.threads[t].pc)
    requires c.tid == t && c.trail == s'.threads[t].trail
    ensures Accounted(s')
  {
    var n := |s.commits|;
    forall u | 0 <= u < |s'.threads| && PastBody(s'.threads[u].pc)
      ensures s'.threads[u].trail == [] || exists k :: 0 <= k < |s'.commits| && s'.commits[k].tid == u
    {
      if u == t {
        assert s'.commits[n].tid == u;
      } else if s.threads[u].trail != [] {
        var k :| 0 <= k < n && s.commits[k].tid == u;
        assert s'.commits[k].tid == u;
      }
    }
    forall k | 0 <= k < n ensures s'.commits[k] == s.commits[k] && s'.threads[s.commits[k].tid] == s.threads[s.commits[k].tid] {
      assert PastBody(s.threads[s.commits[k].tid].pc);
    }
    assert s'.commits[n] == c;
  }

  lemma AccountedKept(cfg: Config, s: State, t: nat, ch: Choice)
    requires Inv(cfg, s) && CanStep(s, t) && Accounted(s)
    ensures Accounted(DoStep(cfg, s, t, ch))
  {
    var s' := DoStep(cfg, s, t, ch);
    var th := s.threads[t];
    StepFrame(cfg, s, t, ch);
    if th.pc.Body? && th.pc.l.Exit? {
      AccountedWithCommit(s, s', t, Commit(t, th.pc.g, th.trail));
    } else {
      TrailMove(cfg, s, t, ch);
      AccountedWithoutCommit(s, s', t);
    }
  }

  lemma StepKeepsSerialInv(cfg: Config, s0: State, s: State, t: nat, ch: Choice)
    requires SerialInv(cfg, s0, s) && CanStep(s, t)
    ensures SerialInv(cfg, s0, DoStep(cfg, s, t, ch))
  {
    var s' := DoStep(cfg, s, t, ch);
    var th := s.threads[t];
    StepKeepsInv(cfg, s, t, ch);
    AccountedKept(cfg, s, t, ch);
    RequestsKept(cfg, s0, s, t, ch);
    if th.pc.Body? && th.pc.l.Exit? {
      CommitStepKeeps(cfg, s0, s, t, ch);
    } else {
      PlainStepKeeps(cfg, s0, s, t, ch);
    }
  }

  lemma RequestsKept(cfg: Config, s0: State, s: State, t: nat, ch: Choice)
    requires Inv(cfg, s) && CanStep(s, t) && SameRequests(s0, s)
    ensures SameRequests(s0, DoStep(cfg, s, t, ch))
  {
    StepFrame(cfg, s, t, ch);
  }

  lemma CommitStepKeeps(cfg: Config, s0: State, s: State, t: nat, ch: Choice)
    requires SerialInv(cfg, s0, s) && CanStep(s, t)
    requires s.threads[t].pc.Body? && s.threads[t].pc.l.Exit?
    ensures var s' := DoStep(cfg, s, t, ch);
            && Committable(s0.threads, s'.commits)
            && SerialComplete(cfg, s0.threads, s'.commits, s0.store)
            && Simulates(cfg, s', Serial(cfg, s0.threads, s'.commits, s0.store))
  {
    var s' := DoStep(cfg, s, t, ch);
    var th := s.threads[t];
    CommitSimulates(cfg, s, t, ch, Serial(cfg, s0.threads, s.commits, s0.store));
    CommitExtends(cfg, s0, s, s', Commit(t, th.pc.g, th.trail));
  }

  lemma PlainStepKeeps(cfg: Config, s0: State, s: State, t: nat, ch: Choice)
    requires SerialInv(cfg, s0, s) && CanStep(s, t)
    requires !(s.threads[t].pc.Body? && s.threads[t].pc.l.Exit?)
    ensures var s' := DoStep(cfg, s, t, ch);
            && s'.commits == s.commits
            && Simulates(cfg, s', Serial(cfg, s0.threads, s.commits, s0.store))
  {
    TrailMove(cfg, s, t, ch);
    if s.threads[t].pc.Body? {
      RegionStepSimulates(cfg, s, t, ch, Serial(cfg, s0.threads, s.commits, s0.store));
    } else {
      OutsideStepSimulates(cfg, s, t, ch, Serial(cfg, s0.threads, s.commits, s0.store));
    }
  }

  lemma CommitExtends(cfg: Config, s0: State, s: State, s': State, c: Commit)
    requires Committable(s0.threads, s.commits) && SerialComplete(cfg, s0.threads, s.commits, s0.store)
    requires c.tid < |s0.threads| && s'.commits == s.commits + [c]
    requires RunBody(cfg, c.tid, s0.threads[c.tid].req, c.g, c.trail,
                     Serial(cfg, s0.threads, s.commits, s0.store)).loc.Exit?
    ensures Committable(s0.threads, s'.commits)
    ensures SerialComplete(cfg, s0.threads, s'.commits, s0.store)
    ensures Serial(cfg, s0.threads, s'.commits, s0.store)
            == RunBody(cfg, c.tid, s0.threads[c.tid].req, c.g, c.trail,
                       Serial(cfg, s0.threads, s.commits, s0.store)).store
  {
    assert s'.commits[..|s.commits|] == s.commits;
    forall k | 0 <= k < |s'.commits|
      ensures var d := s'.commits[k];
              RunBody(cfg, d.tid, s0.threads[d.tid].req, d.g, d.trail,
                      Serial(cfg, s0.threads, s'.commits[..k], s0.store)).loc.Exit?
    {
      assert k < |s.commits| ==> s'.commits[..k] == s.commits[..k];
    }
  }

  lemma {:induction false} ReachableSerialInv(cfg: Config, s0: State, sched: seq<Move>)
    requires Initial(s0) && Runs(cfg, s0, sched)
    ensures SerialInv(cfg, s0, After(cfg, s0, sched))
  {
    if sched == [] {
      ReachableInv(cfg, s0, sched);
    } else {
      var front, last := sched[..|sched| - 1], sched[|sched| - 1];
      ReachableSerialInv(cfg, s0, front);
      StepKeepsSerialInv(cfg, s0, After(cfg, s0, front), last.t, last.ch);
    }
  }

  /** Serializability. In every reachable state each record that is not inside a locked region has the
      value the serial execution gives it; once every request is done the two stores are equal. The
      serial order holds each region that ran exactly once, and each runs to its end there. */
  lemma HandlersAreSerializable(cfg: Config, s0: State, sched: seq<Move>)
    requires Initial(s0) && Runs(cfg, s0, sched)
    ensures var s := After(cfg, s0, sched);
            && Accounted(s) && Committable(s0.threads, s.commits)
            && SerialComplete(cfg, s0.threads, s.commits, s0.store)
            && (forall i :: !Covered(s, i) ==> Get(Serial(cfg, s0.threads, s.commits, s0.store), i) == Get(s.store, i))
            && (AllDone(s) ==> s.store == Serial(cfg, s0.threads, s.commits, s0.store))
  {
    ReachableSerialInv(cfg, s0, sched);
    var s := After(cfg, s0, sched);
    var serial := Serial(cfg, s0.threads, s.commits, s0.store);
    if AllDone(s) {
      forall i ensures Get(serial, i) == Get(s.store, i) {
        assert !Covered(s, i);
      }
      assert serial.Keys == s.store.Keys by {
        forall i ensures i in serial <==> i in s.store { assert Get(serial, i) == Get(s.store, i); }
      }
      assert forall i :: i in serial ==> Get(serial, i) == Get(s.store, i);
    }
  }
}
