/** The judge call: busy answers are waited out under a time budget, with at most two repeated timeouts. */
module Judge {
  import opened Spend

  const MAX_TIMEOUT_RETRIES := 2
  const MIN_SLEEP_S := 0.1

  // One turn of the loop: where the judgment is sent, how long it takes, how long the sleep after it
  // overruns, and what the far side does.
  datatype Transport = Shim(outcome: Outcome) | Native(outcome: Outcome) | Anthropic(call: Call)
  datatype Turn = Turn(transport: Transport, took: real, overslept: real)

  predicate Busy(o: Outcome) {
    o == Failed(LockContended) || o == Failed(ClientTimeout) || o == Failed(RateLimited)
  }

  predicate TurnOk(t: Turn) {
    t.took >= 0.0 && t.overslept >= 0.0 && (t.transport.Anthropic? ==> CallOk(t.transport.call))
  }

  function Min(a: real, b: real): real { if a < b then a else b }
  function Max(a: real, b: real): real { if a < b then b else a }

  function Pause(interval: real, remaining: real): real { Max(MIN_SLEEP_S, Min(interval, remaining)) }

  function Ceil(x: real): int { -((-x).Floor) }

  /** The most attempts a budget allows: the first, and one per tenth of a second. */
  function MaxAttempts(budget: real): int { if budget <= 0.0 then 1 else Ceil(10.0 * budget) + 1 }

  /** The outcome of a turn against a ledger, and the ledger after it. */
  function TurnOutcome(rows: seq<Row>, t: Turn): (Outcome, seq<Row>) {
    match t.transport
    case Shim(outcome) => (outcome, rows)
    case Native(outcome) => (outcome, rows)
    case Anthropic(call) => Judged(rows, call)
  }

  /** The ledger after the first `k` turns, and what the next one answers. */
  function RowsAt(rows: seq<Row>, turns: nat -> Turn, k: nat): seq<Row> {
    if k == 0 then rows else TurnOutcome(RowsAt(rows, turns, k - 1), turns(k - 1)).1
  }

  function OutcomeAt(rows: seq<Row>, turns: nat -> Turn, k: nat): Outcome {
    TurnOutcome(RowsAt(rows, turns, k), turns(k)).0
  }

  /** When the (k+1)-th attempt starts: every attempt before it took its time, and so did the pause after. */
  function StartOf(turns: nat -> Turn, budget: real, interval: real, k: nat): real
    decreases k, 0
  {
    if k == 0 then 0.0
    else
      var elapsed := EndOf(turns, budget, interval, k - 1);
      elapsed + Pause(interval, budget - elapsed) + turns(k - 1).overslept
  }

  function EndOf(turns: nat -> Turn, budget: real, interval: real, k: nat): real
    decreases k, 1
  {
    StartOf(turns, budget, interval, k) + turns(k).took
  }

  /** How many of the first `k` attempts timed out. */
  function Timeouts(rows: seq<Row>, turns: nat -> Turn, k: nat): nat {
    if k == 0 then 0
    else Timeouts(rows, turns, k - 1) + (if OutcomeAt(rows, turns, k - 1) == Failed(ClientTimeout) then 1 else 0)
  }

  /** The attempt is waited out: a busy answer, with budget left, and no third timeout. */
  predicate WaitedOut(rows: seq<Row>, turns: nat -> Turn, budget: real, interval: real, k: nat) {
    && Busy(OutcomeAt(rows, turns, k))
    && EndOf(turns, budget, interval, k) < budget
    && (OutcomeAt(rows, turns, k) == Failed(ClientTimeout) ==> Timeouts(rows, turns, k + 1) <= MAX_TIMEOUT_RETRIES)
  }

  lemma TurnWrites(rows: seq<Row>, t: Turn)
    requires TurnOk(t)
    ensures var (o, after) := TurnOutcome(rows, t);
            |rows| <= |after| <= |rows| + 1 && (Busy(o) && o != Failed(ClientTimeout) ==> after == rows)
  {
    if t.transport.Anthropic? { OneRowPerCall(rows, t.transport.call); }
  }

  lemma RetriesFit(retries: nat, elapsed: real, budget: real)
    requires MIN_SLEEP_S * retries as real <= elapsed < budget
    ensures retries + 1 < MaxAttempts(budget)
  {
    assert retries as real < 10.0 * budget;
    assert (-(10.0 * budget)).Floor as real <= -(10.0 * budget);
  }

  class Judge {
    const ledger: Ledger

    constructor ()
      ensures fresh(ledger) && ledger.rows == []
    {
      ledger := new Ledger();
    }

    /** Attempts are made up to the first one that is not waited out, and its outcome is the answer. `waited`
        is what is reported as waited: the end of a busy last attempt, else the start of the last one. */
    method Run(turns: nat -> Turn, budget: real, interval: real) returns (out: Outcome, attempts: nat, waited: real)
      requires forall i :: TurnOk(turns(i))
      modifies ledger
      ensures 1 <= attempts <= MaxAttempts(budget)
      ensures forall k :: 0 <= k < attempts - 1 ==> WaitedOut(old(ledger.rows), turns, budget, interval, k)
      ensures !WaitedOut(old(ledger.rows), turns, budget, interval, attempts - 1)
      ensures out == OutcomeAt(old(ledger.rows), turns, attempts - 1)
      ensures !turns(attempts - 1).transport.Anthropic? ==> out == turns(attempts - 1).transport.outcome
      ensures out in {Failed(LockContended), Failed(RateLimited)} ==> EndOf(turns, budget, interval, attempts - 1) >= budget
      ensures out == Failed(ClientTimeout) ==>
                EndOf(turns, budget, interval, attempts - 1) >= budget || Timeouts(old(ledger.rows), turns, attempts) == 3
      ensures ledger.rows == RowsAt(old(ledger.rows), turns, attempts)
      ensures waited == if Busy(out) then EndOf(turns, budget, interval, attempts - 1)
                        else StartOf(turns, budget, interval, attempts - 1)
    {
      attempts, waited := 0, 0.0;
      var timeouts := 0;
      while true
        invariant attempts < MaxAttempts(budget) && waited == StartOf(turns, budget, interval, attempts)
        invariant MIN_SLEEP_S * attempts as real <= waited
        invariant forall k :: 0 <= k < attempts ==> WaitedOut(old(ledger.rows), turns, budget, interval, k)
        invariant timeouts == Timeouts(old(ledger.rows), turns, attempts) && timeouts <= MAX_TIMEOUT_RETRIES
        invariant ledger.rows == RowsAt(old(ledger.rows), turns, attempts)
        decreases MaxAttempts(budget) - attempts
      {
        var t := turns(attempts);
        match t.transport {
          case Shim(o) => out := o;
          case Native(o) => out := o;
          case Anthropic(call) =>
            var calls;
            out, calls := ledger.JudgeOnce(call);
        }
        attempts := attempts + 1;
        if !Busy(out) { return; }
        waited := waited + t.took;
        var remaining := budget - waited;
        if remaining <= 0.0 { return; }
        if out == Failed(ClientTimeout) {
          if timeouts >= MAX_TIMEOUT_RETRIES { return; }
          timeouts := timeouts + 1;
        }
        RetriesFit(attempts - 1, waited, budget);
        waited := waited + Pause(interval, remaining) + t.overslept;
      }
    }
  }

  // ---- what that means for the caller ----

  /** Which answers are waited out: a held lock and a rate limit while the budget lasts, a timeout the first two
      times too, and nothing else: an answer, a refusal or any other error is final. */
  lemma WaitedOutIff(rows: seq<Row>, turns: nat -> Turn, budget: real, interval: real, k: nat)
    ensures var out := OutcomeAt(rows, turns, k);
            WaitedOut(rows, turns, budget, interval, k)
            <==> && EndOf(turns, budget, interval, k) < budget
                 && (out in {Failed(LockContended), Failed(RateLimited)}
                     || (out == Failed(ClientTimeout)
                         && |set j | 0 <= j < k && OutcomeAt(rows, turns, j) == Failed(ClientTimeout)| < 2))
  {
    TimeoutsAreCounted(rows, turns, k);
  }

  lemma {:induction false} TimeoutsAreCounted(rows: seq<Row>, turns: nat -> Turn, k: nat)
    ensures Timeouts(rows, turns, k) == |set j | 0 <= j < k && OutcomeAt(rows, turns, j) == Failed(ClientTimeout)|
  {
    if k > 0 {
      TimeoutsAreCounted(rows, turns, k - 1);
      var before := set j | 0 <= j < k - 1 && OutcomeAt(rows, turns, j) == Failed(ClientTimeout);
      var now := set j | 0 <= j < k && OutcomeAt(rows, turns, j) == Failed(ClientTimeout);
      assert now == if OutcomeAt(rows, turns, k - 1) == Failed(ClientTimeout) then before + {k - 1} else before;
    }
  }

  /** The pause before the next attempt: the interval the caller asked for, or what is left of the budget if
      that is less, but never under a tenth of a second. */
  lemma PauseBetween(turns: nat -> Turn, budget: real, interval: real, k: nat)
    ensures var pause := StartOf(turns, budget, interval, k + 1) - EndOf(turns, budget, interval, k) - turns(k).overslept;
            var left := budget - EndOf(turns, budget, interval, k);
            && pause >= 0.1
            && (0.1 <= interval <= left ==> pause == interval)
            && (0.1 <= left <= interval ==> pause == left)
            && (interval <= 0.1 || left <= 0.1 ==> pause == 0.1)
    ensures EndOf(turns, budget, interval, k) == StartOf(turns, budget, interval, k) + turns(k).took
    ensures StartOf(turns, budget, interval, 0) == 0.0
  {
  }

  lemma {:induction false} FewTimeouts(rows: seq<Row>, turns: nat -> Turn, budget: real, interval: real, n: nat)
    requires forall k :: 0 <= k < n ==> WaitedOut(rows, turns, budget, interval, k)
    ensures Timeouts(rows, turns, n) <= MAX_TIMEOUT_RETRIES
  {
    if n > 0 {
      FewTimeouts(rows, turns, budget, interval, n - 1);
      assert WaitedOut(rows, turns, budget, interval, n - 1);
    }
  }

  lemma {:induction false} RowsFollowTimeouts(rows: seq<Row>, turns: nat -> Turn, n: nat)
    requires forall k :: TurnOk(turns(k))
    requires forall k :: 0 <= k < n ==> Busy(OutcomeAt(rows, turns, k))
    ensures |rows| <= |RowsAt(rows, turns, n)| <= |rows| + Timeouts(rows, turns, n)
  {
    if n > 0 {
      RowsFollowTimeouts(rows, turns, n - 1);
      TurnWrites(RowsAt(rows, turns, n - 1), turns(n - 1));
      assert OutcomeAt(rows, turns, n - 1) == TurnOutcome(RowsAt(rows, turns, n - 1), turns(n - 1)).0;
    }
  }

  /** A run of `n` attempts, all but the last waited out: the last starts less than a tenth of a second (and
      its pause's overrun) after the budget, at most three timed out, at most three ledger rows were written,
      and a last answer that is still busy means a spent budget or a third timeout. */
  lemma RunIsBounded(rows: seq<Row>, turns: nat -> Turn, budget: real, interval: real, n: nat)
    requires forall k :: TurnOk(turns(k))
    requires n >= 1 && forall k :: 0 <= k < n - 1 ==> WaitedOut(rows, turns, budget, interval, k)
    ensures n == 1 ==> StartOf(turns, budget, interval, n - 1) == 0.0
    ensures n >= 2 ==> StartOf(turns, budget, interval, n - 1) < budget + MIN_SLEEP_S + turns(n - 2).overslept
    ensures Timeouts(rows, turns, n) <= MAX_TIMEOUT_RETRIES + 1
    ensures |rows| <= |RowsAt(rows, turns, n)| <= |rows| + 3
    ensures !WaitedOut(rows, turns, budget, interval, n - 1) && Busy(OutcomeAt(rows, turns, n - 1))
            ==> EndOf(turns, budget, interval, n - 1) >= budget || Timeouts(rows, turns, n) == MAX_TIMEOUT_RETRIES + 1
  {
    FewTimeouts(rows, turns, budget, interval, n - 1);
    forall k | 0 <= k < n - 1 ensures Busy(OutcomeAt(rows, turns, k)) {
      assert WaitedOut(rows, turns, budget, interval, k);
    }
    RowsFollowTimeouts(rows, turns, n - 1);
    TurnWrites(RowsAt(rows, turns, n - 1), turns(n - 1));
    if n >= 2 { assert WaitedOut(rows, turns, budget, interval, n - 2); }
  }
}
