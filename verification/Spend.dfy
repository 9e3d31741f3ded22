/** The Claude API judge: price table, monthly spend ledger, budget gate and the one call with its retry. */
module Spend {
  import opened Records
  import opened Lists

  // ---- prices, in USD per million tokens ----

  datatype Price = Price(prefix: string, input: real, output: real)

  const PRICES: seq<Price> := [
    Price("claude-haiku-5-5", 0.10, 0.50),
    Price("claude-sonnet-5", 2.00, 10.00),
    Price("claude-opus-5-5", 4.00, 20.00),
    Price("claude-opus-", 5.00, 25.00),
    Price("claude-fable-", 10.00, 50.00),
    Price("claude-haiku-", 1.00, 5.00),
    Price("claude-sonnet-", 3.00, 15.00)]

  const UNKNOWN_INPUT := 10.00
  const UNKNOWN_OUTPUT := 50.00
  const HAIKU_LONG_PROMPT_TOKENS := 100000
  const HAIKU_LONG_PROMPT_FACTOR := 5.0

  function FirstPrice(model: string, from: nat): (i: nat)
    requires from <= |PRICES|
    ensures from <= i <= |PRICES|
    ensures i < |PRICES| ==> PRICES[i].prefix <= model
    ensures forall k :: from <= k < i ==> !(PRICES[k].prefix <= model)
    decreases |PRICES| - from
  {
    if from == |PRICES| || PRICES[from].prefix <= model then from else FirstPrice(model, from + 1)
  }

  /** The small model bills a long prompt at five times its rate. */
  function Rates(model: string, input: nat): (real, real) {
    var i := FirstPrice(model, 0);
    var rateIn := if i < |PRICES| then PRICES[i].input else UNKNOWN_INPUT;
    var rateOut := if i < |PRICES| then PRICES[i].output else UNKNOWN_OUTPUT;
    if "claude-haiku-5-5" <= model && input > HAIKU_LONG_PROMPT_TOKENS
    then (rateIn * HAIKU_LONG_PROMPT_FACTOR, rateOut * HAIKU_LONG_PROMPT_FACTOR)
    else (rateIn, rateOut)
  }

  function Bill(input: nat, output: nat, rates: (real, real)): real {
    (input as real * rates.0 + output as real * rates.1) / 1000000.0
  }

  function Cost(model: string, input: nat, output: nat): real { Bill(input, output, Rates(model, input)) }

  method EstimateCostUsd(model: string, input: nat, output: nat) returns (cost: real)
    ensures cost == Cost(model, input, output)
  {
    hide Bill;
    var rateIn, rateOut := UNKNOWN_INPUT, UNKNOWN_OUTPUT;
    var i := 0;
    while i < |PRICES|
      invariant 0 <= i <= |PRICES|
      invariant forall k :: 0 <= k < i ==> !(PRICES[k].prefix <= model)
      invariant rateIn == UNKNOWN_INPUT && rateOut == UNKNOWN_OUTPUT
    {
      if PRICES[i].prefix <= model {
        rateIn, rateOut := PRICES[i].input, PRICES[i].output;
        break;
      }
      i := i + 1;
    }
    assert FirstPrice(model, 0) == i;
    if "claude-haiku-5-5" <= model && input > HAIKU_LONG_PROMPT_TOKENS {
      rateIn, rateOut := rateIn * HAIKU_LONG_PROMPT_FACTOR, rateOut * HAIKU_LONG_PROMPT_FACTOR;
    }
    cost := Bill(input, output, (rateIn, rateOut));
  }

  /** The row that is used is the most specific one that matches. */
  lemma LongestPrefixWins(model: string, k: nat)
    requires k < |PRICES| && PRICES[k].prefix <= model
    ensures var i := FirstPrice(model, 0);
            i < |PRICES| && |PRICES[k].prefix| <= |PRICES[i].prefix| && (i == k || |PRICES[k].prefix| < |PRICES[i].prefix|)
  {
    var i := FirstPrice(model, 0);
    var a, b := PRICES[i].prefix, PRICES[k].prefix;
    assert a[7] == model[7] == b[7];
  }

  lemma RatesBelowUnknown(model: string, input: nat)
    ensures 0.0 < Rates(model, input).0 <= UNKNOWN_INPUT && 0.0 < Rates(model, input).1 <= UNKNOWN_OUTPUT
  {
    if "claude-haiku-5-5" <= model { LongestPrefixWins(model, 0); }
  }

  lemma BillGrows(input: nat, output: nat, a: (real, real), b: (real, real))
    requires 0.0 <= a.0 <= b.0 && 0.0 <= a.1 <= b.1
    ensures 0.0 <= Bill(input, output, a) <= Bill(input, output, b)
  {
    ScaleKeepsOrder(input, a.0, b.0);
    ScaleKeepsOrder(output, a.1, b.1);
  }

  lemma ScaleKeepsOrder(n: nat, a: real, b: real)
    requires 0.0 <= a <= b
    ensures 0.0 <= n as real * a <= n as real * b
  {
  }

  /** A model no row matches is priced at the highest rates of all, so the cap trips early, never late. */
  lemma UnknownIsHighest(model: string, unknown: string, input: nat, output: nat)
    requires FirstPrice(unknown, 0) == |PRICES|
    ensures 0.0 <= Cost(model, input, output) <= Cost(unknown, input, output)
  {
    assert !("claude-haiku-5-5" <= unknown) by { assert !(PRICES[0].prefix <= unknown); }
    RatesBelowUnknown(model, input);
    BillGrows(input, output, Rates(model, input), Rates(unknown, input));
  }

  /** The rates in force: the row's, or the highest, five times that for a long prompt of the small model. */
  function RatesFor(model: string, long: bool): (real, real) {
    var i := FirstPrice(model, 0);
    var (rateIn, rateOut) := if i < |PRICES| then (PRICES[i].input, PRICES[i].output) else (10.0, 50.0);
    if "claude-haiku-5-5" <= model && long then (5.0 * rateIn, 5.0 * rateOut) else (rateIn, rateOut)
  }

  lemma RatesAre(model: string, input: nat)
    ensures Rates(model, input) == RatesFor(model, input > 100000)
  {
    hide FirstPrice;
  }

  /** A price is so many dollars per million tokens read and so many per million written; a prompt is long from
      a million on. */
  lemma PricePerMillion(model: string, millionsIn: nat, millionsOut: nat)
    ensures var rates := RatesFor(model, millionsIn >= 1);
            Cost(model, 1000000 * millionsIn, 1000000 * millionsOut) == rates.0 * millionsIn as real + rates.1 * millionsOut as real
  {
    hide Bill, FirstPrice, Rates, RatesFor;
    RatesAre(model, 1000000 * millionsIn);
    BillPerMillion(millionsIn, millionsOut, RatesFor(model, millionsIn >= 1));
  }

  lemma BillPerMillion(a: nat, b: nat, rates: (real, real))
    ensures Bill(1000000 * a, 1000000 * b, rates) == rates.0 * a as real + rates.1 * b as real
  {
    PerMillion(a, rates.0);
    PerMillion(b, rates.1);
  }

  lemma PerMillion(n: nat, rate: real)
    ensures (1000000 * n) as real * rate == (rate * n as real) * 1000000.0
  {
  }

  // ---- the ledger: one row per billed call, in the file of its month ----

  datatype Row = Row(month: int, cost: real)

  function MonthTotal(rows: seq<Row>, month: int): real {
    if rows == [] then 0.0
    else MonthTotal(rows[..|rows| - 1], month) + (if Last(rows).month == month then Last(rows).cost else 0.0)
  }

  // ---- one call ----

  datatype ErrorType =
    | NoKey | BudgetExceeded | NoSdk
    | ClientTimeout | RateLimited | LockContended | Unreachable | Auth | Http(status: int)
    | Refusal | Truncated | Empty

  datatype Outcome = Answered | Failed(error: ErrorType)

  // What the SDK does with one request: a reply with its token counts, or an error.
  datatype Reply = Reply(served: string, input: nat, output: nat, verdict: Outcome) | Error(error: ErrorType)

  // One call of judge_once and what it meets: the clock values it reads, the replies, the ledger file.
  // `left` is the time to the deadline when an attempt starts, `after` when its error came back.
  datatype Call = Call(keyOk: bool, sdkOk: bool, cap: real, gateMonth: int, rowMonth: int, readable: bool, writable: bool,
                       model: string, promptChars: nat, left: nat -> real, after: nat -> real, reply: nat -> Reply)

  const RETRY_MIN_REMAINING_S := 10.0

  /** A reply's verdict is what the response says; only errors carry an error type of their own. */
  predicate CallOk(c: Call) {
    && (c.gateMonth <= c.rowMonth)
    && (forall k: nat :: 1 <= k <= 2 && c.reply(k).Reply? ==>
          c.reply(k).verdict == Answered || c.reply(k).verdict.error in {Refusal, Truncated, Empty})
  }

  predicate Retryable(e: ErrorType) { e == RateLimited || e == Unreachable || (e.Http? && 500 <= e.status < 600) }

  /** The cap is off at 0; a ledger that cannot be read counts as empty. */
  predicate Allowed(rows: seq<Row>, c: Call) {
    c.cap <= 0.0 || (if c.readable then MonthTotal(rows, c.gateMonth) else 0.0) < c.cap
  }

  /** From the given attempt on: the outcome, and the cost that was recorded. */
  function Attempt(c: Call, k: nat): (Outcome, Option<real>)
    requires 1 <= k <= 2
    decreases 2 - k
  {
    if c.left(k) < 1.0 then (Failed(ClientTimeout), None)
    else if !c.sdkOk then (Failed(NoSdk), None)
    else match c.reply(k)
      case Reply(served, input, output, verdict) => (verdict, Some(Cost(served, input, output)))
      case Error(error) =>
        if error == ClientTimeout then (Failed(error), Some(Cost(c.model, c.promptChars / 3 + 1, 0)))
        else if Retryable(error) && k < 2 && c.after(k) > RETRY_MIN_REMAINING_S then Attempt(c, k + 1)
        else (Failed(error), None)
  }

  function Judged(rows: seq<Row>, c: Call): (Outcome, seq<Row>) {
    if !c.keyOk then (Failed(NoKey), rows)
    else if !Allowed(rows, c) then (Failed(BudgetExceeded), rows)
    else
      var (outcome, cost) := Attempt(c, 1);
      (outcome, if cost.Some? && c.writable then rows + [Row(c.rowMonth, cost.value)] else rows)
  }

  class Ledger {
    var rows: seq<Row>

    constructor ()
      ensures rows == []
    {
      rows := [];
    }

    method RecordSpend(model: string, input: nat, output: nat, month: int, writable: bool) returns (cost: real)
      modifies this
      ensures cost == Cost(model, input, output)
      ensures rows == if writable then old(rows) + [Row(month, cost)] else old(rows)
    {
      cost := EstimateCostUsd(model, input, output);
      if writable { rows := rows + [Row(month, cost)]; }
    }

    method MonthSpend(month: int, readable: bool) returns (total: real)
      ensures total == if readable then MonthTotal(rows, month) else 0.0
    {
      total := 0.0;
      if readable {
        for i := 0 to |rows|
          invariant total == MonthTotal(rows[..i], month)
        {
          assert rows[..i + 1][..i] == rows[..i];
          if rows[i].month == month { total := total + rows[i].cost; }
        }
        assert rows[..|rows|] == rows;
      }
    }

    /** Key, budget, then at most two attempts; what was billed is recorded before the outcome is known. */
    method JudgeOnce(c: Call) returns (outcome: Outcome, calls: nat)
      modifies this
      ensures (outcome, rows) == Judged(old(rows), c)
      ensures calls <= 2 && (!c.keyOk || !Allowed(old(rows), c) ==> calls == 0)
    {
      calls := 0;
      if !c.keyOk { return Failed(NoKey), calls; }
      var spent := MonthSpend(c.gateMonth, c.readable);
      if c.cap > 0.0 && spent >= c.cap { return Failed(BudgetExceeded), calls; }
      var k := 1;
      while true
        invariant 1 <= k <= 2 && calls == k - 1 && rows == old(rows)
        invariant Attempt(c, 1) == Attempt(c, k)
        decreases 2 - k
      {
        if c.left(k) < 1.0 { return Failed(ClientTimeout), calls; }
        if !c.sdkOk { return Failed(NoSdk), calls; }
        calls := calls + 1;
        match c.reply(k) {
          case Reply(served, input, output, verdict) =>
            var cost := RecordSpend(served, input, output, c.rowMonth, c.writable);
            return verdict, calls;
          case Error(error) =>
            if error == ClientTimeout {
              var cost := RecordSpend(c.model, c.promptChars / 3 + 1, 0, c.rowMonth, c.writable);
            }
            if !(Retryable(error) && k < 2 && c.after(k) > RETRY_MIN_REMAINING_S) { return Failed(error), calls; }
            k := k + 1;
        }
      }
    }
  }

  // ---- the cap over any run ----

  function RowsAfter(rows: seq<Row>, calls: seq<Call>): seq<Row> {
    if calls == [] then rows else Judged(RowsAfter(rows, calls[..|calls| - 1]), Last(calls)).1
  }

  /** One call after the other: each call's clock starts where the one before it stopped. */
  predicate InOrder(calls: seq<Call>) {
    && (forall i :: 0 <= i < |calls| ==> calls[i].gateMonth <= calls[i].rowMonth)
    && (forall i, j :: 0 <= i < j < |calls| ==> calls[i].rowMonth <= calls[j].gateMonth)
  }

  /** Capped, and the ledger readable and writable throughout. */
  predicate Enforced(calls: seq<Call>, cap: real) {
    cap > 0.0 && forall i :: 0 <= i < |calls| ==> calls[i].cap == cap && calls[i].readable && calls[i].writable
  }

  function LastOf(rows: seq<Row>, month: int): real {
    if rows == [] then 0.0 else if Last(rows).month == month then Last(rows).cost else LastOf(rows[..|rows| - 1], month)
  }

  /** Without the last row of the month, the month was still under the cap. */
  predicate UnderCap(rows: seq<Row>, month: int, cap: real) {
    MonthTotal(rows, month) - LastOf(rows, month) < cap
  }

  lemma {:induction false} NothingAhead(rows: seq<Row>, month: int, bound: int)
    requires month > bound && forall i :: 0 <= i < |rows| ==> rows[i].month <= bound
    ensures MonthTotal(rows, month) == 0.0 && LastOf(rows, month) == 0.0
  {
    if rows != [] { NothingAhead(rows[..|rows| - 1], month, bound); }
  }

  /** A call that is let through and recorded keeps its month under the cap without that row. */
  lemma RowUnderCap(rows: seq<Row>, c: Call, month: int)
    requires c.cap > 0.0 && c.readable && c.gateMonth <= c.rowMonth
    requires UnderCap(rows, month, c.cap) && forall i :: 0 <= i < |rows| ==> rows[i].month <= c.gateMonth
    ensures UnderCap(Judged(rows, c).1, month, c.cap)
    ensures forall i :: 0 <= i < |Judged(rows, c).1| ==> Judged(rows, c).1[i].month <= c.rowMonth
  {
    hide Attempt;
    var after := Judged(rows, c).1;
    if after != rows {
      assert after[..|rows|] == rows && Last(after).month == c.rowMonth;
      if c.rowMonth > c.gateMonth { NothingAhead(rows, c.rowMonth, c.gateMonth); }
    }
  }

  /** In every month the recorded spend stays below the cap plus the cost of one row, over any run of calls
      made one after the other. */
  lemma {:induction false} SpendStaysUnderCap(calls: seq<Call>, cap: real, month: int)
    requires InOrder(calls) && Enforced(calls, cap)
    ensures UnderCap(RowsAfter([], calls), month, cap)
    ensures forall i :: 0 <= i < |RowsAfter([], calls)| ==> calls != [] && RowsAfter([], calls)[i].month <= Last(calls).rowMonth
  {
    hide Judged, UnderCap;
    if calls == [] {
      NothingYet(month, cap);
    } else {
      var front, c := calls[..|calls| - 1], Last(calls);
      SpendStaysUnderCap(front, cap, month);
      if front != [] { assert Last(front) == calls[|calls| - 2] && Last(front).rowMonth <= c.gateMonth; }
      RowUnderCap(RowsAfter([], front), c, month);
    }
  }

  lemma NothingYet(month: int, cap: real)
    requires cap > 0.0
    ensures UnderCap([], month, cap)
  {
  }

  /** A call writes at most one row, and none when it ends in an error that is waited out other than a
      timeout. */
  lemma OneRowPerCall(rows: seq<Row>, c: Call)
    requires CallOk(c)
    ensures var (outcome, after) := Judged(rows, c);
            && (after == rows || (|after| == |rows| + 1 && after[..|rows|] == rows))
            && (outcome == Failed(RateLimited) || outcome == Failed(LockContended) ==> after == rows)
  {
    if c.keyOk && Allowed(rows, c) {
      var (outcome, cost) := Attempt(c, 1);
      NoCostWhenBusy(c, 1);
    }
  }

  lemma {:induction false} NoCostWhenBusy(c: Call, k: nat)
    requires CallOk(c) && 1 <= k <= 2
    ensures var (outcome, cost) := Attempt(c, k);
            outcome == Failed(RateLimited) || outcome == Failed(LockContended) ==> cost.None?
    decreases 2 - k
  {
    if k < 2 { NoCostWhenBusy(c, k + 1); }
  }

  // ---- who is called, retried and billed ----

  /** A reply is billed once, at the model that served it for the tokens it reports, whatever the verdict. */
  lemma ReplyIsBilled(rows: seq<Row>, c: Call)
    requires c.keyOk && c.sdkOk && c.left(1) >= 1.0 && c.reply(1).Reply?
    requires c.cap <= 0.0 || !c.readable || MonthTotal(rows, c.gateMonth) < c.cap
    ensures var reply := c.reply(1);
            Judged(rows, c)
            == (reply.verdict, if c.writable then rows + [Row(c.rowMonth, Cost(reply.served, reply.input, reply.output))] else rows)
  {
    if c.readable && c.cap > 0.0 {} else { assert MonthTotal([], c.gateMonth) == 0.0; }
  }

  /** A request this side gave up on is billed as its prompt, a token per three characters, and not repeated. */
  lemma TimeoutIsBilled(rows: seq<Row>, c: Call)
    requires c.keyOk && c.sdkOk && c.left(1) >= 1.0 && c.reply(1) == Error(ClientTimeout)
    requires c.cap <= 0.0 || !c.readable || MonthTotal(rows, c.gateMonth) < c.cap
    ensures Judged(rows, c)
            == (Failed(ClientTimeout), if c.writable then rows + [Row(c.rowMonth, Cost(c.model, c.promptChars / 3 + 1, 0))] else rows)
  {
  }

  /** Any other error costs nothing. The three transient kinds get one second attempt, as if it were the first,
      while more than ten seconds are left; the rest is the answer. */
  lemma OtherErrors(rows: seq<Row>, c: Call)
    requires c.keyOk && c.sdkOk && c.left(1) >= 1.0 && c.reply(1).Error? && c.reply(1).error != ClientTimeout
    requires c.cap <= 0.0 || !c.readable || MonthTotal(rows, c.gateMonth) < c.cap
    ensures var error := c.reply(1).error;
            var transient := error in {RateLimited, Unreachable} || (error.Http? && 500 <= error.status <= 599);
            Judged(rows, c)
            == if transient && c.after(1) > 10.0
               then Judged(rows, c.(left := _ => c.left(2), after := _ => 0.0, reply := _ => c.reply(2)))
               else (Failed(error), rows)
  {
    assert Attempt(c, 2) == Attempt(c.(left := _ => c.left(2), after := _ => 0.0, reply := _ => c.reply(2)), 1);
  }

  /** Without a key, an SDK or a second of time, and from the cap on, nothing is called and nothing recorded. */
  lemma NotCalled(rows: seq<Row>, c: Call)
    ensures !c.keyOk ==> Judged(rows, c) == (Failed(NoKey), rows)
    ensures c.keyOk && c.cap > 0.0 && c.readable && MonthTotal(rows, c.gateMonth) >= c.cap
            ==> Judged(rows, c) == (Failed(BudgetExceeded), rows)
    ensures c.keyOk && (c.cap <= 0.0 || !c.readable || MonthTotal(rows, c.gateMonth) < c.cap) && (c.left(1) < 1.0 || !c.sdkOk)
            ==> Judged(rows, c) == (Failed(if c.left(1) < 1.0 then ClientTimeout else NoSdk), rows)
  {
  }
}
