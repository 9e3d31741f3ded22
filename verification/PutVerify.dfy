/** The post-verify loop of PUT against a store that may drop any key and fail any call. */
module PutVerify {
  import opened Records
  import opened Carryover
  import opened Lists
  import Handlers

  const DELAYS: seq<real> := [0.1, 0.3, 0.9]
  const ATTEMPTS := |DELAYS| + 1

  // What the store does in each round: the first read fails or shows something, the write-back is accepted
  // or not, the second read fails or shows something else.
  datatype Outside = Outside(first: nat -> Option<Payload>, writeOk: nat -> bool, second: nat -> Option<Payload>)

  /** What one answered read lacks of the keys that must be there: presence is checked, never values. */
  function Absent(want: Payload, shown: Payload): Payload { Handlers.Missing(want, Some(shown)) }

  // ---- one round ----

  /** The checks a round completes: none if its first read fails; a second one only if the first missed keys,
      these were written back, and the re-read answered. */
  function RoundChecks(want: Payload, out: Outside, k: nat): seq<Payload> {
    if out.first(k).None? then []
    else
      var missed := Absent(want, out.first(k).value);
      if missed == map[] || !out.writeOk(k) || out.second(k).None? then [missed]
      else [missed, Absent(want, out.second(k).value)]
  }

  /** What a round writes back: exactly what its first check missed. */
  function RoundWrites(want: Payload, out: Outside, k: nat): seq<Payload> {
    if out.first(k).None? then []
    else
      var missed := Absent(want, out.first(k).value);
      if missed != map[] && out.writeOk(k) then [missed] else []
  }

  /** The round ends on a check that missed nothing. */
  predicate Clean(want: Payload, out: Outside, k: nat) {
    RoundChecks(want, out, k) != [] && Last(RoundChecks(want, out, k)) == map[]
  }

  // ---- the rounds of a request ----

  function Checks(want: Payload, out: Outside, n: nat): seq<Payload> {
    if n == 0 then [] else Checks(want, out, n - 1) + RoundChecks(want, out, n - 1)
  }

  function Writes(want: Payload, out: Outside, n: nat): seq<Payload> {
    if n == 0 then [] else Writes(want, out, n - 1) + RoundWrites(want, out, n - 1)
  }

  /** The sleeps before the first `n` attempts. */
  function Slept(n: nat): real
    requires n <= ATTEMPTS
  {
    if n <= 1 then 0.0 else Slept(n - 1) + DELAYS[n - 2]
  }

  lemma SleepsAddUp()
    ensures Slept(0) == Slept(1) == 0.0 && Slept(2) == 0.1 && Slept(3) == 0.4 && Slept(4) == 1.3
  {
    assert Slept(1) == 0.0 && Slept(2) == 0.1 && Slept(3) == 0.4;
  }

  /** What the request believes is missing: nothing until a check has completed. */
  function Believed(checks: seq<Payload>): Payload { if checks == [] then map[] else Last(checks) }

  lemma NoRounds(want: Payload, out: Outside)
    ensures Checks(want, out, 0) == [] && Writes(want, out, 0) == []
  {
  }

  lemma NextRound(want: Payload, out: Outside, k: nat)
    ensures Checks(want, out, k + 1) == Checks(want, out, k) + RoundChecks(want, out, k)
    ensures Writes(want, out, k + 1) == Writes(want, out, k) + RoundWrites(want, out, k)
    ensures RoundChecks(want, out, k) == [] ==> Checks(want, out, k + 1) == Checks(want, out, k)
    ensures RoundWrites(want, out, k) == [] ==> Writes(want, out, k + 1) == Writes(want, out, k)
    ensures RoundChecks(want, out, k) != [] ==>
              Checks(want, out, k + 1) != [] && Last(Checks(want, out, k + 1)) == Last(RoundChecks(want, out, k))
  {
  }

  /** Whatever the store does, rounds are made until one is clean, four at most; the checks and write-backs are
      the rounds' own; and a request with a tier among the expected keys answers 200 exactly when the last
      completed check missed nothing or no check completed. */
  method PostVerify(want: Payload, out: Outside)
    returns (ok: bool, attempts: nat, checks: seq<Payload>, writes: seq<Payload>, slept: real)
    ensures attempts <= ATTEMPTS && slept == Slept(attempts)
    ensures attempts == 0 <==> want == map[]
    ensures forall k :: 0 <= k < attempts - 1 ==> !Clean(want, out, k)
    ensures 0 < attempts < ATTEMPTS ==> Clean(want, out, attempts - 1)
    ensures checks == Checks(want, out, attempts) && writes == Writes(want, out, attempts)
    ensures ok <==> (KTier in want ==> checks == [] || Last(checks) == map[])
    ensures checks != [] ==> (Last(checks) == map[] <==> Clean(want, out, attempts - 1))
  {
    hide Checks, Writes, Absent;
    attempts, checks, writes, slept := 0, [], [], 0.0;
    NoRounds(want, out);
    var missing: Payload := map[];
    if want != map[] {
      while attempts < ATTEMPTS
        invariant attempts <= ATTEMPTS && slept == Slept(attempts)
        invariant checks == Checks(want, out, attempts) && writes == Writes(want, out, attempts)
        invariant missing == Believed(checks) && (checks != [] ==> missing != map[])
        invariant forall k :: 0 <= k < attempts ==> !Clean(want, out, k)
      {
        NextRound(want, out, attempts);
        ghost var k, before := attempts, checks;
        if attempts > 0 { slept := slept + DELAYS[attempts - 1]; }
        attempts := attempts + 1;
        var shown := out.first(attempts - 1);
        if shown.None? { continue; }
        missing := Absent(want, shown.value);
        checks := checks + [missing];
        if missing == map[] { break; }
        if !out.writeOk(attempts - 1) { continue; }
        writes := writes + [missing];
        shown := out.second(attempts - 1);
        if shown.None? { continue; }
        missing := Absent(want, shown.value);
        checks := checks + [missing];
        assert checks == before + RoundChecks(want, out, k);
        if missing == map[] { break; }
      }
    }
    ok := !(missing != map[] && KTier in want);
  }

  // ---- what the answers mean ----

  predicate ShowsAll(want: Payload, shown: Option<Payload>) { shown.Some? && want.Keys <= shown.value.Keys }

  lemma AbsentNothing(want: Payload, shown: Payload)
    ensures Absent(want, shown) == map[] <==> want.Keys <= shown.Keys
  {
    if Absent(want, shown) == map[] {
      forall k | k in want ensures k in shown {
        assert k !in Absent(want, shown);
      }
    } else {
      var k :| k in Absent(want, shown);
    }
  }

  /** A round is clean exactly when a read of it showed every expected key: the first, or the one after its
      write-back was accepted. */
  lemma CleanIffShown(want: Payload, out: Outside, k: nat)
    ensures Clean(want, out, k)
            <==> ShowsAll(want, out.first(k)) || (out.first(k).Some? && out.writeOk(k) && ShowsAll(want, out.second(k)))
  {
    if out.first(k).Some? { AbsentNothing(want, out.first(k).value); }
    if out.second(k).Some? { AbsentNothing(want, out.second(k).value); }
  }

  /** Only expected keys are ever written back, with their own values, and never an empty set of them. */
  lemma {:induction false} WritesOnlyWhatIsMissing(want: Payload, out: Outside, n: nat, w: Payload)
    requires w in Writes(want, out, n)
    ensures w != map[] && w.Keys <= want.Keys && (forall k :: k in w ==> w[k] == want[k])
    ensures w in Checks(want, out, n)
  {
    if w in Writes(want, out, n - 1) {
      WritesOnlyWhatIsMissing(want, out, n - 1, w);
    } else {
      assert RoundChecks(want, out, n - 1)[0] == w;
    }
  }

  /** No check completes exactly when every first read failed. */
  lemma {:induction false} NoCheckIffNoAnswer(want: Payload, out: Outside, n: nat)
    ensures Checks(want, out, n) == [] <==> forall k :: 0 <= k < n ==> out.first(k).None?
  {
    if n > 0 {
      NoCheckIffNoAnswer(want, out, n - 1);
      assert Checks(want, out, n) == [] <==> Checks(want, out, n - 1) == [] && RoundChecks(want, out, n - 1) == [];
    }
  }

  /** Every record the gate saw has a tier among the keys to be found, and so has everything mem0 and the
      judged-text rule do not drop. */
  lemma GatedRecordsHaveTiers(existing: Payload, s: Store, id: Id)
    requires id in s && s[id] == existing
    ensures KTier in Handlers.Expected(existing, Some(EffTier(existing)))
    ensures forall k :: !Dropped(k) && k in existing ==>
              k in Handlers.Expected(existing, Some(EffTier(existing))) && Handlers.Expected(existing, Some(EffTier(existing)))[k] == existing[k]
    ensures forall k :: k in Handlers.Expected(existing, Some(EffTier(existing))) ==> !Dropped(k)
  {
  }

  /** Under mem0's own update contract the first check already finds everything. */
  lemma ContractNeedsNoRestore(ix: TextIndex, existing: Payload, text: string, now: Time)
    ensures Absent(ComputeCarryover(existing), Rebuild(ix, existing, ComputeCarryover(existing), text, now)) == map[]
  {
    var want, after := ComputeCarryover(existing), Rebuild(ix, existing, ComputeCarryover(existing), text, now);
    forall k | k in want ensures k in after {}
    assert Absent(want, after).Keys == {};
  }
}
