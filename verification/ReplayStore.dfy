/** One-time user-direct tokens: the signed-token check and the nonce file behind it. */
module ReplayStore {
  import opened Records
  import opened Security

  const MAX_SKEW_S := 300
  const REPLAY_GC_SECONDS := 600
  const REPLAY_GC_THRESHOLD_BYTES := 1048576

  // What a format-2 token signs; the signature itself is an uninterpreted relation (HMAC, RFC 2104).
  datatype Claim = Claim(ts: Time, nonce: string, action: Action, id: Id, reason: string)
  type Signer = (Claim, string) -> bool

  // A line of the nonce file: an entry, or one the reader skips (blank, unparsable, malformed ts).
  datatype Line = Skipped | Entry(nonce: string, ts: Time)

  // One call of the validator. `skewNow` is the clock read by the skew check, `gcNow` the later one
  // that sets the cutoff, `size` the byte size of the nonce file at that moment.
  datatype Attempt = Attempt(ts: Time, nonce: string, mac: string, action: Action, id: Id, reason: string,
                             skewNow: Time, gcNow: Time, size: nat)

  predicate Live(line: Line, cutoff: Time) { line.Entry? && line.ts >= cutoff }

  function Survivors(lines: seq<Line>, cutoff: Time): seq<Line> {
    if lines == [] then []
    else Survivors(lines[..|lines| - 1], cutoff)
         + (if Live(lines[|lines| - 1], cutoff) then [lines[|lines| - 1]] else [])
  }

  predicate Seen(lines: seq<Line>, nonce: string, cutoff: Time) {
    exists i :: 0 <= i < |lines| && Live(lines[i], cutoff) && lines[i].nonce == nonce
  }

  function Recorded(lines: seq<Line>, nonce: string, ts: Time, cutoff: Time, size: nat): seq<Line> {
    (if size < REPLAY_GC_THRESHOLD_BYTES then lines else Survivors(lines, cutoff)) + [Entry(nonce, ts)]
  }

  function Abs(x: int): int { if x < 0 then -x else x }

  predicate TokenOk(signed: Signer, a: Attempt) {
    && a.nonce != ""
    && Abs(a.skewNow - a.ts) <= MAX_SKEW_S
    && signed(Claim(a.ts, a.nonce, a.action, a.id, a.reason), a.mac)
  }

  predicate Accepts(signed: Signer, lines: seq<Line>, a: Attempt) {
    TokenOk(signed, a) && !Seen(lines, a.nonce, a.gcNow - REPLAY_GC_SECONDS)
  }

  function AfterAttempt(signed: Signer, lines: seq<Line>, a: Attempt): seq<Line> {
    if Accepts(signed, lines, a)
    then Recorded(lines, a.nonce, a.ts, a.gcNow - REPLAY_GC_SECONDS, a.size)
    else lines
  }

  /** The nonce file on disk. */
  class ReplayFile {
    var lines: seq<Line>

    constructor ()
      ensures lines == []
    {
      lines := [];
    }

    /** Read every line, then append the nonce or rewrite the file without the ancient lines. */
    method CheckAndRecord(nonce: string, ts: Time, now: Time, size: nat) returns (ok: bool)
      modifies this
      ensures ok <==> !Seen(old(lines), nonce, now - REPLAY_GC_SECONDS)
      ensures lines == if ok then Recorded(old(lines), nonce, ts, now - REPLAY_GC_SECONDS, size) else old(lines)
    {
      var cutoff := now - REPLAY_GC_SECONDS;
      var seen := false;
      var kept: seq<Line> := [];
      for i := 0 to |lines|
        invariant kept == Survivors(lines[..i], cutoff)
        invariant seen <==> Seen(lines[..i], nonce, cutoff)
      {
        assert lines[..i + 1][..i] == lines[..i];
        var line := lines[i];
        if Live(line, cutoff) {
          if line.nonce == nonce {
            seen := true;
            assert lines[..i + 1][i] == line;
          }
          kept := kept + [line];
        }
        assert forall j :: 0 <= j < i ==> lines[..i + 1][j] == lines[..i][j];
      }
      assert lines[..|lines|] == lines;
      if seen { return false; }
      if size < REPLAY_GC_THRESHOLD_BYTES {
        lines := lines + [Entry(nonce, ts)];
      } else {
        lines := kept + [Entry(nonce, ts)];
      }
      return true;
    }

    /** The signature is checked before the nonce is burned, so a bad token never touches the file. */
    method Validate(signed: Signer, a: Attempt) returns (ok: bool)
      modifies this
      ensures ok <==> Accepts(signed, old(lines), a)
      ensures lines == AfterAttempt(signed, old(lines), a)
    {
      if a.nonce == "" || Abs(a.skewNow - a.ts) > MAX_SKEW_S { return false; }
      if !signed(Claim(a.ts, a.nonce, a.action, a.id, a.reason), a.mac) { return false; }
      ok := CheckAndRecord(a.nonce, a.ts, a.gcNow, a.size);
    }
  }

  // ---- runs ----

  function FileAfter(signed: Signer, lines: seq<Line>, run: seq<Attempt>): seq<Line> {
    if run == [] then lines
    else AfterAttempt(signed, FileAfter(signed, lines, run[..|run| - 1]), run[|run| - 1])
  }

  predicate AcceptedAt(signed: Signer, lines: seq<Line>, run: seq<Attempt>, i: int) {
    0 <= i < |run| && Accepts(signed, FileAfter(signed, lines, run[..i]), run[i])
  }

  /** The file is read under one lock, so the cutoff clock never goes back from one attempt to the next. */
  predicate ClockAdvances(run: seq<Attempt>) {
    forall i, j :: 0 <= i < j < |run| ==> run[i].gcNow <= run[j].gcNow
  }

  /** Somewhere in the run (n, t) was accepted, or it was in the file at the start. */
  ghost predicate Known(signed: Signer, lines: seq<Line>, run: seq<Attempt>, n: string, t: Time) {
    || Entry(n, t) in lines
    || exists i :: AcceptedAt(signed, lines, run, i) && run[i].nonce == n && run[i].ts == t
  }

  lemma {:induction false} SurvivorsKeepLive(lines: seq<Line>, cutoff: Time, line: Line)
    ensures line in Survivors(lines, cutoff) <==> line in lines && Live(line, cutoff)
  {
    if lines != [] {
      var front, last := lines[..|lines| - 1], lines[|lines| - 1];
      SurvivorsKeepLive(front, cutoff, line);
      assert lines == front + [last];
    }
  }

  lemma RecordedKeepsView(lines: seq<Line>, nonce: string, ts: Time, cutoff: Time, size: nat, n: string, t: Time)
    requires t >= cutoff
    ensures Entry(n, t) in Recorded(lines, nonce, ts, cutoff, size)
            <==> Entry(n, t) in lines || (n == nonce && t == ts)
  {
    SurvivorsKeepLive(lines, cutoff, Entry(n, t));
  }

  lemma AcceptedInPrefix(signed: Signer, lines: seq<Line>, run: seq<Attempt>, k: nat, i: int)
    requires k <= |run|
    ensures i < k ==> (AcceptedAt(signed, lines, run[..k], i) <==> AcceptedAt(signed, lines, run, i))
  {
    if 0 <= i < k {
      assert run[..k][..i] == run[..i];
    }
  }

  lemma KnownGrows(signed: Signer, lines: seq<Line>, run: seq<Attempt>, n: string, t: Time)
    requires run != []
    ensures var k := |run| - 1;
            Known(signed, lines, run, n, t)
            <==> Known(signed, lines, run[..k], n, t) || (AcceptedAt(signed, lines, run, k) && run[k].nonce == n && run[k].ts == t)
  {
    var k := |run| - 1;
    forall i | 0 <= i < k ensures AcceptedAt(signed, lines, run[..k], i) <==> AcceptedAt(signed, lines, run, i) {
      AcceptedInPrefix(signed, lines, run, k, i);
    }
    if Known(signed, lines, run[..k], n, t) && Entry(n, t) !in lines {
      var i :| AcceptedAt(signed, lines, run[..k], i) && run[..k][i].nonce == n && run[..k][i].ts == t;
      assert AcceptedAt(signed, lines, run, i) && run[i].nonce == n && run[i].ts == t;
    }
    if Known(signed, lines, run, n, t) && Entry(n, t) !in lines {
      var i :| AcceptedAt(signed, lines, run, i) && run[i].nonce == n && run[i].ts == t;
      if i < k {
        assert AcceptedAt(signed, lines, run[..k], i) && run[..k][i].nonce == n && run[..k][i].ts == t;
      }
    }
  }

  /** Within 600 s of the last clock reading the file holds exactly the accepted tokens (and what it
      started with), across every append and every garbage-collecting rewrite. */
  lemma {:induction false} FileIsAcceptedSet(signed: Signer, lines: seq<Line>, run: seq<Attempt>, n: string, t: Time)
    requires ClockAdvances(run)
    requires run != [] ==> t >= run[|run| - 1].gcNow - REPLAY_GC_SECONDS
    ensures Entry(n, t) in FileAfter(signed, lines, run) <==> Known(signed, lines, run, n, t)
  {
    hide TokenOk, Seen, Recorded;
    if run != [] {
      var k := |run| - 1;
      var a := run[k];
      var front := run[..k];
      assert front != [] ==> front[|front| - 1].gcNow <= a.gcNow;
      FileIsAcceptedSet(signed, lines, front, n, t);
      KnownGrows(signed, lines, run, n, t);
      RecordedKeepsView(FileAfter(signed, lines, front), a.nonce, a.ts, a.gcNow - REPLAY_GC_SECONDS, a.size, n, t);
    }
  }

  lemma SeenIsMembership(lines: seq<Line>, nonce: string, cutoff: Time)
    ensures Seen(lines, nonce, cutoff) <==> exists t :: t >= cutoff && Entry(nonce, t) in lines
  {
    if Seen(lines, nonce, cutoff) {
      var i :| 0 <= i < |lines| && Live(lines[i], cutoff) && lines[i].nonce == nonce;
      assert lines[i] == Entry(nonce, lines[i].ts);
    }
    if t :| t >= cutoff && Entry(nonce, t) in lines {
      var i :| 0 <= i < |lines| && lines[i] == Entry(nonce, t);
      assert Live(lines[i], cutoff);
    }
  }

  /** The exact acceptance condition, over any run: a well-signed token passes if and only if every
      earlier token that carried its nonce had already left the 600 s window of this check. */
  lemma AcceptedIffNonceExpired(signed: Signer, lines: seq<Line>, run: seq<Attempt>, j: nat)
    requires ClockAdvances(run) && j < |run|
    ensures AcceptedAt(signed, lines, run, j)
            <==> TokenOk(signed, run[j])
                 && forall t :: Known(signed, lines, run[..j], run[j].nonce, t) ==> t < run[j].gcNow - REPLAY_GC_SECONDS
  {
    var a := run[j];
    var cutoff := a.gcNow - REPLAY_GC_SECONDS;
    var before := FileAfter(signed, lines, run[..j]);
    forall t | t >= cutoff
      ensures Entry(a.nonce, t) in before <==> Known(signed, lines, run[..j], a.nonce, t)
    {
      assert j > 0 ==> run[..j][j - 1].gcNow <= a.gcNow;
      FileIsAcceptedSet(signed, lines, run[..j], a.nonce, t);
    }
    SeenIsMembership(before, a.nonce, cutoff);
  }

  /** Two acceptances of one nonce carry timestamps more than 300 s apart, less only the time the later
      request spent between its two clock readings. */
  lemma NonceReuseIsFarApart(signed: Signer, lines: seq<Line>, run: seq<Attempt>, i: nat, j: nat)
    requires ClockAdvances(run) && i < j < |run|
    requires AcceptedAt(signed, lines, run, i) && AcceptedAt(signed, lines, run, j)
    requires run[i].nonce == run[j].nonce
    ensures run[j].ts - run[i].ts > MAX_SKEW_S - (run[j].gcNow - run[j].skewNow)
  {
    AcceptedIffNonceExpired(signed, lines, run, j);
    AcceptedInPrefix(signed, lines, run, j, i);
    assert AcceptedAt(signed, lines, run[..j], i) && run[..j][i] == run[i];
    assert Known(signed, lines, run[..j], run[j].nonce, run[i].ts);
  }

  /** No (ts, nonce) token is accepted twice while every request reaches the nonce file within 300 s of
      its skew check. */
  lemma TokenAcceptedOnce(signed: Signer, lines: seq<Line>, run: seq<Attempt>, i: nat, j: nat)
    requires ClockAdvances(run) && i < j < |run|
    requires AcceptedAt(signed, lines, run, i) && AcceptedAt(signed, lines, run, j)
    requires run[j].gcNow - run[j].skewNow <= MAX_SKEW_S
    ensures run[i].nonce != run[j].nonce || run[i].ts != run[j].ts
  {
    if run[i].nonce == run[j].nonce {
      NonceReuseIsFarApart(signed, lines, run, i, j);
    }
  }

  // ---- what a token must be signed for, and what the file keeps ----

  /** If one claim is all that was ever signed, exactly the attempts that carry this claim pass: for its
      action, its record and its reason, at its time, with a nonce no line of the last 600 s shows. */
  lemma OnlyTheSignedClaimPasses(c: Claim, m: string, lines: seq<Line>, a: Attempt)
    ensures Accepts((x: Claim, y: string) => x == c && y == m, lines, a)
            <==> && a.ts == c.ts && a.nonce == c.nonce && a.action == c.action && a.id == c.id && a.reason == c.reason
                 && a.mac == m && c.nonce != "" && -300 <= a.skewNow - c.ts <= 300
                 && forall t :: Entry(c.nonce, t) in lines ==> t < a.gcNow - 600
  {
    SeenIsMembership(lines, a.nonce, a.gcNow - REPLAY_GC_SECONDS);
  }

  lemma AcceptedIsSigned(signed: Signer, lines: seq<Line>, a: Attempt)
    requires Accepts(signed, lines, a)
    ensures signed(Claim(a.ts, a.nonce, a.action, a.id, a.reason), a.mac)
  {
  }

  /** An accepted token is the file's new last line. From one megabyte on, the lines before it are exactly
      the entries of the last 600 s; below, nothing is lost. A refusal leaves the file as it was. */
  lemma FileStaysFresh(signed: Signer, lines: seq<Line>, a: Attempt, line: Line)
    ensures var after := AfterAttempt(signed, lines, a);
            if !Accepts(signed, lines, a) then after == lines
            else
              && after != [] && after[|after| - 1] == Entry(a.nonce, a.ts)
              && (a.size < 1048576 ==> after[..|after| - 1] == lines)
              && (a.size >= 1048576 ==>
                    (line in after[..|after| - 1] <==> line in lines && line.Entry? && line.ts >= a.gcNow - 600))
  {
    SurvivorsKeepLive(lines, a.gcNow - REPLAY_GC_SECONDS, line);
    var kept := if a.size < REPLAY_GC_THRESHOLD_BYTES then lines else Survivors(lines, a.gcNow - REPLAY_GC_SECONDS);
    assert (kept + [Entry(a.nonce, a.ts)])[..|kept|] == kept;
  }

  /** Without that bound the claim is false: a request that waits 301 s for the nonce lock replays a
      token whose entry the cutoff has just left behind. */
  lemma SlowReplayIsAccepted(mac: string, id: Id)
    ensures
      var signed: Signer := (c, m) => true;
      var first := Attempt(0, "n", mac, ADemote, id, "r", 0, 0, 0);
      var again := Attempt(0, "n", mac, ADemote, id, "r", 300, 601, 25);
      var run := [first, again];
      && ClockAdvances(run)
      && AcceptedAt(signed, [], run, 0)
      && AcceptedAt(signed, [], run, 1)
  {
    var signed: Signer := (c, m) => true;
    var first := Attempt(0, "n", mac, ADemote, id, "r", 0, 0, 0);
    var again := Attempt(0, "n", mac, ADemote, id, "r", 300, 601, 25);
    var run := [first, again];
    assert run[..0] == [];
    assert AcceptedAt(signed, [], run, 0);
    assert run[..1] == [first] && [first][..0] == [];
    assert FileAfter(signed, [], [first]) == AfterAttempt(signed, [], first);
    assert FileAfter(signed, [], run[..1]) == [Entry("n", 0)];
    assert !Seen([Entry("n", 0)], "n", 1);
  }
}
