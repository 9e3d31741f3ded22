/** The running summary of an unfinished episode: previews joined by a separator that overlaps itself by
    one space, trimmed under a cap that keeps the opening segment and the newest ones. */
module RunningSummary {
  import opened Lists

  const SEP := " | "
  const GAP_CHAR := '\U{2026}'
  const GAP := [GAP_CHAR]
  const CAP := 800
  const OPENING_CHARS := 300
  const PREVIEW_CHARS := 200

  // ---- leftmost split and join ----

  predicate SepAt(s: string, i: int) { 0 <= i && i + 3 <= |s| && s[i] == ' ' && s[i + 1] == '|' && s[i + 2] == ' ' }

  ghost predicate NoSep(s: string) { forall i :: !SepAt(s, i) }

  function FirstSep(s: string, from: nat): (k: int)
    requires from <= |s|
    ensures k == -1 ==> forall i :: from <= i ==> !SepAt(s, i)
    ensures k != -1 ==> from <= k && SepAt(s, k) && forall i :: from <= i < k ==> !SepAt(s, i)
    decreases |s| - from
  {
    if SepAt(s, from) then from else if from == |s| then -1 else FirstSep(s, from + 1)
  }

  function Split(s: string): (parts: seq<string>)
    ensures |parts| >= 1
    decreases |s|
  {
    var k := FirstSep(s, 0);
    if k == -1 then [s] else [s[..k]] + Split(s[k + 3..])
  }

  function Join(parts: seq<string>): string {
    if parts == [] then "" else if |parts| == 1 then parts[0] else parts[0] + SEP + Join(parts[1..])
  }

  /** The tail that, followed by a separator, lets an earlier separator form. */
  predicate EndsBar(s: string) { |s| >= 2 && s[|s| - 2] == ' ' && s[|s| - 1] == '|' }

  ghost predicate AllSegments(parts: seq<string>) {
    && (forall i :: 0 <= i < |parts| ==> NoSep(parts[i]))
    && (forall i :: 0 <= i < |parts| - 1 ==> !EndsBar(parts[i]))
  }

  ghost predicate Segments(parts: seq<string>) { |parts| >= 1 && AllSegments(parts) }

  /** No segment followed by a separator in a leftmost split ends in " |". */
  lemma {:induction false} SplitGivesSegments(s: string)
    ensures Segments(Split(s))
    decreases |s|
  {
    var k := FirstSep(s, 0);
    if k != -1 {
      var head := s[..k];
      SplitGivesSegments(s[k + 3..]);
      forall i ensures !SepAt(head, i) {
        if i < k { assert !SepAt(s, i); }
      }
      if k >= 2 { assert !SepAt(s, k - 2); }
    }
  }

  /** Splitting and rejoining is the identity. */
  lemma {:induction false} JoinOfSplit(s: string)
    ensures Join(Split(s)) == s
    decreases |s|
  {
    var k := FirstSep(s, 0);
    if k != -1 {
      JoinOfSplit(s[k + 3..]);
      assert ([s[..k]] + Split(s[k + 3..]))[1..] == Split(s[k + 3..]);
      assert s == s[..k] + SEP + s[k + 3..];
    }
  }

  lemma FirstSepAfter(head: string, tail: string)
    requires NoSep(head) && !EndsBar(head)
    ensures FirstSep(head + SEP + tail, 0) == |head|
  {
    var s := head + SEP + tail;
    assert SepAt(s, |head|);
    forall i | 0 <= i < |head| ensures !SepAt(s, i) {
      if i + 3 <= |head| { assert !SepAt(head, i); }
    }
  }

  /** Rejoined segments split back into themselves. */
  lemma {:induction false} SplitOfJoin(parts: seq<string>)
    requires Segments(parts)
    ensures Split(Join(parts)) == parts
  {
    var s := Join(parts);
    if |parts| == 1 {
      assert NoSep(parts[0]);
      assert FirstSep(s, 0) == -1;
    } else {
      var head, rest := parts[0], parts[1..];
      assert Segments(rest) by {
        assert forall i :: 0 <= i < |rest| ==> rest[i] == parts[i + 1];
      }
      SplitOfJoin(rest);
      FirstSepAfter(head, Join(rest));
      assert s[..|head|] == head && s[|head| + 3..] == Join(rest);
      assert [head] + rest == parts;
    }
  }

  lemma {:induction false} JoinOfConcat(a: seq<string>, b: seq<string>)
    requires a != [] && b != []
    ensures Join(a + b) == Join(a) + SEP + Join(b)
  {
    assert (a + b)[1..] == a[1..] + b;
    if |a| > 1 { JoinOfConcat(a[1..], b); }
  }

  /** The last segment loses a trailing " |" to a separator that follows it. */
  function Cleared(parts: seq<string>): (head: seq<string>)
    requires |parts| >= 1
    ensures |head| == |parts| && forall i :: 0 <= i < |parts| - 1 ==> head[i] == parts[i]
  {
    var last := Last(parts);
    if EndsBar(last) then parts[..|parts| - 1] + [last[..|last| - 2]] else parts
  }

  function Moved(parts: seq<string>, b: string): string
    requires |parts| >= 1
  {
    if EndsBar(Last(parts)) then "| " + b else b
  }

  /** How the segments of a summary change when a text is appended to it. */
  function Extended(parts: seq<string>, b: string): seq<string>
    requires |parts| >= 1
  {
    Cleared(parts) + Split(Moved(parts, b))
  }

  lemma ShortenedLast(last: string)
    requires NoSep(last) && EndsBar(last)
    ensures var x := last[..|last| - 2]; NoSep(x) && !EndsBar(x) && last == x + " |"
  {
    var x := last[..|last| - 2];
    forall i ensures !SepAt(x, i) {
      assert !SepAt(last, i);
    }
    assert !SepAt(last, |last| - 4);
  }

  lemma JoinWithLast(front: seq<string>, x: string, y: string)
    ensures Join(front + [x + y]) == Join(front + [x]) + y
  {
    if front != [] {
      JoinOfConcat(front, [x + y]);
      JoinOfConcat(front, [x]);
      assert Join(front) + SEP + (x + y) == Join(front) + SEP + x + y;
    } else {
      assert front + [x + y] == [x + y] && front + [x] == [x];
    }
  }

  lemma BarMoves(a: string, b: string)
    ensures (a + " |") + SEP + b == a + SEP + ("| " + b)
  {
    assert " |" + SEP == SEP + "| ";
  }

  lemma ConcatSegments(a: seq<string>, b: seq<string>)
    requires Segments(a) && !EndsBar(Last(a)) && Segments(b)
    ensures Segments(a + b)
  {
  }

  lemma AppendToBar(a: string, b: string, pa: seq<string>)
    requires Segments(pa) && EndsBar(Last(pa)) && Join(pa) == a
    ensures Split(a + SEP + b) == Extended(pa, b)
  {
    var last, front, tail := Last(pa), pa[..|pa| - 1], Split("| " + b);
    var x := last[..|last| - 2];
    ShortenedLast(last);
    SplitGivesSegments("| " + b);
    JoinOfSplit("| " + b);
    JoinWithLast(front, x, " |");
    assert front + [last] == pa;
    JoinOfConcat(front + [x], tail);
    BarMoves(Join(front + [x]), b);
    ConcatSegments(front + [x], tail);
    SplitOfJoin(front + [x] + tail);
  }

  lemma SplitOfAppend(a: string, b: string)
    ensures Split(a + SEP + b) == Extended(Split(a), b)
  {
    var pa := Split(a);
    SplitGivesSegments(a);
    JoinOfSplit(a);
    if EndsBar(Last(pa)) {
      AppendToBar(a, b, pa);
    } else {
      SplitGivesSegments(b);
      JoinOfSplit(b);
      JoinOfConcat(pa, Split(b));
      ConcatSegments(pa, Split(b));
      SplitOfJoin(pa + Split(b));
    }
  }

  // ---- lengths ----

  /** What a segment adds to a summary, with the separator in front of it. */
  const COST: string -> nat := p => |SEP| + |p|

  lemma {:induction false} JoinLength(parts: seq<string>)
    requires parts != []
    ensures |Join(parts)| == Total(COST, parts) - |SEP|
  {
    TotalOfConcat(COST, [parts[0]], parts[1..]);
    assert [parts[0]] + parts[1..] == parts;
    assert Total(COST, [parts[0]]) == COST(parts[0]);
    if |parts| > 1 { JoinLength(parts[1..]); }
  }

  // ---- appending a preview ----

  function Cut(s: string, n: nat): string { if |s| <= n then s else s[..n] }

  const NOT_GAP: string -> bool := p => p != GAP

  /** The opening segment and the gap marker after it; the marker's room is reserved up front. */
  function Reserved(first: string): nat { |first| + |SEP| + |GAP| }

  /** The trimmed text: the opening segment, one gap marker, the kept segments. */
  function Glued(first: string, kept: seq<string>): string { Join([first, GAP] + kept) }

  function TrimmedRest(first: string, rest: seq<string>, cap: nat): string {
    if rest == [] then Cut(first, cap) else Cut(Glued(first, Newest(COST, rest, cap - Reserved(first))), cap)
  }

  function Trimmed(segments: seq<string>, cap: nat): string
    requires |segments| >= 1
  {
    TrimmedRest(segments[0], Filter(NOT_GAP, segments[1..]), cap)
  }

  function Joined(existing: string, snippet: string): string {
    if existing == "" then snippet else existing + SEP + snippet
  }

  function Appended(existing: string, snippet: string, cap: nat): string {
    if snippet == "" then existing
    else if |Joined(existing, snippet)| <= cap then Joined(existing, snippet)
    else Trimmed(Split(Joined(existing, snippet)), cap)
  }

  method DropGapMarkers(segments: seq<string>) returns (rest: seq<string>)
    requires |segments| >= 1
    ensures rest == Filter(NOT_GAP, segments[1..])
  {
    rest := [];
    for i := 1 to |segments|
      invariant rest == Filter(NOT_GAP, segments[1..i])
    {
      FilterPush(NOT_GAP, segments[1..i], segments[i]);
      assert segments[1..i] + [segments[i]] == segments[1..i + 1];
      if segments[i] != GAP { rest := rest + [segments[i]]; }
    }
    assert segments[1..|segments|] == segments[1..];
  }

  /** Newest first, until one does not fit. */
  method KeepNewest(rest: seq<string>, reserved: nat, cap: nat) returns (kept: seq<string>)
    ensures kept == Newest(COST, rest, cap - reserved)
  {
    hide Newest;
    var used := reserved;
    kept := [];
    var j := |rest|;
    assert rest[..j] == rest && Newest(COST, rest, cap - used) + kept == Newest(COST, rest, cap - used);
    while j > 0
      invariant 0 <= j <= |rest|
      invariant Newest(COST, rest, cap - reserved) == Newest(COST, rest[..j], cap - used) + kept
    {
      var segment := rest[j - 1];
      var cost := COST(segment);
      assert rest[..j] == rest[..j - 1] + [segment];
      NewestTakes(COST, rest[..j - 1], segment, cap - used, kept);
      if used + cost > cap { break; }
      kept := [segment] + kept;
      used := used + cost;
      j := j - 1;
    }
    if j == 0 { NewestOfNone(COST, cap - used, kept); }
  }

  method Trim(segments: seq<string>, cap: nat) returns (summary: string)
    requires |segments| >= 1
    ensures summary == Trimmed(segments, cap)
  {
    var first := segments[0];
    var rest := DropGapMarkers(segments);
    if rest == [] {
      summary := Cut(first, cap);
    } else {
      var kept := KeepNewest(rest, Reserved(first), cap);
      summary := Cut(Glued(first, kept), cap);
    }
  }

  method AppendRunningSummary(existing: string, snippet: string, cap: nat) returns (summary: string)
    ensures summary == Appended(existing, snippet, cap)
    ensures snippet != "" ==> |summary| <= cap
  {
    if snippet == "" { return existing; }
    var joined := Joined(existing, snippet);
    if |joined| <= cap {
      summary := joined;
    } else {
      summary := Trim(Split(joined), cap);
    }
  }

  /** A filtered list of segments whose last part may close the text is still a list of segments. */
  lemma {:induction false} FilterKeepsSegments(keep: string -> bool, parts: seq<string>)
    requires AllSegments(parts)
    ensures AllSegments(Filter(keep, parts))
    ensures parts != [] && !EndsBar(Last(parts)) && Filter(keep, parts) != [] ==> !EndsBar(Last(Filter(keep, parts)))
  {
    if parts != [] {
      var front := parts[..|parts| - 1];
      FilterKeepsSegments(keep, front);
      assert front != [] ==> !EndsBar(Last(front));
    }
  }

  lemma KeptAreSegments(first: string, rest: seq<string>, kept: seq<string>)
    requires NoSep(first) && !EndsBar(first)
    requires AllSegments(rest)
    requires |kept| <= |rest| && kept == rest[|rest| - |kept|..]
    ensures Segments([first, GAP] + kept)
  {
    var out := [first, GAP] + kept;
    assert NoSep(GAP) && !EndsBar(GAP);
    forall i | 2 <= i < |out| ensures out[i] == rest[|rest| - |kept| + i - 2] {}
  }

  lemma KeptFit(first: string, kept: seq<string>)
    ensures |Join([first, GAP] + kept)| == Reserved(first) + Total(COST, kept)
  {
    assert Join([first, GAP]) == first + SEP + GAP;
    JoinLength([first, GAP]);
    TotalOfConcat(COST, [first, GAP], kept);
    JoinLength([first, GAP] + kept);
  }

  lemma TailSegments(segments: seq<string>)
    requires Segments(segments) && |segments| >= 2
    ensures AllSegments(segments[1..]) && NoSep(segments[0]) && !EndsBar(segments[0])
  {
    forall i | 0 <= i < |segments| - 1 ensures segments[1..][i] == segments[i + 1] {}
  }

  lemma TrimSegments(first: string, later: seq<string>, room: nat)
    requires AllSegments(later) && NoSep(first) && !EndsBar(first)
    ensures Segments([first, GAP] + Newest(COST, Filter(NOT_GAP, later), room))
    ensures |Join([first, GAP] + Newest(COST, Filter(NOT_GAP, later), room))| <= Reserved(first) + room
  {
    var rest := Filter(NOT_GAP, later);
    FilterKeepsSegments(NOT_GAP, later);
    NewestIsSuffix(COST, rest, room);
    NewestFits(COST, rest, room);
    KeptFit(first, Newest(COST, rest, room));
    KeptAreSegments(first, rest, Newest(COST, rest, room));
  }

  /** What a trim keeps: the opening segment, one gap marker and the newest segments that fit. */
  function TrimParts(segments: seq<string>, cap: nat): seq<string>
    requires |segments| >= 1
  {
    [segments[0], GAP] + Newest(COST, Filter(NOT_GAP, segments[1..]), cap - Reserved(segments[0]))
  }

  /** Splitting the trimmed text gives exactly these back. */
  lemma TrimmedSplits(segments: seq<string>, cap: nat)
    requires Segments(segments) && |segments| >= 2 && Reserved(segments[0]) <= cap
    requires Filter(NOT_GAP, segments[1..]) != []
    ensures Trimmed(segments, cap)
            == Glued(segments[0], Newest(COST, Filter(NOT_GAP, segments[1..]), cap - Reserved(segments[0])))
    ensures Split(Trimmed(segments, cap)) == TrimParts(segments, cap)
  {
    TailSegments(segments);
    TrimSegments(segments[0], segments[1..], cap - Reserved(segments[0]));
    SplitOfJoin(TrimParts(segments, cap));
  }

  /** The kept segments are the most that fit: a trim drops a segment only if the text with it would be longer
      than the cap. */
  lemma TrimKeepsAllThatFits(segments: seq<string>, cap: nat)
    requires Segments(segments) && |segments| >= 2 && Reserved(segments[0]) <= cap
    requires Filter(NOT_GAP, segments[1..]) != []
    ensures var later, parts := Filter(NOT_GAP, segments[1..]), Split(Trimmed(segments, cap));
            var n := |parts| - 2;
            && 0 <= n <= |later| && parts == [segments[0], GAP] + later[|later| - n..]
            && |Join(parts)| <= cap
            && (n < |later| ==> |Join([segments[0], GAP] + later[|later| - n - 1..])| > cap)
  {
    var first, later, room := segments[0], Filter(NOT_GAP, segments[1..]), cap - Reserved(segments[0]);
    var kept := Newest(COST, later, room);
    TrimmedSplits(segments, cap);
    NewestIsSuffix(COST, later, room);
    NewestFits(COST, later, room);
    KeptFit(first, kept);
    if |kept| < |later| {
      NewestIsLongest(COST, later, room);
      KeptFit(first, later[|later| - |kept| - 1..]);
    }
  }

  // ---- every run of checkpoints ----

  /** What one prompt contributes; a prompt nobody typed contributes nothing. */
  function Preview(human: string -> bool, prompt: string, n: nat): string {
    if human(prompt) then Cut(prompt, n) else ""
  }

  /** It is what the prompt begins with, as many characters as there is room for. */
  lemma PreviewIsPrefix(human: string -> bool, prompt: string, n: nat)
    ensures human(prompt) ==> Preview(human, prompt, n) <= prompt
    ensures human(prompt) ==> |Preview(human, prompt, n)| == if |prompt| <= n then |prompt| else n
    ensures !human(prompt) ==> Preview(human, prompt, n) == ""
  {
  }

  /** The summary of an episode opened by the first prompt and checkpointed by each later one. */
  function SummaryAfter(human: string -> bool, prompts: seq<string>): string
    requires |prompts| >= 1
  {
    if |prompts| == 1 then Preview(human, prompts[0], OPENING_CHARS)
    else Appended(SummaryAfter(human, prompts[..|prompts| - 1]), Preview(human, Last(prompts), PREVIEW_CHARS), CAP)
  }

  predicate Short(parts: seq<string>) { forall p :: p in parts ==> |p| <= OPENING_CHARS }

  lemma {:induction false} PartsOfSplit(s: string)
    ensures forall p :: p in Split(s) ==> |p| <= |s| && forall c :: c in p ==> c in s
    decreases |s|
  {
    var k := FirstSep(s, 0);
    if k != -1 { PartsOfSplit(s[k + 3..]); }
  }

  /** A trailing bar only ever moves into a segment that starts with it. */
  lemma BarSegment(b: string)
    ensures Split("| " + b)[0] != "" && Split("| " + b)[0][0] == '|'
  {
    var s := "| " + b;
    assert !SepAt(s, 0);
  }

  lemma ExtendedParts(parts: seq<string>, b: string)
    requires parts != [] && Short(parts) && |b| <= PREVIEW_CHARS
    ensures Short(Extended(parts, b))
  {
    PartsOfSplit(b);
    PartsOfSplit("| " + b);
  }

  /** What an append that trims makes of the segments. */
  lemma AppendTrims(s: string, b: string)
    requires b != "" && |b| <= PREVIEW_CHARS && Short(Split(s)) && |Joined(s, b)| > CAP
    ensures s != "" && Short(Extended(Split(s), b)) && Segments(Extended(Split(s), b))
    ensures |Extended(Split(s), b)| >= 2
    ensures Appended(s, b, CAP) == Trimmed(Extended(Split(s), b), CAP)
  {
    SplitOfAppend(s, b);
    SplitGivesSegments(s + SEP + b);
    ExtendedParts(Split(s), b);
  }

  lemma AppendKeepsShort(s: string, b: string)
    requires |s| <= CAP && Short(Split(s)) && |b| <= PREVIEW_CHARS
    ensures |Appended(s, b, CAP)| <= CAP && Short(Split(Appended(s, b, CAP)))
  {
    if b == "" {
    } else if |Joined(s, b)| <= CAP {
      if s == "" {
        PartsOfSplit(b);
      } else {
        SplitOfAppend(s, b);
        ExtendedParts(Split(s), b);
      }
    } else {
      AppendTrims(s, b);
      TrimKeepsShort(Extended(Split(s), b));
    }
  }

  lemma TrimmedPartIsOld(segments: seq<string>, p: string)
    requires |segments| >= 1
    requires p in Newest(COST, Filter(NOT_GAP, segments[1..]), CAP - Reserved(segments[0]))
    ensures p in segments && p != GAP
  {
    NewestIn(COST, Filter(NOT_GAP, segments[1..]), CAP - Reserved(segments[0]), p);
    FilterIn(NOT_GAP, segments[1..], p);
  }

  lemma TrimKeepsShort(segments: seq<string>)
    requires Segments(segments) && |segments| >= 2 && Short(segments)
    ensures Short(Split(Trimmed(segments, CAP)))
  {
    var rest := Filter(NOT_GAP, segments[1..]);
    if rest == [] {
      PartsOfSplit(segments[0]);
    } else {
      TrimmedSplits(segments, CAP);
      forall p | p in TrimParts(segments, CAP) ensures |p| <= OPENING_CHARS {
        if p != GAP && p != segments[0] { TrimmedPartIsOld(segments, p); }
        assert segments[0] in segments;
      }
    }
  }

  /** Over any number of checkpoints the summary holds at most 800 characters, in segments of at most 300. */
  lemma {:induction false} SummaryStaysShort(human: string -> bool, prompts: seq<string>)
    requires |prompts| >= 1
    ensures |SummaryAfter(human, prompts)| <= CAP
    ensures Short(Split(SummaryAfter(human, prompts)))
  {
    if |prompts| == 1 {
      PartsOfSplit(SummaryAfter(human, prompts));
    } else {
      var front := prompts[..|prompts| - 1];
      SummaryStaysShort(human, front);
      AppendKeepsShort(SummaryAfter(human, front), Preview(human, Last(prompts), PREVIEW_CHARS));
    }
  }

  // ---- the newest preview ----

  predicate EndsWith(s: string, t: string) { |t| <= |s| && s[|s| - |t|..] == t }

  lemma TrimPartsTail(later: seq<string>, tail: seq<string>, room: int)
    requires GAP !in tail && Total(COST, tail) <= room
    ensures Newest(COST, Filter(NOT_GAP, later + tail), room) == Newest(COST, Filter(NOT_GAP, later), room - Total(COST, tail)) + tail
    ensures tail != [] ==> Filter(NOT_GAP, later + tail) != []
  {
    FilterConcat(NOT_GAP, later, tail);
    FilterAll(NOT_GAP, tail);
    NewestKeepsTail(COST, Filter(NOT_GAP, later), tail, room);
  }

  lemma GluedEndsWith(first: string, kept: seq<string>, tail: seq<string>)
    requires tail != []
    ensures EndsWith(Glued(first, kept + tail), Join(tail))
  {
    assert [first, GAP] + (kept + tail) == ([first, GAP] + kept) + tail;
    JoinOfConcat([first, GAP] + kept, tail);
  }

  lemma TrimKeepsTail(segments: seq<string>, head: seq<string>, tail: seq<string>)
    requires head != [] && tail != [] && segments == head + tail && Segments(segments) && |head[0]| <= OPENING_CHARS
    requires GAP !in tail && Total(COST, tail) <= CAP - OPENING_CHARS - |SEP| - |GAP|
    ensures EndsWith(Trimmed(segments, CAP), Join(tail))
  {
    var room := CAP - Reserved(head[0]);
    assert segments[0] == head[0] && segments[1..] == head[1..] + tail;
    TrimPartsTail(head[1..], tail, room);
    TrimmedSplits(segments, CAP);
    GluedEndsWith(head[0], Newest(COST, Filter(NOT_GAP, head[1..]), room - Total(COST, tail)), tail);
  }

  lemma AppendEndsWith(s: string, b: string)
    requires Short(Split(s)) && b != "" && |b| <= PREVIEW_CHARS && GAP_CHAR !in b && |Joined(s, b)| > CAP
    ensures EndsWith(Appended(s, b, CAP), b)
  {
    AppendTrims(s, b);
    MovedTail(Split(s), b);
    var parts := Extended(Split(s), b);
    var head, tail := Cleared(Split(s)), Split(Moved(Split(s), b));
    assert parts[0] == head[0] && parts[0] in parts;
    TrimKeepsTail(parts, head, tail);
    EndsWithTail(Trimmed(parts, CAP), Join(tail), b);
  }

  lemma MovedTail(parts: seq<string>, b: string)
    requires parts != [] && |b| <= PREVIEW_CHARS && GAP_CHAR !in b
    ensures var tail := Split(Moved(parts, b));
            GAP !in tail && Total(COST, tail) <= PREVIEW_CHARS + 5 && EndsWith(Join(tail), b)
  {
    var moved := Moved(parts, b);
    GapFreeSplit(moved);
    JoinOfSplit(moved);
    JoinLength(Split(moved));
  }

  lemma EndsWithTail(s: string, t: string, u: string)
    requires EndsWith(s, t) && EndsWith(t, u)
    ensures EndsWith(s, u)
  {
    assert s[|s| - |u|..] == s[|s| - |t|..][|t| - |u|..];
  }

  /** Right after it is appended, the first 200 characters of the newest typed prompt are what the summary ends
      with. */
  lemma NewestPreviewIsSuffix(human: string -> bool, prompts: seq<string>)
    requires |prompts| >= 2 && human(Last(prompts))
    requires GAP_CHAR !in Last(prompts)[..if |Last(prompts)| <= 200 then |Last(prompts)| else 200]
    ensures EndsWith(SummaryAfter(human, prompts), Last(prompts)[..if |Last(prompts)| <= 200 then |Last(prompts)| else 200])
  {
    var s, b := SummaryAfter(human, prompts[..|prompts| - 1]), Preview(human, Last(prompts), PREVIEW_CHARS);
    PreviewIsPrefix(human, Last(prompts), PREVIEW_CHARS);
    assert b == Last(prompts)[..if |Last(prompts)| <= 200 then |Last(prompts)| else 200];
    SummaryStaysShort(human, prompts[..|prompts| - 1]);
    if b != "" && |Joined(s, b)| > CAP { AppendEndsWith(s, b); }
  }

  // ---- nothing is lost while there is room ----

  /** What the typed prompts contribute: 300 characters of the one that opens the episode, 200 of each later one. */
  function Contributions(human: string -> bool, prompts: seq<string>): seq<string> {
    if prompts == [] then []
    else
      var p, room := Last(prompts), if |prompts| == 1 then 300 else 200;
      Contributions(human, prompts[..|prompts| - 1])
      + (if !human(p) || p == "" then [] else if |p| <= room then [p] else [p[..room]])
  }

  lemma {:induction false} ContributionsGrow(human: string -> bool, prompts: seq<string>)
    requires |prompts| >= 1
    ensures var parts := Contributions(human, prompts[..|prompts| - 1]);
            var b := Preview(human, Last(prompts), if |prompts| == 1 then OPENING_CHARS else PREVIEW_CHARS);
            && Contributions(human, prompts) == (if b == "" then parts else parts + [b])
            && |Join(parts)| <= |Join(Contributions(human, prompts))|
  {
    var parts := Contributions(human, prompts[..|prompts| - 1]);
    var b := Preview(human, Last(prompts), if |prompts| == 1 then OPENING_CHARS else PREVIEW_CHARS);
    if b != "" && parts != [] { JoinOfConcat(parts, [b]); }
  }

  lemma {:induction false} ContributionsHaveText(human: string -> bool, prompts: seq<string>)
    ensures forall p :: p in Contributions(human, prompts) ==> p != ""
    ensures Join(Contributions(human, prompts)) == "" <==> Contributions(human, prompts) == []
  {
    if prompts != [] { ContributionsHaveText(human, prompts[..|prompts| - 1]); }
  }

  /** While all that was typed fits under the cap, the summary is all of it, in order, separator by separator. */
  lemma {:induction false} NothingLostUnderCap(human: string -> bool, prompts: seq<string>)
    requires |prompts| >= 1 && |Join(Contributions(human, prompts))| <= 800
    ensures SummaryAfter(human, prompts) == Join(Contributions(human, prompts))
  {
    hide Split, Trimmed;
    ContributionsGrow(human, prompts);
    if |prompts| > 1 {
      var front := prompts[..|prompts| - 1];
      NothingLostUnderCap(human, front);
      ContributionsHaveText(human, front);
      var parts, b := Contributions(human, front), Preview(human, Last(prompts), PREVIEW_CHARS);
      if b != "" && parts != [] { JoinOfConcat(parts, [b]); }
    }
  }

  // ---- the gap marker ----

  /** At most one segment is the gap marker, it is never the first, and no other segment contains one. */
  predicate GapOk(parts: seq<string>) {
    && |parts| >= 1 && GAP_CHAR !in parts[0]
    && (forall i :: 0 <= i < |parts| && GAP_CHAR in parts[i] ==> parts[i] == GAP)
    && (forall i, j :: 0 <= i < |parts| && 0 <= j < |parts| && parts[i] == GAP && parts[j] == GAP ==> i == j)
  }

  lemma GapFreeSplit(s: string)
    requires GAP_CHAR !in s
    ensures GAP_CHAR !in Split(s)[0] && GAP !in Split(s) && forall p :: p in Split(s) ==> GAP_CHAR !in p
  {
    PartsOfSplit(s);
    assert Split(s)[0] in Split(s);
    assert GAP[0] == GAP_CHAR;
  }

  lemma ExtendedGap(parts: seq<string>, b: string)
    requires GapOk(parts) && GAP_CHAR !in b
    ensures GapOk(Extended(parts, b))
  {
    GapFreeSplit(b);
    GapFreeSplit("| " + b);
    var head, last := Cleared(parts), Last(parts);
    assert GAP[0] == GAP_CHAR;
    if EndsBar(last) {
      assert last != GAP;
      assert GAP_CHAR !in last;
    }
    assert GapOk(head);
  }

  lemma KeptGap(first: string, rest: seq<string>, room: int)
    requires GAP_CHAR !in first && forall p :: p in rest ==> GAP_CHAR !in p
    ensures GapOk([first, GAP] + Newest(COST, rest, room))
  {
    var out := [first, GAP] + Newest(COST, rest, room);
    NewestIsSuffix(COST, rest, room);
    assert GAP[0] == GAP_CHAR;
    forall i | 2 <= i < |out| ensures GAP_CHAR !in out[i] {
      assert out[i] in rest;
    }
  }

  lemma TrimKeepsGap(segments: seq<string>)
    requires Segments(segments) && |segments| >= 2 && Short(segments) && GapOk(segments)
    ensures GapOk(Split(Trimmed(segments, CAP)))
  {
    var first, rest := segments[0], Filter(NOT_GAP, segments[1..]);
    assert GAP[0] == GAP_CHAR;
    if rest == [] {
      GapFreeSplit(first);
    } else {
      TrimmedSplits(segments, CAP);
      forall p | p in rest ensures GAP_CHAR !in p { FilterIn(NOT_GAP, segments[1..], p); }
      KeptGap(first, rest, CAP - Reserved(first));
    }
  }

  /** Previews that do not contain the gap character never leave two gap markers in the summary. */
  lemma {:induction false} OneGapMarker(human: string -> bool, prompts: seq<string>)
    requires |prompts| >= 1
    requires forall i :: 0 <= i < |prompts| ==> GAP_CHAR !in Preview(human, prompts[i], OPENING_CHARS)
    ensures GapOk(Split(SummaryAfter(human, prompts)))
  {
    if |prompts| == 1 {
      GapFreeSplit(SummaryAfter(human, prompts));
    } else {
      var front := prompts[..|prompts| - 1];
      var s, b := SummaryAfter(human, front), Preview(human, Last(prompts), PREVIEW_CHARS);
      OneGapMarker(human, front);
      SummaryStaysShort(human, front);
      assert b == Cut(Preview(human, prompts[|prompts| - 1], OPENING_CHARS), PREVIEW_CHARS);
      GapFreeSplit(b);
      if b != "" && s != "" {
        SplitOfAppend(s, b);
        ExtendedGap(Split(s), b);
        if |Joined(s, b)| > CAP {
          AppendTrims(s, b);
          TrimKeepsGap(Extended(Split(s), b));
        }
      }
    }
  }

  // ---- the opening segment ----

  predicate HasText(parts: seq<string>) { exists i :: 1 <= i < |parts| && parts[i] != GAP }

  /** The opening segment can be kept: it is not empty, or real text follows it. */
  predicate Anchored(parts: seq<string>) {
    |parts| >= 1 && !EndsBar(parts[0]) && (parts[0] != "" || HasText(parts))
  }

  lemma ExtendedAnchored(parts: seq<string>, b: string)
    requires Anchored(parts)
    ensures Anchored(Extended(parts, b)) && Extended(parts, b)[0] == parts[0]
  {
    var out, last := Extended(parts, b), Last(parts);
    if HasText(parts) {
      var i :| 1 <= i < |parts| && parts[i] != GAP;
      if EndsBar(last) {
        BarSegment(b);
        assert out[|parts|] == Split("| " + b)[0] && out[|parts|] != GAP;
      } else {
        assert out[i] == parts[i];
      }
    }
  }

  lemma TrimKeepsAnchored(segments: seq<string>)
    requires Segments(segments) && |segments| >= 2 && Short(segments) && Anchored(segments)
    ensures var out := Split(Trimmed(segments, CAP)); Anchored(out) && out[0] == segments[0]
  {
    var first, rest := segments[0], Filter(NOT_GAP, segments[1..]);
    if rest == [] {
      if HasText(segments) {
        var i :| 1 <= i < |segments| && segments[i] != GAP;
        assert segments[1..][i - 1] == segments[i];
        FilterIn(NOT_GAP, segments[1..], segments[i]);
      }
      assert first != "";
      assert FirstSep(first, 0) == -1;
    } else {
      TrimmedSplits(segments, CAP);
      var kept := Newest(COST, rest, CAP - Reserved(first));
      var out := Split(Trimmed(segments, CAP));
      FilterIn(NOT_GAP, segments[1..], Last(rest));
      assert Last(rest) in segments[1..] && Last(rest) in segments;
      assert |Last(rest)| <= OPENING_CHARS && |first| <= OPENING_CHARS;
      assert kept != [] && Last(kept) == Last(rest);
      assert out[|out| - 1] == Last(rest) && |out| >= 3;
    }
  }

  lemma AppendKeepsFirst(s: string, b: string)
    requires |s| <= CAP && Short(Split(s)) && |b| <= PREVIEW_CHARS && Anchored(Split(s))
    ensures var out := Split(Appended(s, b, CAP)); Anchored(out) && out[0] == Split(s)[0]
  {
    if b != "" {
      assert s == "" ==> !Anchored(Split(s));
      SplitOfAppend(s, b);
      ExtendedAnchored(Split(s), b);
      if |Joined(s, b)| > CAP {
        AppendTrims(s, b);
        TrimKeepsAnchored(Extended(Split(s), b));
      }
    }
  }

  /** Once the summary has two segments and its opening one can be kept, no later checkpoint changes it. */
  lemma {:induction false} OpeningSegmentStays(human: string -> bool, prompts: seq<string>, more: seq<string>)
    requires |prompts| >= 1 && Anchored(Split(SummaryAfter(human, prompts)))
    ensures var out := Split(SummaryAfter(human, prompts + more));
            Anchored(out) && out[0] == Split(SummaryAfter(human, prompts))[0]
  {
    hide Split, Appended, Anchored;
    if more == [] {
      assert prompts + more == prompts;
    } else {
      var front := more[..|more| - 1];
      assert (prompts + more)[..|prompts + more| - 1] == prompts + front;
      OpeningSegmentStays(human, prompts, front);
      SummaryStaysShort(human, prompts + front);
      AppendKeepsFirst(SummaryAfter(human, prompts + front), Preview(human, Last(more), PREVIEW_CHARS));
    }
  }

  /** The opening segment while nothing was appended, and its shape once something was: the separator takes a
      trailing bar away. */
  predicate OpensWith(s: string, opening: string) {
    if EndsBar(opening) then s == opening || (Anchored(Split(s)) && Split(s)[0] == opening[..|opening| - 2])
    else Anchored(Split(s)) && Split(s)[0] == opening
  }

  lemma AppendKeepsOpening(s: string, b: string, opening: string)
    requires opening != "" && opening != " |" && NoSep(opening) && |opening| <= OPENING_CHARS
    requires |s| <= CAP && Short(Split(s)) && |b| <= PREVIEW_CHARS && OpensWith(s, opening)
    ensures OpensWith(Appended(s, b, CAP), opening)
  {
    if Anchored(Split(s)) {
      AppendKeepsFirst(s, b);
    } else if b != "" {
      SplitOfAppend(s, b);
      assert FirstSep(opening, 0) == -1;
      assert Split(s) == [opening];
      ShortenedLast(opening);
      assert Split(s + SEP + b)[0] == opening[..|opening| - 2];
    }
  }

  lemma {:induction false} OpeningKept(human: string -> bool, first: string, more: seq<string>, opening: string)
    requires human(first) && opening == Split(first[..if |first| <= 300 then |first| else 300])[0]
    requires opening != "" && opening != " |"
    ensures OpensWith(SummaryAfter(human, [first] + more), opening)
  {
    hide Split, Appended, Anchored;
    var preview := Preview(human, first, OPENING_CHARS);
    assert preview == first[..if |first| <= 300 then |first| else 300];
    FirstSegment(preview);
    if more == [] {
      assert [first] + more == [first];
      StartsAnchored(preview);
    } else {
      var front := more[..|more| - 1];
      assert ([first] + more)[..|[first] + more| - 1] == [first] + front;
      OpeningKept(human, first, front, opening);
      SummaryStaysShort(human, [first] + front);
      AppendKeepsOpening(SummaryAfter(human, [first] + front), Preview(human, Last(more), PREVIEW_CHARS), opening);
    }
  }

  lemma FirstSegment(s: string)
    ensures var opening := Split(s)[0]; NoSep(opening) && opening <= s
  {
    SplitGivesSegments(s);
    JoinOfSplit(s);
    assert Split(s)[0] in Split(s);
  }

  lemma StartsAnchored(s: string)
    requires Split(s)[0] != ""
    ensures OpensWith(s, Split(s)[0])
  {
    SplitGivesSegments(s);
    JoinOfSplit(s);
  }

  /** However many checkpoints follow, the summary of an episode begins with what its first prompt begins with:
      the text up to the first separator, or up to the 300th character (a trailing bar next to a separator
      aside). */
  lemma OpeningBeginsFirstPrompt(human: string -> bool, first: string, more: seq<string>)
    requires human(first)
    requires var opening := Split(first[..if |first| <= 300 then |first| else 300])[0]; opening != "" && opening != " |"
    ensures var opening := Split(first[..if |first| <= 300 then |first| else 300])[0];
            var kept := Split(SummaryAfter(human, [first] + more))[0];
            kept != "" && kept <= opening <= first && (kept == opening || kept + " |" == opening)
  {
    var cut := first[..if |first| <= 300 then |first| else 300];
    var opening := Split(cut)[0];
    FirstSegment(cut);
    OpeningKept(human, first, more, opening);
    assert FirstSep(opening, 0) == -1;
    if EndsBar(opening) { ShortenedLast(opening); }
  }

  /** One more marker preview: either it fits, or the trim leaves nothing at all. */
  lemma MarkerAppended(s: string)
    requires |s| <= CAP && Short(Split(s)) && |Split(s)| >= 2 && !Anchored(Split(s))
    ensures Split(s)[0] == ""
    ensures |s| + |SEP| + |GAP| <= CAP
            ==> Appended(s, GAP, CAP) == s + SEP + GAP && Split(s + SEP + GAP) == Split(s) + [GAP]
    ensures |s| + |SEP| + |GAP| > CAP ==> Appended(s, GAP, CAP) == ""
  {
    SplitGivesSegments(s);
    SplitOfAppend(s, GAP);
    GapSplits();
    assert Split(s) == Cleared(Split(s));
    if |s| + |SEP| + |GAP| > CAP {
      AppendTrims(s, GAP);
      FilterNone(NOT_GAP, Extended(Split(s), GAP)[1..]);
    }
  }

  /** An opening segment that is empty and followed by nothing but gap markers is lost: marker previews
      fill the cap, the trim leaves the empty text, and the next prompt becomes the opening one. */
  lemma {:induction false} OpeningSegmentLost(human: string -> bool, prompts: seq<string>) returns (more: seq<string>)
    requires |prompts| >= 1 && human(GAP) && human("x")
    requires |Split(SummaryAfter(human, prompts))| >= 2 && !Anchored(Split(SummaryAfter(human, prompts)))
    ensures Split(SummaryAfter(human, prompts + more))[0] != Split(SummaryAfter(human, prompts))[0]
    decreases CAP + 1 - |SummaryAfter(human, prompts)|
  {
    hide Split, Appended;
    var s := SummaryAfter(human, prompts);
    SummaryStaysShort(human, prompts);
    MarkerAppended(s);
    assert (prompts + [GAP])[..|prompts|] == prompts;
    if |s| + |SEP| + |GAP| <= CAP {
      var rest := OpeningSegmentLost(human, prompts + [GAP]);
      assert (prompts + [GAP]) + rest == prompts + ([GAP] + rest);
      more := [GAP] + rest;
    } else {
      more := [GAP, "x"];
      assert (prompts + more)[..|prompts| + 1] == prompts + [GAP];
      NewOpening();
    }
  }

  lemma NewOpening()
    ensures Split(Appended("", "x", CAP))[0] == "x"
  {
    assert FirstSep("x", 0) == -1;
  }

  lemma GapSplits()
    ensures Split(GAP) == [GAP] && !EndsBar(GAP)
  {
    assert FirstSep(GAP, 0) == -1;
  }

  /** It does happen: a first prompt that is a separator and a gap marker opens such a summary. */
  lemma OpeningCanBeLost(human: string -> bool) returns (more: seq<string>)
    requires human(SEP + GAP) && human(GAP) && human("x")
    ensures var start := SummaryAfter(human, [SEP + GAP]);
            && Split(start) == ["", GAP]
            && Split(SummaryAfter(human, [SEP + GAP] + more))[0] != ""
  {
    var start := SummaryAfter(human, [SEP + GAP]);
    assert start == SEP + GAP;
    assert SepAt(start, 0) && start[..0] == "" && start[3..] == GAP;
    GapSplits();
    more := OpeningSegmentLost(human, [SEP + GAP]);
  }

  /** Exactly when the opening segment of a summary with two segments or more never changes again. */
  lemma OpeningSegmentStaysIff(human: string -> bool, prompts: seq<string>)
    requires |prompts| >= 1 && human(GAP) && human("x")
    requires |Split(SummaryAfter(human, prompts))| >= 2
    ensures var parts := Split(SummaryAfter(human, prompts));
            (forall more :: Split(SummaryAfter(human, prompts + more))[0] == parts[0])
            <==> parts[0] != "" || HasText(parts)
  {
    var parts := Split(SummaryAfter(human, prompts));
    SplitGivesSegments(SummaryAfter(human, prompts));
    if Anchored(parts) {
      forall more ensures Split(SummaryAfter(human, prompts + more))[0] == parts[0] {
        OpeningSegmentStays(human, prompts, more);
      }
    } else {
      var more := OpeningSegmentLost(human, prompts);
    }
  }

  // ---- scrubbing ----

  /** The segments a reader is shown. */
  function Shown(typed: string -> bool, s: string): seq<string> {
    DropTrailing(GAP, DropLeading(GAP, Filter(typed, Split(s))))
  }

  function Scrubbed(typed: string -> bool, s: string): string {
    if s == "" then s else Join(Shown(typed, s))
  }

  method ScrubRunningSummary(typed: string -> bool, text: string) returns (r: string)
    ensures r == Scrubbed(typed, text)
  {
    hide Split, Join;
    if text == "" { return text; }
    var segments := Split(text);
    var kept: seq<string> := [];
    for i := 0 to |segments|
      invariant kept == Filter(typed, segments[..i])
    {
      FilterPush(typed, segments[..i], segments[i]);
      assert segments[..i] + [segments[i]] == segments[..i + 1];
      if typed(segments[i]) { kept := kept + [segments[i]]; }
    }
    assert segments[..|segments|] == segments;
    while kept != [] && kept[0] == GAP
      invariant DropLeading(GAP, kept) == DropLeading(GAP, Filter(typed, segments))
      decreases |kept|
    {
      kept := kept[1..];
    }
    while kept != [] && Last(kept) == GAP
      invariant DropTrailing(GAP, kept) == Shown(typed, text)
      decreases |kept|
    {
      kept := kept[..|kept| - 1];
    }
    r := Join(kept);
  }

  /** Nothing in it is machine text, and no gap marker dangles at an end. */
  predicate Presentable(typed: string -> bool, parts: seq<string>) {
    && (forall p :: p in parts ==> typed(p))
    && (parts != [] ==> parts[0] != GAP && Last(parts) != GAP)
  }

  lemma {:induction false} LeadingGapsDropped(typed: string -> bool, parts: seq<string>)
    requires AllSegments(parts) && forall p :: p in parts ==> typed(p)
    ensures var kept := DropLeading(GAP, parts);
            AllSegments(kept) && (forall p :: p in kept ==> typed(p)) && (kept != [] ==> kept[0] != GAP)
  {
    if parts != [] && parts[0] == GAP { LeadingGapsDropped(typed, parts[1..]); }
  }

  lemma {:induction false} TrailingGapsDropped(typed: string -> bool, parts: seq<string>)
    requires AllSegments(parts) && (forall p :: p in parts ==> typed(p)) && (parts != [] ==> parts[0] != GAP)
    ensures var kept := DropTrailing(GAP, parts); AllSegments(kept) && Presentable(typed, kept)
  {
    if parts != [] && Last(parts) == GAP { TrailingGapsDropped(typed, parts[..|parts| - 1]); }
  }

  lemma ShownIsPresentable(typed: string -> bool, s: string)
    ensures AllSegments(Shown(typed, s)) && Presentable(typed, Shown(typed, s))
  {
    SplitGivesSegments(s);
    FilterKeepsSegments(typed, Split(s));
    forall p | p in Filter(typed, Split(s)) ensures typed(p) { FilterIn(typed, Split(s), p); }
    LeadingGapsDropped(typed, Filter(typed, Split(s)));
    TrailingGapsDropped(typed, DropLeading(GAP, Filter(typed, Split(s))));
  }

  /** A scrubbed summary splits into exactly the segments that were kept. */
  lemma ScrubbedSplits(typed: string -> bool, s: string)
    requires Shown(typed, s) != [] && s != ""
    ensures Split(Scrubbed(typed, s)) == Shown(typed, s)
  {
    ShownIsPresentable(typed, s);
    SplitOfJoin(Shown(typed, s));
  }

  /** Scrubbing twice is scrubbing once, whatever counts as machine text. */
  lemma ScrubIsIdempotent(typed: string -> bool, s: string)
    ensures Scrubbed(typed, Scrubbed(typed, s)) == Scrubbed(typed, s)
  {
    hide Split;
    if s != "" && Shown(typed, s) != [] {
      ShownIsPresentable(typed, s);
      ScrubbedSplits(typed, s);
      FilterAll(typed, Shown(typed, s));
    }
  }

  /** Text comes back unchanged exactly when no segment is machine text and no gap marker dangles. */
  lemma ScrubLeavesCleanText(typed: string -> bool, s: string)
    requires s != ""
    ensures Scrubbed(typed, s) == s <==> Presentable(typed, Split(s))
  {
    if Presentable(typed, Split(s)) {
      FilterAll(typed, Split(s));
      JoinOfSplit(s);
    } else if Shown(typed, s) != [] {
      ScrubbedSplits(typed, s);
      ShownIsPresentable(typed, s);
    }
  }

  predicate IsTyped(typed: string -> bool, p: string) { typed(p) && p != GAP }

  function TypedText(typed: string -> bool): string -> bool { (p: string) => IsTyped(typed, p) }

  lemma {:induction false} LeadingGapsAreNotText(typed: string -> bool, parts: seq<string>)
    ensures Filter(TypedText(typed), DropLeading(GAP, parts)) == Filter(TypedText(typed), parts)
  {
    if parts != [] && parts[0] == GAP {
      LeadingGapsAreNotText(typed, parts[1..]);
      assert parts == [GAP] + parts[1..];
      FilterConcat(TypedText(typed), [GAP], parts[1..]);
      FilterNone(TypedText(typed), [GAP]);
    }
  }

  lemma {:induction false} TrailingGapsAreNotText(typed: string -> bool, parts: seq<string>)
    ensures Filter(TypedText(typed), DropTrailing(GAP, parts)) == Filter(TypedText(typed), parts)
  {
    if parts != [] && Last(parts) == GAP {
      TrailingGapsAreNotText(typed, parts[..|parts| - 1]);
      assert parts == parts[..|parts| - 1] + [GAP];
      FilterPush(TypedText(typed), parts[..|parts| - 1], GAP);
    }
  }

  lemma {:induction false} TypedOfTyped(typed: string -> bool, parts: seq<string>)
    ensures Filter(TypedText(typed), Filter(typed, parts)) == Filter(TypedText(typed), parts)
  {
    if parts != [] {
      var front, last := parts[..|parts| - 1], Last(parts);
      TypedOfTyped(typed, front);
      assert parts == front + [last];
      FilterPush(typed, front, last);
      FilterPush(TypedText(typed), front, last);
      if typed(last) {
        FilterPush(TypedText(typed), Filter(typed, front), last);
      } else {
        assert Filter(typed, parts) == Filter(typed, front);
      }
    }
  }

  /** Scrubbing loses nothing that was typed: the typed segments are the same, in the same order. */
  lemma ScrubKeepsWhatWasTyped(typed: string -> bool, s: string)
    requires s != ""
    ensures var before := Filter(TypedText(typed), Split(s));
            if Shown(typed, s) == [] then before == [] else Filter(TypedText(typed), Split(Scrubbed(typed, s))) == before
  {
    TypedOfTyped(typed, Split(s));
    LeadingGapsAreNotText(typed, Filter(typed, Split(s)));
    TrailingGapsAreNotText(typed, DropLeading(GAP, Filter(typed, Split(s))));
    if Shown(typed, s) != [] { ScrubbedSplits(typed, s); }
  }
}
