/** The episodes table: at most one unfinished episode per session, each holding the running summary of
    exactly its own session's prompts. */
module Episodes {
  import opened Records
  import opened RunningSummary
  import opened Lists

  datatype Stage = InProgress | Complete | Abandoned
  datatype Episode = Episode(id: nat, session: string, stage: Stage, summary: string)

  predicate OpenFor(e: Episode, session: string) { e.stage == InProgress && e.session == session }

  /** The newest unfinished row of a session; ids grow along the table. */
  function FindOpen(rows: seq<Episode>, session: string): (at: Option<nat>)
    ensures at.Some? ==> at.value < |rows| && OpenFor(rows[at.value], session)
    ensures at.Some? ==> forall k :: at.value < k < |rows| ==> !OpenFor(rows[k], session)
    ensures at.None? ==> forall k :: 0 <= k < |rows| ==> !OpenFor(rows[k], session)
  {
    if rows == [] then None
    else if OpenFor(Last(rows), session) then Some(|rows| - 1)
    else FindOpen(rows[..|rows| - 1], session)
  }

  /** The running summary of the session's unfinished episode, if it has one. */
  function Running(rows: seq<Episode>, session: string): Option<string> {
    var at := FindOpen(rows, session);
    if at.Some? then Some(rows[at.value].summary) else None
  }

  /** The unique index on unfinished rows. */
  predicate OneOpen(rows: seq<Episode>) {
    forall i, j :: 0 <= i < j < |rows| && rows[i].stage == InProgress && rows[j].stage == InProgress
                   ==> rows[i].session != rows[j].session
  }

  predicate IdsOk(rows: seq<Episode>, nextId: nat) {
    && (forall i, j :: 0 <= i < j < |rows| ==> rows[i].id < rows[j].id)
    && (forall i :: 0 <= i < |rows| ==> rows[i].id < nextId)
  }

  // ---- what each statement does to the running summaries ----

  lemma FoundAt(rows: seq<Episode>, session: string, i: nat)
    requires i < |rows| && OpenFor(rows[i], session)
    requires forall k :: i < k < |rows| ==> !OpenFor(rows[k], session)
    ensures FindOpen(rows, session) == Some(i)
  {
  }

  lemma NotFound(rows: seq<Episode>, session: string)
    requires forall k :: 0 <= k < |rows| ==> !OpenFor(rows[k], session)
    ensures FindOpen(rows, session) == None
  {
  }

  lemma SummaryReplaced(rows: seq<Episode>, session: string, text: string, other: string)
    requires FindOpen(rows, session).Some?
    ensures var i := FindOpen(rows, session).value;
            Running(rows[i := rows[i].(summary := text)], other) == if other == session then Some(text) else Running(rows, other)
  {
    var i := FindOpen(rows, session).value;
    var after := rows[i := rows[i].(summary := text)];
    var at := FindOpen(rows, other);
    if at.Some? { FoundAt(after, other, at.value); } else { NotFound(after, other); }
  }

  lemma RowAdded(rows: seq<Episode>, e: Episode, other: string)
    ensures Running(rows + [e], other) == if OpenFor(e, other) then Some(e.summary) else Running(rows, other)
  {
    assert (rows + [e])[..|rows|] == rows;
  }

  lemma OpenClosed(rows: seq<Episode>, session: string, text: string, other: string)
    requires OneOpen(rows) && FindOpen(rows, session).Some?
    ensures var i := FindOpen(rows, session).value;
            var after := rows[i := rows[i].(stage := Complete, summary := text)];
            OneOpen(after) && Running(after, other) == if other == session then None else Running(rows, other)
  {
    var i := FindOpen(rows, session).value;
    var after := rows[i := rows[i].(stage := Complete, summary := text)];
    var at := FindOpen(rows, other);
    if other == session || at.None? { NotFound(after, other); } else { FoundAt(after, other, at.value); }
  }

  lemma FinishedTouched(rows: seq<Episode>, i: nat, text: string, other: string)
    requires i < |rows| && rows[i].stage != InProgress
    ensures var after := rows[i := rows[i].(summary := text)];
            Running(after, other) == Running(rows, other) && (OneOpen(rows) ==> OneOpen(after))
  {
    var after := rows[i := rows[i].(summary := text)];
    var at := FindOpen(rows, other);
    if at.Some? { FoundAt(after, other, at.value); } else { NotFound(after, other); }
  }

  /** Demote every unfinished row that is not its session's newest. */
  function Deduped(rows: seq<Episode>): seq<Episode> {
    seq(|rows|, i requires 0 <= i < |rows| =>
      if rows[i].stage == InProgress && FindOpen(rows, rows[i].session) != Some(i) then rows[i].(stage := Abandoned) else rows[i])
  }

  /** Whatever the table held, one unfinished row per session is left, the newest, with its summary. */
  lemma DedupeKeepsNewest(rows: seq<Episode>, other: string)
    ensures OneOpen(Deduped(rows)) && Running(Deduped(rows), other) == Running(rows, other)
  {
    var after := Deduped(rows);
    var at := FindOpen(rows, other);
    if at.Some? { FoundAt(after, other, at.value); } else { NotFound(after, other); }
    forall i, j | 0 <= i < j < |after| && after[i].stage == InProgress && after[j].stage == InProgress
      ensures after[i].session != after[j].session
    {
      assert FindOpen(rows, rows[i].session) == Some(i) && FindOpen(rows, rows[j].session) == Some(j);
    }
  }

  lemma OpenSummary(rows: seq<Episode>, session: string)
    ensures Running(rows, session) == if FindOpen(rows, session).Some? then Some(rows[FindOpen(rows, session).value].summary) else None
  {
  }

  /** Nothing else is touched: a row changes exactly if it is unfinished and a later unfinished row of its session
      follows, and then only its stage. */
  lemma DedupeTouchesDuplicatesOnly(rows: seq<Episode>, i: nat)
    requires i < |rows|
    ensures |Deduped(rows)| == |rows|
    ensures Deduped(rows)[i]
            == if rows[i].stage == InProgress
                  && exists j :: i < j < |rows| && rows[j].stage == InProgress && rows[j].session == rows[i].session
               then Episode(rows[i].id, rows[i].session, Abandoned, rows[i].summary) else rows[i]
  {
    if rows[i].stage == InProgress {
      var at := FindOpen(rows, rows[i].session);
      assert OpenFor(rows[i], rows[i].session);
      if at.value != i { assert OpenFor(rows[at.value], rows[i].session); }
    }
  }

  lemma DedupeKeepsIds(rows: seq<Episode>, nextId: nat)
    requires IdsOk(rows, nextId)
    ensures IdsOk(Deduped(rows), nextId)
  {
  }

  /** The newest complete row of a session. */
  function FindComplete(rows: seq<Episode>, session: string): (at: Option<nat>)
    ensures at.Some? ==> at.value < |rows| && rows[at.value].stage == Complete && rows[at.value].session == session
    ensures at.Some? ==> forall k :: at.value < k < |rows| ==> !(rows[k].stage == Complete && rows[k].session == session)
    ensures at.None? ==> forall k :: 0 <= k < |rows| ==> !(rows[k].stage == Complete && rows[k].session == session)
  {
    if rows == [] then None
    else if Last(rows).stage == Complete && Last(rows).session == session then Some(|rows| - 1)
    else FindComplete(rows[..|rows| - 1], session)
  }

  // ---- the table ----

  class EpisodeTable {
    var rows: seq<Episode>
    var nextId: nat

    predicate Valid()
      reads this
    {
      IdsOk(rows, nextId) && OneOpen(rows)
    }

    /** Startup on any table: the duplicates are demoted before the index is made. */
    constructor (rows: seq<Episode>, nextId: nat)
      requires IdsOk(rows, nextId)
      ensures Valid() && this.rows == Deduped(rows) && this.nextId == nextId
      ensures forall t: string :: Running(this.rows, t) == Running(rows, t)
    {
      hide Deduped, Running, OneOpen, IdsOk;
      forall t: string ensures OneOpen(Deduped(rows)) && Running(Deduped(rows), t) == Running(rows, t) {
        DedupeKeepsNewest(rows, t);
      }
      DedupeKeepsNewest(rows, "");
      DedupeKeepsIds(rows, nextId);
      this.rows, this.nextId := Deduped(rows), nextId;
    }

    /** One prompt: it opens an episode, or adds a preview to the one that is open; every other session's
        summary stays as it is. */
    method UpsertInProgress(session: string, prompt: string, human: string -> bool) returns (id: nat, created: bool)
      requires Valid()
      modifies this
      ensures Valid() && created == FindOpen(old(rows), session).None?
      ensures created ==>
                && id == old(nextId)
                && rows == old(rows) + [Episode(id, session, InProgress, Preview(human, prompt, OPENING_CHARS))]
      ensures !created ==>
                var i := FindOpen(old(rows), session).value;
                var row := old(rows)[i];
                && id == row.id
                && rows == old(rows)[i := row.(summary := Appended(row.summary, Preview(human, prompt, PREVIEW_CHARS), CAP))]
      ensures forall t: string :: Running(rows, t) ==
                if t != session then Running(old(rows), t)
                else if created then Some(Preview(human, prompt, OPENING_CHARS))
                else Some(Appended(Running(old(rows), session).value, Preview(human, prompt, PREVIEW_CHARS), CAP))
    {
      hide Preview, Appended, Running;
      var was := rows;
      var at := FindOpen(rows, session);
      OpenSummary(was, session);
      if at.Some? {
        var row := rows[at.value];
        var text := AppendRunningSummary(row.summary, Preview(human, prompt, PREVIEW_CHARS), CAP);
        rows := rows[at.value := row.(summary := text)];
        forall t: string ensures Running(rows, t) == if t == session then Some(text) else Running(was, t) {
          SummaryReplaced(was, session, text, t);
        }
        return row.id, false;
      }
      var e := Episode(nextId, session, InProgress, Preview(human, prompt, OPENING_CHARS));
      rows := rows + [e];
      forall t: string ensures Running(rows, t) == if t == session then Some(e.summary) else Running(was, t) {
        RowAdded(was, e, t);
      }
      nextId := nextId + 1;
      return e.id, true;
    }

    /** The session ends: its unfinished episode becomes complete; without one a complete row is written, or
        the last one again when `again` says it was written seconds ago. */
    method Finalize(session: string, summary: string, again: bool) returns (id: nat)
      requires Valid()
      modifies this
      ensures Valid()
      ensures var i := if FindOpen(old(rows), session).Some? then FindOpen(old(rows), session)
                       else if again then FindComplete(old(rows), session) else None;
              if i.Some?
              then && id == old(rows)[i.value].id
                   && rows == old(rows)[i.value := old(rows)[i.value].(stage := Complete, summary := summary)]
              else && id == old(nextId)
                   && rows == old(rows) + [Episode(id, session, Complete, summary)]
      ensures forall t: string :: Running(rows, t) == if t == session then None else Running(old(rows), t)
    {
      var was := rows;
      var at := FindOpen(rows, session);
      if at.Some? {
        rows := rows[at.value := rows[at.value].(stage := Complete, summary := summary)];
        forall t: string ensures OneOpen(rows) && Running(rows, t) == if t == session then None else Running(was, t) {
          OpenClosed(was, session, summary, t);
        }
        OpenClosed(was, session, summary, session);
        return rows[at.value].id;
      }
      var recent := FindComplete(rows, session);
      if again && recent.Some? {
        assert rows[recent.value].(stage := Complete, summary := summary) == rows[recent.value].(summary := summary);
        rows := rows[recent.value := rows[recent.value].(summary := summary)];
        forall t: string ensures OneOpen(rows) && Running(rows, t) == Running(was, t) {
          FinishedTouched(was, recent.value, summary, t);
        }
        FinishedTouched(was, recent.value, summary, session);
        return rows[recent.value].id;
      }
      var e := Episode(nextId, session, Complete, summary);
      rows := rows + [e];
      forall t: string ensures Running(rows, t) == Running(was, t) { RowAdded(was, e, t); }
      nextId := nextId + 1;
      return e.id;
    }
  }

  // ---- every history of prompts and endings, of any sessions, interleaved ----

  datatype Event = Prompted(session: string, prompt: string) | Ended(session: string)

  /** The effect of one event on one session's running summary: what the two methods promise. */
  function After(human: string -> bool, running: Option<string>, e: Event, session: string): Option<string> {
    if e.session != session then running
    else match e
      case Ended(_) => None
      case Prompted(_, prompt) =>
        if running.None? then Some(Preview(human, prompt, OPENING_CHARS))
        else Some(Appended(running.value, Preview(human, prompt, PREVIEW_CHARS), CAP))
  }

  function RunningAfter(human: string -> bool, es: seq<Event>, session: string): Option<string> {
    if es == [] then None else After(human, RunningAfter(human, es[..|es| - 1], session), Last(es), session)
  }

  /** The prompts of the session since it last ended. */
  function OwnPrompts(es: seq<Event>, session: string): seq<string> {
    if es == [] then []
    else
      var front, e := OwnPrompts(es[..|es| - 1], session), Last(es);
      if e.session != session then front else if e.Ended? then [] else front + [e.prompt]
  }

  /** However the sessions interleave, a session's summary is the one its own prompts make, and there is one
      exactly when it has been prompted since it last ended. */
  lemma {:induction false} SummaryOfOwnPrompts(human: string -> bool, es: seq<Event>, session: string)
    ensures var own := OwnPrompts(es, session);
            RunningAfter(human, es, session) == if own == [] then None else Some(SummaryAfter(human, own))
  {
    if es != [] {
      var front, e := es[..|es| - 1], Last(es);
      SummaryOfOwnPrompts(human, front, session);
      if e.session == session && e.Prompted? {
        var own := OwnPrompts(front, session);
        assert (own + [e.prompt])[..|own|] == own;
      }
    }
  }
}
