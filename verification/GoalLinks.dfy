/** The goal links of the episodic store: the deduplicating migration, the ensure-exists insert and the
    merge of two goals, over a table with one row per link. */
module GoalLinks {
  import opened Records
  import opened Lists

  // What a link points at; only goal links are unique.
  datatype Target = Goal(goal: nat) | Other(kind: string, ref: string)

  datatype Row = Row(id: nat, episode: nat, linkType: string, target: Target)

  // A link without its row: what the table is for.
  datatype Link = Link(episode: nat, linkType: string, goal: nat)

  const LINK_TYPES: set<string> := {"advanced_goal", "blocked_goal", "completed_goal", "cited_goal"}

  predicate SameLink(a: Row, b: Row) {
    a.target.Goal? && a.target == b.target && a.episode == b.episode && a.linkType == b.linkType
  }

  /** The unique index: at most one row per (episode, link type, goal). */
  predicate Unique(rows: seq<Row>) { forall i, j :: 0 <= i < j < |rows| ==> !SameLink(rows[i], rows[j]) }

  /** Rows stand in the order of their ids, which are never reused. */
  predicate IdsOk(rows: seq<Row>, nextId: nat) {
    && (forall i, j :: 0 <= i < j < |rows| ==> rows[i].id < rows[j].id)
    && (forall i :: 0 <= i < |rows| ==> rows[i].id < nextId)
  }

  predicate LinksTo(r: Row, g: nat) { r.target == Goal(g) }

  function LinkOf(r: Row): Link
    requires r.target.Goal?
  {
    Link(r.episode, r.linkType, r.target.goal)
  }

  /** The set of links a table holds, however many rows hold each. */
  function Links(rows: seq<Row>): set<Link> {
    set r | r in rows && r.target.Goal? :: LinkOf(r)
  }

  // ---- the migration ----

  predicate Earliest(rows: seq<Row>, r: Row) {
    forall x :: x in rows && SameLink(x, r) ==> r.id <= x.id
  }

  function KeepEarliest(rows: seq<Row>): Row -> bool { r => Earliest(rows, r) }

  function Migrated(rows: seq<Row>): seq<Row> { Filter(KeepEarliest(rows), rows) }

  lemma {:induction false} EarliestExists(rows: seq<Row>, k: nat) returns (i: nat)
    requires k < |rows|
    requires forall i, j :: 0 <= i < j < |rows| ==> rows[i].id < rows[j].id
    ensures i <= k && (i == k || SameLink(rows[i], rows[k])) && Earliest(rows, rows[i])
    decreases k
  {
    if j :| 0 <= j < k && SameLink(rows[j], rows[k]) {
      i := EarliestExists(rows, j);
    } else {
      i := k;
    }
  }

  lemma MigratedHolds(rows: seq<Row>, r: Row)
    ensures r in Migrated(rows) <==> r in rows && Earliest(rows, r)
  {
    FilterIn(KeepEarliest(rows), rows, r);
  }

  lemma MigratedIsUnique(rows: seq<Row>, nextId: nat)
    requires IdsOk(rows, nextId)
    ensures Unique(Migrated(rows)) && IdsOk(Migrated(rows), nextId) && |Migrated(rows)| <= |rows|
  {
    var keep, after := KeepEarliest(rows), Migrated(rows);
    forall i, j | 0 <= i < j < |rows| && keep(rows[i]) && keep(rows[j]) ensures !SameLink(rows[i], rows[j]) {
      assert rows[i] in rows && rows[j] in rows;
    }
    FilterPairwise(keep, (a: Row, b: Row) => a.id < b.id && !SameLink(a, b), rows);
    assert after == Filter(keep, rows);
    forall i, j | 0 <= i < j < |after| ensures after[i].id < after[j].id && !SameLink(after[i], after[j]) {}
    forall i | 0 <= i < |after| ensures after[i].id < nextId {
      MigratedHolds(rows, after[i]);
    }
  }

  /** Whatever the table held, the migration leaves one row per link, the earliest, and loses no link. */
  lemma MigrationDedupes(rows: seq<Row>, nextId: nat)
    requires IdsOk(rows, nextId)
    ensures Unique(Migrated(rows)) && IdsOk(Migrated(rows), nextId) && |Migrated(rows)| <= |rows|
    ensures Links(Migrated(rows)) == Links(rows)
    ensures forall r :: r in Migrated(rows) <==> r in rows && Earliest(rows, r)
  {
    hide Migrated, Earliest;
    MigratedIsUnique(rows, nextId);
    forall r ensures r in Migrated(rows) <==> r in rows && Earliest(rows, r) { MigratedHolds(rows, r); }
    forall l | l in Links(rows) ensures l in Links(Migrated(rows)) {
      var r :| r in rows && r.target.Goal? && LinkOf(r) == l;
      var k :| 0 <= k < |rows| && rows[k] == r;
      var i := EarliestExists(rows, k);
      assert rows[i] in Migrated(rows) && LinkOf(rows[i]) == l;
    }
  }

  lemma OneRow(rows: seq<Row>, i: nat, k: nat)
    requires Unique(rows) && i < |rows| && k < |rows| && SameLink(rows[i], rows[k])
    ensures i == k
  {
    assert SameLink(rows[k], rows[i]);
  }

  /** A table that is already unique is left alone. */
  lemma MigrationIsIdempotent(rows: seq<Row>)
    requires Unique(rows)
    ensures Migrated(rows) == rows
  {
    forall k | 0 <= k < |rows| ensures Earliest(rows, rows[k]) {
      forall x | x in rows && SameLink(x, rows[k]) ensures x == rows[k] {
        var i :| 0 <= i < |rows| && rows[i] == x;
        OneRow(rows, i, k);
      }
    }
    FilterAll(KeepEarliest(rows), rows);
  }

  // ---- the merge, as one statement about the table before it ----

  predicate Collides(rows: seq<Row>, r: Row, g: nat) {
    exists x :: x in rows && SameLink(x, r.(target := Goal(g)))
  }

  predicate Moves(rows: seq<Row>, r: Row, source: nat, target: nat) {
    LinksTo(r, source) && (source == target || !Collides(rows, r, target))
  }

  /** The table after the statement has gone through its first `i` rows. */
  function Halfway(rows: seq<Row>, i: nat, source: nat, target: nat): seq<Row>
    requires i <= |rows|
  {
    seq(|rows|, j requires 0 <= j < |rows| =>
      if j < i && Moves(rows, rows[j], source, target) then rows[j].(target := Goal(target)) else rows[j])
  }

  /** UPDATE OR IGNORE: a source link moves unless the target has it already. */
  function Updated(rows: seq<Row>, source: nat, target: nat): seq<Row> { Halfway(rows, |rows|, source, target) }

  function From(source: nat): Row -> bool { r => LinksTo(r, source) }

  function NotFrom(source: nat): Row -> bool { r => !LinksTo(r, source) }

  /** ... then DELETE what is left on the source. */
  function Merged(rows: seq<Row>, source: nat, target: nat): seq<Row> {
    Filter(NotFrom(source), Updated(rows, source, target))
  }

  function Sources(rows: seq<Row>, source: nat): nat { |Filter(From(source), rows)| }

  /** Another row of the table already is this link. */
  predicate Taken(rows: seq<Row>, i: nat, r: Row) {
    exists j :: 0 <= j < |rows| && j != i && SameLink(rows[j], r)
  }

  function MovedCount(all: seq<Row>, rows: seq<Row>, source: nat, target: nat): nat {
    if rows == [] then 0
    else MovedCount(all, rows[..|rows| - 1], source, target) + (if Moves(all, Last(rows), source, target) then 1 else 0)
  }

  /** A merge renames the source goal in the set of links. */
  function Renamed(links: set<Link>, source: nat, target: nat): set<Link> {
    set l | l in links :: if l.goal == source then l.(goal := target) else l
  }

  // ---- the table ----

  class LinkTable {
    var rows: seq<Row>
    var nextId: nat
    var indexed: bool

    /** The index is only there once the migration has run. */
    predicate Valid()
      reads this
    {
      IdsOk(rows, nextId) && (indexed ==> Unique(rows))
    }

    constructor (rows: seq<Row>, nextId: nat)
      requires IdsOk(rows, nextId)
      ensures Valid() && this.rows == rows && this.nextId == nextId
    {
      this.rows, this.nextId, this.indexed := rows, nextId, false;
    }

    method InitSchema() returns (deduped: nat)
      requires Valid()
      modifies this
      ensures Valid() && indexed && nextId == old(nextId)
      ensures rows == Migrated(old(rows)) && deduped == |old(rows)| - |rows|
      ensures Links(rows) == Links(old(rows))
      ensures old(indexed) ==> deduped == 0
    {
      hide Migrated, Links, Earliest, Unique, IdsOk;
      MigrationDedupes(rows, nextId);
      if indexed { MigrationIsIdempotent(rows); }
      var before := |rows|;
      rows := Migrated(rows);
      deduped := before - |rows|;
      indexed := true;
    }

    /** Ensure-exists: the id of the one row for this link, old or new. An unknown link type is refused. */
    method LinkEpisodeToGoal(episode: nat, goal: nat, linkType: string) returns (id: Option<nat>)
      requires Valid() && indexed
      modifies this
      ensures Valid() && indexed
      ensures id == None <==> linkType !in {"advanced_goal", "blocked_goal", "completed_goal", "cited_goal"}
      ensures id == None ==> rows == old(rows)
      ensures id.Some? ==>
                && Links(rows) == Links(old(rows)) + {Link(episode, linkType, goal)}
                && rows == (if Link(episode, linkType, goal) in Links(old(rows)) then old(rows)
                            else old(rows) + [Row(old(nextId), episode, linkType, Goal(goal))])
                && Row(id.value, episode, linkType, Goal(goal)) in rows
    {
      if linkType !in LINK_TYPES { return None; }
      var found: Option<nat> := None;
      for i := 0 to |rows|
        invariant found == None <==> forall j :: 0 <= j < i ==> rows[j].(id := 0) != Row(0, episode, linkType, Goal(goal))
        invariant found.Some? ==> Row(found.value, episode, linkType, Goal(goal)) in rows
      {
        if found == None && rows[i].(id := 0) == Row(0, episode, linkType, Goal(goal)) { found := Some(rows[i].id); }
      }
      if found.Some? {
        assert Link(episode, linkType, goal) in Links(rows);
        return found;
      }
      var row := Row(nextId, episode, linkType, Goal(goal));
      AddedLink(rows, row);
      rows := rows + [row];
      nextId := nextId + 1;
      id := Some(row.id);
    }

    /** One row at a time, in the order of the table; a row that would break the index stays. */
    method RetargetGoalLinks(source: nat, target: nat) returns (moved: nat, dropped: nat)
      requires Valid() && indexed
      modifies this`rows
      ensures Valid() && indexed
      ensures rows == Merged(old(rows), source, target)
      ensures source != target ==>
                Links(rows) == Renamed(Links(old(rows)), source, target) && moved + dropped == Sources(old(rows), source)
      ensures source == target ==> moved == dropped == Sources(old(rows), source)
    {
      hide Updated, Halfway, MovedCount, Moves, Filter, Links, Renamed, SameLink, LinksTo, Unique, IdsOk, Taken;
      ghost var was := rows;
      moved := 0;
      MergeStarts(was, source, target);
      for i := 0 to |rows|
        invariant |rows| == |was| && rows == Halfway(was, i, source, target)
        invariant moved == MovedCount(was, was[..i], source, target)
      {
        var r := rows[i].(target := Goal(target));
        RefusedIffCollides(was, i, source, target);
        NextHalfway(was, i, source, target);
        if LinksTo(rows[i], source) && !Taken(rows, i, r) {
          rows := rows[i := r];
          moved := moved + 1;
        }
      }
      MergeEnds(was, source, target);
      MergeCounts(was, source, target);
      MergeKeepsTable(was, nextId, source, target);
      if source != target { MergeRenames(was, source, target); }
      var kept := Filter(NotFrom(source), rows);
      dropped := |rows| - |kept|;
      rows := kept;
    }
  }

  lemma AddedLink(rows: seq<Row>, row: Row)
    requires Unique(rows) && row.target.Goal?
    requires forall j :: 0 <= j < |rows| ==> rows[j].(id := 0) != row.(id := 0)
    ensures Unique(rows + [row]) && Links(rows + [row]) == Links(rows) + {LinkOf(row)}
    ensures LinkOf(row) !in Links(rows)
  {
    var after := rows + [row];
    forall l ensures l in Links(after) <==> l in Links(rows) || l == LinkOf(row) {
      if l in Links(rows) {
        var r :| r in rows && r.target.Goal? && LinkOf(r) == l;
        assert r in after;
      }
      assert row in after;
    }
  }

  lemma MergeStarts(was: seq<Row>, source: nat, target: nat)
    ensures was == Halfway(was, 0, source, target) && MovedCount(was, was[..0], source, target) == 0
  {
  }

  lemma MergeEnds(was: seq<Row>, source: nat, target: nat)
    ensures Halfway(was, |was|, source, target) == Updated(was, source, target) && was[..|was|] == was
  {
  }

  /** The row the statement looks at next is refused by the index exactly when the table it started from
      already linked that episode to the target. */
  lemma RefusedIffCollides(was: seq<Row>, i: nat, source: nat, target: nat)
    requires Unique(was) && i < |was|
    ensures var rows := Halfway(was, i, source, target);
            && rows[i] == was[i]
            && (LinksTo(was[i], source) && !Taken(rows, i, was[i].(target := Goal(target)))
                <==> Moves(was, was[i], source, target))
  {
    var rows, r := Halfway(was, i, source, target), was[i].(target := Goal(target));
    if LinksTo(was[i], source) {
      forall j | 0 <= j < |was| && j != i ensures SameLink(rows[j], r) ==> rows[j] == was[j] && source != target {
        NoTwin(was, i, j);
      }
      if source != target && Collides(was, was[i], target) {
        var x :| x in was && SameLink(x, r);
        var m :| 0 <= m < |was| && was[m] == x;
        assert rows[m] == x;
      }
      if Taken(rows, i, r) {
        var j :| 0 <= j < |rows| && j != i && SameLink(rows[j], r);
        assert rows[j] in was;
      }
    }
  }

  lemma NextHalfway(was: seq<Row>, i: nat, source: nat, target: nat)
    requires i < |was|
    ensures var rows := Halfway(was, i, source, target);
            (if Moves(was, was[i], source, target) then rows[i := was[i].(target := Goal(target))] else rows)
            == Halfway(was, i + 1, source, target)
    ensures MovedCount(was, was[..i + 1], source, target)
            == MovedCount(was, was[..i], source, target) + (if Moves(was, was[i], source, target) then 1 else 0)
  {
    assert was[..i + 1][..i] == was[..i] && Last(was[..i + 1]) == was[i];
  }

  lemma NoTwin(rows: seq<Row>, i: nat, j: nat)
    requires Unique(rows) && i < |rows| && j < |rows| && i != j
    ensures !SameLink(rows[i], rows[j]) && !SameLink(rows[j], rows[i])
  {
  }

  lemma {:induction false} SplitCounts(rows: seq<Row>, source: nat)
    ensures |Filter(From(source), rows)| + |Filter(NotFrom(source), rows)| == |rows|
  {
    if rows != [] { SplitCounts(rows[..|rows| - 1], source); }
  }

  lemma {:induction false} SourcesLeft(was: seq<Row>, n: nat, source: nat, target: nat)
    requires n <= |was| && source != target
    ensures Sources(Updated(was, source, target)[..n], source) + MovedCount(was, was[..n], source, target)
            == Sources(was[..n], source)
  {
    var upd := Updated(was, source, target);
    if n > 0 {
      SourcesLeft(was, n - 1, source, target);
      assert upd[..n] == upd[..n - 1] + [upd[n - 1]] && was[..n] == was[..n - 1] + [was[n - 1]];
      FilterPush(From(source), upd[..n - 1], upd[n - 1]);
      FilterPush(From(source), was[..n - 1], was[n - 1]);
    }
  }

  lemma {:induction false} AllMove(was: seq<Row>, n: nat, source: nat)
    requires n <= |was|
    ensures MovedCount(was, was[..n], source, source) == Sources(was[..n], source)
  {
    if n > 0 {
      AllMove(was, n - 1, source);
      assert was[..n] == was[..n - 1] + [was[n - 1]];
      FilterPush(From(source), was[..n - 1], was[n - 1]);
    }
  }

  lemma MergeCounts(was: seq<Row>, source: nat, target: nat)
    ensures var upd := Updated(was, source, target);
            var moved := MovedCount(was, was, source, target);
            var dropped := |upd| - |Merged(was, source, target)|;
            && (source != target ==> moved + dropped == Sources(was, source))
            && (source == target ==> moved == dropped == Sources(was, source))
  {
    var upd := Updated(was, source, target);
    assert was[..|was|] == was && upd[..|upd|] == upd;
    SplitCounts(upd, source);
    if source == target {
      assert upd == was;
      AllMove(was, |was|, source);
    } else {
      SourcesLeft(was, |was|, source, target);
    }
  }

  /** The merged table is still unique and ordered, and nothing is left on the source. */
  lemma MergeKeepsTable(rows: seq<Row>, nextId: nat, source: nat, target: nat)
    requires IdsOk(rows, nextId) && Unique(rows)
    ensures var after := Merged(rows, source, target);
            IdsOk(after, nextId) && Unique(after) && Sources(after, source) == 0
  {
    var upd, keep := Updated(rows, source, target), NotFrom(source);
    var after := Merged(rows, source, target);
    forall i, j | 0 <= i < j < |upd| && keep(upd[i]) && keep(upd[j]) ensures !SameLink(upd[i], upd[j]) {
      NoTwin(rows, i, j);
      assert rows[i] in rows && rows[j] in rows;
    }
    FilterPairwise(keep, (a: Row, b: Row) => a.id < b.id && !SameLink(a, b), upd);
    forall k | 0 <= k < |after| ensures after[k].id < nextId && !LinksTo(after[k], source) {
      FilterIn(keep, upd, after[k]);
    }
    FilterNone(From(source), after);
  }

  /** Merging two different goals renames the source in the set of links: the target gets exactly the union
      of both, the source keeps none, and no other goal's links change. */
  lemma MergeRenames(rows: seq<Row>, source: nat, target: nat)
    requires source != target
    ensures Links(Merged(rows, source, target)) == Renamed(Links(rows), source, target)
  {
    var upd, after := Updated(rows, source, target), Merged(rows, source, target);
    forall l | l in Links(after) ensures l in Renamed(Links(rows), source, target) {
      var r :| r in after && r.target.Goal? && LinkOf(r) == l;
      FilterIn(NotFrom(source), upd, r);
      var i :| 0 <= i < |upd| && upd[i] == r;
      assert rows[i] in rows && LinkOf(rows[i]) in Links(rows);
    }
    forall l | l in Renamed(Links(rows), source, target) ensures l in Links(after) {
      var k :| k in Links(rows) && l == if k.goal == source then k.(goal := target) else k;
      var r :| r in rows && r.target.Goal? && LinkOf(r) == k;
      MergeHolds(rows, r, source, target);
    }
  }

  lemma MergeHolds(rows: seq<Row>, r: Row, source: nat, target: nat)
    requires source != target && r in rows && r.target.Goal?
    ensures var k := LinkOf(r);
            (if k.goal == source then k.(goal := target) else k) in Links(Merged(rows, source, target))
  {
    var upd, after := Updated(rows, source, target), Merged(rows, source, target);
    var x := r;
    if LinksTo(r, source) && Collides(rows, r, target) {
      x :| x in rows && SameLink(x, r.(target := Goal(target)));
    }
    var i :| 0 <= i < |rows| && rows[i] == x;
    FilterIn(NotFrom(source), upd, upd[i]);
    assert upd[i] in upd && upd[i] in after;
    assert LinkOf(upd[i]) in Links(after);
  }

  /** Row by row: everything that does not link to the source stays as it is, and what else is in the table
      after the merge is a source row that now points at the target, with its own id, episode and type. */
  lemma MergedRows(rows: seq<Row>, source: nat, target: nat, r: Row)
    requires source != target
    ensures r in Merged(rows, source, target) ==>
              || (r in rows && !LinksTo(r, source))
              || (exists x :: x in rows && LinksTo(x, source) && r == Row(x.id, x.episode, x.linkType, Goal(target)))
    ensures r in rows && !LinksTo(r, source) ==> r in Merged(rows, source, target)
  {
    var upd := Updated(rows, source, target);
    FilterIn(NotFrom(source), upd, r);
    if r in Merged(rows, source, target) {
      var i :| 0 <= i < |upd| && upd[i] == r;
      assert rows[i] in rows;
    }
    if r in rows && !LinksTo(r, source) {
      var i :| 0 <= i < |rows| && rows[i] == r;
      assert upd[i] == r;
    }
  }

  /** Merging a goal into itself would drop every link it has; that is the only case in which the merge does
      not give the target the union. */
  lemma MergeIsUnionIff(rows: seq<Row>, source: nat, target: nat)
    ensures Links(Merged(rows, source, target)) == Renamed(Links(rows), source, target)
            <==> source != target || Sources(rows, source) == 0
  {
    if source != target {
      MergeRenames(rows, source, target);
    } else {
      var upd := Updated(rows, source, target);
      assert upd == rows;
      assert Renamed(Links(rows), source, target) == Links(rows);
      if Sources(rows, source) == 0 {
        forall k | 0 <= k < |rows| ensures NotFrom(source)(rows[k]) {
          FilterIn(From(source), rows, rows[k]);
        }
        FilterAll(NotFrom(source), rows);
      } else {
        var r := Filter(From(source), rows)[0];
        FilterIn(From(source), rows, r);
        assert LinkOf(r) in Links(rows);
        forall x | x in Merged(rows, source, target) ensures !LinksTo(x, source) {
          FilterIn(NotFrom(source), upd, x);
        }
      }
    }
  }
}
