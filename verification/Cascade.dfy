/** DELETE with cascade: the walk over supersession links and the deletes that follow it. */
module Cascade {
  import opened Records
  import opened Security
  import opened Supersession
  import opened Forest
  import opened Lists
  import Handlers
  import ReplayStore

  const SCROLL_LIMIT := 100

  // The answer to "which records are superseded by this one": one page, or a failed call.
  datatype Scroll = Failed | Page(ids: seq<Id>)

  // What the calls of one delete meet outside, for each record on its own: its page, its read, and how its
  // deletion ends (done, refused, or done with the answer lost).
  datatype Outside = Outside(gateOk: bool, intentOk: bool, scroll: Id -> Scroll, readOk: Id -> bool,
                             deletion: Id -> Handlers.Fault)

  function Predecessors(s: Store, c: Id): set<Id> { set x | x in s && LinkAt(s, x, c) }

  predicate Distinct(xs: seq<Id>) { forall i, j :: 0 <= i < j < |xs| ==> xs[i] != xs[j] }

  /** A page lists direct predecessors, each once, and stops at the limit only if there are that many. */
  predicate PageOk(s: Store, c: Id, page: Scroll) {
    page.Page? ==>
      && Distinct(page.ids) && (forall x :: x in page.ids ==> x in Predecessors(s, c))
      && (|page.ids| < SCROLL_LIMIT ==> |page.ids| == |Predecessors(s, c)|)
      && |page.ids| <= SCROLL_LIMIT
  }

  ghost predicate Answers(s: Store, scroll: Id -> Scroll) { forall c :: PageOk(s, c, scroll(c)) }

  /** The page of `c` misses no predecessor; the root itself is never collected, so it may be missing. */
  predicate Complete(s: Store, scroll: Id -> Scroll, root: Id, c: Id) {
    forall x :: x in s && LinkAt(s, x, c) && x != root ==> scroll(c).Page? && x in scroll(c).ids
  }

  /** `x` is hidden, directly or through other records, behind the root. */
  ghost predicate Above(s: Store, root: Id, x: Id) {
    exists p :: LinkPath(s, p) && |p| >= 2 && p[0] == x && p[|p| - 1] == root
  }

  lemma AboveStep(s: Store, root: Id, x: Id, y: Id)
    requires LinkAt(s, x, y) && (y == root || Above(s, root, y))
    ensures Above(s, root, x)
  {
    if y == root {
      assert LinkPath(s, [x, root]);
    } else {
      var p :| LinkPath(s, p) && |p| >= 2 && p[0] == y && p[|p| - 1] == root;
      var q := [x] + p;
      forall i | 0 <= i < |q| - 1 ensures LinkAt(s, q[i], q[i + 1]) {
        if i > 0 { assert LinkAt(s, p[i - 1], p[i]); }
      }
      assert LinkPath(s, q) && q[|q| - 1] == root;
    }
  }

  /** A set that holds the root's chain so far and every predecessor of its members holds all of Above. */
  lemma {:induction false} ClosedHoldsAbove(s: Store, root: Id, all: set<Id>, p: seq<Id>, i: nat)
    requires LinkPath(s, p) && i < |p| && p[|p| - 1] == root && root in all
    requires forall x, c :: c in all && LinkAt(s, x, c) ==> x in all
    ensures p[i] in all
    decreases |p| - i
  {
    if i < |p| - 1 {
      ClosedHoldsAbove(s, root, all, p, i + 1);
      assert LinkAt(s, p[i], p[i + 1]);
    }
  }

  /** Distinct members as many as the set has are all of it. */
  lemma {:induction false} DistinctFill(xs: seq<Id>, all: set<Id>, x: Id)
    requires Distinct(xs) && (forall y :: y in xs ==> y in all) && x in all
    ensures |xs| <= |all| && (|xs| == |all| ==> x in xs)
  {
    if xs != [] {
      var front, last := xs[..|xs| - 1], xs[|xs| - 1];
      assert last in all && last !in front;
      if x == last {
        if front != [] {
          forall y | y in front ensures y in all - {last} {}
          DistinctFill(front, all - {last}, front[0]);
        }
      } else {
        DistinctFill(front, all - {last}, x);
      }
    }
  }

  /** No failed read and at most 100 direct predecessors: the page is complete. */
  lemma SmallFanInIsComplete(s: Store, scroll: Id -> Scroll, root: Id, c: Id)
    requires Answers(s, scroll) && scroll(c).Page? && |Predecessors(s, c)| <= 100
    ensures Complete(s, scroll, root, c)
  {
    assert PageOk(s, c, scroll(c));
    forall x | x in s && LinkAt(s, x, c) ensures x in scroll(c).ids {
      DistinctFill(scroll(c).ids, Predecessors(s, c), x);
    }
  }

  // ---- the walk ----

  /** Everything met so far is the root or was collected from a visited record's page. */
  ghost predicate WalkOk(s: Store, scroll: Id -> Scroll, root: Id, chain: seq<Id>, stack: seq<Id>, visited: set<Id>) {
    && Distinct(chain) && root !in chain
    && (forall x :: x in chain ==> x in s && Above(s, root, x))
    && (forall x :: x in chain ==> exists c :: c in visited && LinkAt(s, x, c) && scroll(c).Page? && x in scroll(c).ids)
    && (forall x :: x in stack ==> x == root || x in chain)
    && (forall x :: x in visited ==> x == root || x in chain)
    && (forall x :: x == root || x in chain ==> x in visited || x in stack)
    && (root in visited || (stack == [root] && chain == []))
    && (forall c, x :: c in visited && LinkAt(s, x, c) && scroll(c).Page? && x in scroll(c).ids ==> x == root || x in chain)
  }

  /** The same while the page of `c` is half read: its first `k` records have been looked at. */
  ghost predicate PageWalkOk(s: Store, scroll: Id -> Scroll, root: Id, c: Id, page: seq<Id>, k: nat,
                             chain: seq<Id>, stack: seq<Id>, visited: set<Id>) {
    && k <= |page| && (root in visited || root == c) && (c == root || Above(s, root, c)) && c !in visited
    && Distinct(chain) && root !in chain
    && (forall x :: x in chain ==> x in s && Above(s, root, x))
    && (forall x :: x in chain ==>
          || (exists d :: d in visited && LinkAt(s, x, d) && scroll(d).Page? && x in scroll(d).ids)
          || x in page[..k])
    && (forall x :: x in stack ==> x == root || x in chain)
    && (forall x :: x in visited || x == c ==> x == root || x in chain)
    && (forall x :: x == root || x in chain ==> x in visited || x == c || x in stack)
    && (forall d, x :: d in visited && LinkAt(s, x, d) && scroll(d).Page? && x in scroll(d).ids ==> x == root || x in chain)
    && (forall x :: x in page[..k] ==> x == root || x in chain)
  }

  lemma PagePush(s: Store, scroll: Id -> Scroll, root: Id, c: Id, page: seq<Id>, k: nat,
                 chain: seq<Id>, stack: seq<Id>, visited: set<Id>)
    requires PageWalkOk(s, scroll, root, c, page, k, chain, stack, visited) && k < |page|
    requires PageOk(s, c, Page(page)) && scroll(c) == Page(page)
    ensures var x := page[k];
            if x in visited || x == c then PageWalkOk(s, scroll, root, c, page, k + 1, chain, stack, visited)
            else PageWalkOk(s, scroll, root, c, page, k + 1, chain + [x], stack + [x], visited)
  {
    var x := page[k];
    assert page[..k + 1] == page[..k] + [x];
    assert x in page && LinkAt(s, x, c);
    if x !in visited && x != c {
      AboveStep(s, root, x, c);
      assert x != root;
      forall d | d in visited ensures !LinkAt(s, x, d) {
        assert LinkAt(s, x, d) ==> d == c;
      }
      assert x !in page[..k];
    }
  }

  lemma OpenPage(s: Store, scroll: Id -> Scroll, root: Id, c: Id, page: seq<Id>,
                 chain: seq<Id>, stack: seq<Id>, visited: set<Id>)
    requires WalkOk(s, scroll, root, chain, stack + [c], visited) && c !in visited
    ensures PageWalkOk(s, scroll, root, c, page, 0, chain, stack, visited)
  {
    assert c in stack + [c];
    forall x | x in stack ensures x in stack + [c] {}
    assert page[..0] == [];
  }

  lemma ClosePage(s: Store, scroll: Id -> Scroll, root: Id, c: Id, page: seq<Id>,
                  chain: seq<Id>, stack: seq<Id>, visited: set<Id>)
    requires PageWalkOk(s, scroll, root, c, page, |page|, chain, stack, visited) && PageOk(s, c, scroll(c))
    requires scroll(c) == Page(page) || (scroll(c).Failed? && page == [])
    ensures WalkOk(s, scroll, root, chain, stack, visited + {c})
  {
    assert page[..|page|] == page;
    forall x | x in chain
      ensures exists d :: d in visited + {c} && LinkAt(s, x, d) && scroll(d).Page? && x in scroll(d).ids
    {
      if x in page {
        assert c in visited + {c} && LinkAt(s, x, c);
      } else {
        var d :| d in visited && LinkAt(s, x, d) && scroll(d).Page? && x in scroll(d).ids;
        assert d in visited + {c};
      }
    }
  }

  lemma PopVisited(s: Store, scroll: Id -> Scroll, root: Id, c: Id, chain: seq<Id>, stack: seq<Id>, visited: set<Id>)
    requires WalkOk(s, scroll, root, chain, stack + [c], visited) && c in visited
    ensures WalkOk(s, scroll, root, chain, stack, visited)
  {
    forall x | x in stack ensures x in stack + [c] {}
  }

  lemma Bounded(s: Store, scroll: Id -> Scroll, root: Id, chain: seq<Id>, stack: seq<Id>, visited: set<Id>, c: Id)
    requires WalkOk(s, scroll, root, chain, stack + [c], visited) && c !in visited
    ensures |s.Keys + {root} - (visited + {c})| < |s.Keys + {root} - visited|
  {
    assert c in stack + [c];
    FewerLeft(s.Keys + {root}, visited, c);
  }

  lemma FewerLeft(all: set<Id>, visited: set<Id>, c: Id)
    requires c in all && c !in visited
    ensures |all - (visited + {c})| < |all - visited|
  {
    assert all - (visited + {c}) == (all - visited) - {c};
  }

  /** The work list: last in, first out, each record's page read once. */
  method Walk(ghost s: Store, scroll: Id -> Scroll, root: Id) returns (chain: seq<Id>)
    requires Answers(s, scroll)
    ensures Distinct(chain) && root !in chain
    ensures forall x :: x in chain ==> x in s && Above(s, root, x)
    ensures (forall x :: Above(s, root, x) && x != root ==> x in chain)
            <==> forall c :: c == root || c in chain ==> Complete(s, scroll, root, c)
  {
    hide Above, LinkAt, Distinct, PageWalkOk, Complete, PageOk, WalkOk;
    chain := [];
    var stack := [root];
    var visited: set<Id> := {};
    WalkStarts(s, scroll, root);
    while stack != []
      invariant WalkOk(s, scroll, root, chain, stack, visited)
      decreases |s.Keys + {root} - visited|, |stack|
    {
      var c := Last(stack);
      assert stack == stack[..|stack| - 1] + [c];
      stack := stack[..|stack| - 1];
      if c in visited {
        PopVisited(s, scroll, root, c, chain, stack, visited);
        continue;
      }
      Bounded(s, scroll, root, chain, stack, visited, c);
      var page := if scroll(c).Page? then scroll(c).ids else [];
      assert PageOk(s, c, scroll(c));
      OpenPage(s, scroll, root, c, page, chain, stack, visited);
      for k := 0 to |page|
        invariant PageWalkOk(s, scroll, root, c, page, k, chain, stack, visited)
      {
        PagePush(s, scroll, root, c, page, k, chain, stack, visited);
        if page[k] !in visited && page[k] != c {
          chain := chain + [page[k]];
          stack := stack + [page[k]];
        }
      }
      ClosePage(s, scroll, root, c, page, chain, stack, visited);
      visited := visited + {c};
    }
    WalkCollects(s, scroll, root, chain, visited);
  }

  lemma WalkStarts(s: Store, scroll: Id -> Scroll, root: Id)
    ensures WalkOk(s, scroll, root, [], [root], {})
  {
  }

  lemma WalkCollects(s: Store, scroll: Id -> Scroll, root: Id, chain: seq<Id>, visited: set<Id>)
    requires Answers(s, scroll) && WalkOk(s, scroll, root, chain, [], visited)
    ensures Distinct(chain) && root !in chain && forall x :: x in chain ==> x in s && Above(s, root, x)
    ensures (forall x :: Above(s, root, x) && x != root ==> x in chain)
            <==> forall c :: c == root || c in chain ==> Complete(s, scroll, root, c)
  {
    if forall c :: c == root || c in chain ==> Complete(s, scroll, root, c) {
      forall x | Above(s, root, x) ensures x in visited {
        var p :| LinkPath(s, p) && |p| >= 2 && p[0] == x && p[|p| - 1] == root;
        forall y, c | c in visited && LinkAt(s, y, c) ensures y in visited {
          assert Complete(s, scroll, root, c);
        }
        ClosedHoldsAbove(s, root, visited, p, 0);
      }
    }
    if forall x :: Above(s, root, x) && x != root ==> x in chain {
      forall c | c == root || c in chain ensures Complete(s, scroll, root, c) {
        forall x | x in s && LinkAt(s, x, c) && x != root ensures scroll(c).Page? && x in scroll(c).ids {
          AboveStep(s, root, x, c);
          var d :| d in visited && LinkAt(s, x, d) && scroll(d).Page? && x in scroll(d).ids;
          assert d == c;
        }
      }
    }
  }

  // ---- the handler ----

  datatype Outcome = Denied | LedgerDown | StoreDown | Deleted

  // A delete request with its user-direct headers, and the clocks and file size its token check reads.
  datatype DeleteRequest = DeleteRequest(root: Id, cascade: bool, who: Label, keyOk: bool, auth: Handlers.Auth,
                                         skewNow: Time, gcNow: Time, size: nat)

  function TokenOf(r: DeleteRequest): ReplayStore.Attempt {
    ReplayStore.Attempt(r.auth.ts, r.auth.nonce, r.auth.mac, ADelete, r.root, r.auth.reason, r.skewNow, r.gcNow, r.size)
  }

  /** The gate asks for a token: the label is in order and the root's tier protects it. */
  predicate Asks(s: Store, r: DeleteRequest) {
    var verified := RequireServiceCredential(r.who, r.keyOk);
    verified.Some? && NeedsToken(FetchTier(s, r.root), ADelete, r.who, verified.value)
  }

  /** Granted: the tier could be read, the label is in order, and a token that is asked for is accepted. */
  predicate Granted(signed: ReplayStore.Signer, s: Store, nonces: seq<ReplayStore.Line>, r: DeleteRequest, out: Outside) {
    && RequireServiceCredential(r.who, r.keyOk).Some? && out.gateOk
    && (Asks(s, r) ==> ReplayStore.Accepts(signed, nonces, TokenOf(r)))
  }

  /** By the stored tier and the caller's label: a claimed label is refused, a record that is locked for the
      caller needs a mac that signs "delete" for it and a nonce the last 600 s have not seen, everything else
      passes. */
  lemma GrantedIff(signed: ReplayStore.Signer, s: Store, nonces: seq<ReplayStore.Line>, r: DeleteRequest, out: Outside)
    ensures Granted(signed, s, nonces, r, out)
            <==> && out.gateOk && !(r.who in LABELS_TO_PROVE && !r.keyOk)
                 && (Locked(s, r.root, r.who, r.keyOk) ==>
                       && r.auth.nonce != "" && -300 <= r.skewNow - r.auth.ts <= 300
                       && signed(ReplayStore.Claim(r.auth.ts, r.auth.nonce, ADelete, r.root, r.auth.reason), r.auth.mac)
                       && forall t :: ReplayStore.Entry(r.auth.nonce, t) in nonces ==> t < r.gcNow - 600)
  {
    TokenNeededIff(s, r.root, ADelete, r.who, r.keyOk);
    hide Locked;
    ReplayStore.SeenIsMembership(nonces, r.auth.nonce, r.gcNow - ReplayStore.REPLAY_GC_SECONDS);
  }

  predicate Unprotected(s: Store, out: Outside, x: Id) {
    out.readOk(x) && !CascadeProtected(Get(s, x))
  }

  /** Every call of the request is answered, in full where there is no more than one page. */
  ghost predicate AllAnswered(s: Store, out: Outside, root: Id) {
    && (forall x :: out.readOk(x) && out.deletion(x).Fine?)
    && (forall c :: c == root || Above(s, root, c) ==> out.scroll(c).Page? && |Predecessors(s, c)| <= 100)
  }

  /** A chain member that can be read and is not protected goes, whether or not the answer of its deletion
      arrives; all others are reported. */
  ghost predicate ChainDeleted(s: Store, out: Outside, chain: seq<Id>, removed: seq<Id>, skipped: seq<Id>) {
    && (forall x :: x in removed <==> x in chain && Unprotected(s, out, x) && out.deletion(x) in {Handlers.Fine, Handlers.Lost})
    && (forall x :: x in skipped <==> x in chain && !Unprotected(s, out, x))
  }

  /** Every removed record is the root or an unprotected record hidden behind it. */
  ghost predicate OnlyChainGone(s: Store, r: DeleteRequest, removed: seq<Id>) {
    forall x :: x in removed && x != r.root ==> r.cascade && x in s && Above(s, r.root, x) && !Shielded(s, x)
  }

  /** The root and all unprotected records behind it are gone, exactly the protected ones are reported, and
      in a forest there are none of those. */
  ghost predicate WholeChainGone(s: Store, root: Id, removed: seq<Id>, skipped: seq<Id>) {
    && (forall x :: x in removed <==> x == root || (Above(s, root, x) && !Shielded(s, x)))
    && (forall x :: x in skipped <==> x != root && Above(s, root, x) && Shielded(s, x))
    && (ForestOk(s) ==> skipped == [] && forall x :: x in removed <==> x == root || Above(s, root, x))
  }

  /** The records, the audit ledger's delete intents and the nonce file. */
  class Memories {
    const signed: ReplayStore.Signer
    const file: ReplayStore.ReplayFile
    var points: Store
    var intents: seq<Id>

    constructor (signed: ReplayStore.Signer, points: Store)
      ensures this.signed == signed && this.points == points && intents == [] && fresh(file)
    {
      this.signed, this.points, intents := signed, points, [];
      file := new ReplayStore.ReplayFile();
    }

    /** One delete per chain member; what is protected or cannot be read is left and reported. */
    method DeleteChain(chain: seq<Id>, out: Outside) returns (removed: seq<Id>, skipped: seq<Id>)
      requires Distinct(chain)
      modifies this`points
      ensures points == old(points) - (set x | x in removed)
      ensures ChainDeleted(old(points), out, chain, removed, skipped)
    {
      removed, skipped := [], [];
      for i := 0 to |chain|
        invariant points == old(points) - (set x | x in removed)
        invariant ChainDeleted(old(points), out, chain[..i], removed, skipped)
      {
        var id := chain[i];
        assert chain[..i + 1] == chain[..i] + [id];
        assert id !in chain[..i];
        assert Get(points, id) == Get(old(points), id);
        var payload := if out.readOk(id) then Get(points, id) else None;
        if CascadeProtected(payload) {
          skipped := skipped + [id];
        } else if !out.deletion(id).Refused? {
          points := points - {id};
          removed := removed + [id];
        }
      }
      assert chain[..|chain|] == chain;
    }

    /** Walk the links, then delete what the walk collected. */
    method DeleteBehind(r: DeleteRequest, out: Outside) returns (removed: seq<Id>, skipped: seq<Id>)
      requires Answers(points, out.scroll) && r.cascade
      modifies this`points
      ensures points == old(points) - (set x | x in removed)
      ensures r.root !in removed && OnlyChainGone(old(points), r, removed) && OnlyChainGone(old(points), r, removed + [r.root])
      ensures AllAnswered(old(points), out, r.root) ==> WholeChainGone(old(points), r.root, removed + [r.root], skipped)
    {
      hide Above, Complete, ChainDeleted, WholeChainGone, OnlyChainGone, AllAnswered;
      var chain := Walk(points, out.scroll, r.root);
      removed, skipped := DeleteChain(chain, out);
      CascadeResult(old(points), out, r, chain, removed, skipped);
    }

    /** The token check of the gate, which burns the nonce of a token it accepts. */
    method Gate(r: DeleteRequest, out: Outside) returns (granted: bool)
      modifies file
      ensures granted == Granted(signed, points, old(file.lines), r, out)
      ensures file.lines == if out.gateOk && Asks(points, r) then ReplayStore.AfterAttempt(signed, old(file.lines), TokenOf(r))
                            else old(file.lines)
    {
      if !out.gateOk || RequireServiceCredential(r.who, r.keyOk).None? { return false; }
      granted := true;
      if Asks(points, r) { granted := file.Validate(signed, TokenOf(r)); }
    }

    /** The intent line comes before anything is removed; the root goes last. `removed` is what is gone from
        the store when the request ends. */
    method Delete(r: DeleteRequest, out: Outside) returns (outcome: Outcome, removed: seq<Id>, skipped: seq<Id>)
      requires Answers(points, out.scroll)
      modifies this, file
      ensures var granted := Granted(signed, old(points), old(file.lines), r, out);
              && (outcome == Denied <==> !granted)
              && (outcome == LedgerDown <==> granted && !out.intentOk)
              && (outcome == Deleted <==> granted && out.intentOk && out.deletion(r.root).Fine?)
              && (r.root in removed <==> granted && out.intentOk && out.deletion(r.root) in {Handlers.Fine, Handlers.Lost})
              && intents == (if granted && out.intentOk then old(intents) + [r.root] else old(intents))
              && (!granted || !out.intentOk ==> points == old(points) && removed == [])
      ensures file.lines == if out.gateOk && Asks(old(points), r)
                            then ReplayStore.AfterAttempt(signed, old(file.lines), TokenOf(r)) else old(file.lines)
      ensures points == old(points) - (set x | x in removed)
      ensures r.root in removed && Shielded(old(points), r.root) ==>
                || (&& ReplayStore.Accepts(signed, old(file.lines), TokenOf(r))
                    && signed(ReplayStore.Claim(r.auth.ts, r.auth.nonce, ADelete, r.root, r.auth.reason), r.auth.mac))
                || (EffTier(old(points)[r.root]) == Insight && r.keyOk && InsightAllowed(r.who))
      ensures OnlyChainGone(old(points), r, removed)
      ensures r.cascade && outcome == Deleted && AllAnswered(old(points), out, r.root)
              ==> WholeChainGone(old(points), r.root, removed, skipped)
    {
      hide Above, WholeChainGone, OnlyChainGone, Asks, Shielded, AllAnswered;
      removed, skipped := [], [];
      ShieldedAsks(points, r);
      NothingGone(points, r);
      var granted := Gate(r, out);
      if !granted { return Denied, removed, skipped; }
      if !out.intentOk { return LedgerDown, removed, skipped; }
      intents := intents + [r.root];
      if r.cascade { removed, skipped := DeleteBehind(r, out); }
      outcome := if out.deletion(r.root).Fine? then Deleted else StoreDown;
      if !out.deletion(r.root).Refused? {
        points := points - {r.root};
        removed := removed + [r.root];
        assert [] + [r.root] == [r.root];
      }
    }
  }

  predicate Shielded(s: Store, x: Id) { x in s && Protected(EffTier(s[x])) }

  lemma ShieldedAsks(s: Store, r: DeleteRequest)
    ensures Shielded(s, r.root) && RequireServiceCredential(r.who, r.keyOk).Some? && !Asks(s, r)
            ==> EffTier(s[r.root]) == Insight && r.keyOk && InsightAllowed(r.who)
    ensures Shielded(s, r.root) ==> r.root in s
  {
  }

  lemma NothingGone(s: Store, r: DeleteRequest)
    ensures OnlyChainGone(s, r, []) && OnlyChainGone(s, r, [r.root])
  {
  }

  lemma AboveIsStored(s: Store, root: Id, x: Id)
    requires Above(s, root, x)
    ensures x in s
  {
    var p :| LinkPath(s, p) && |p| >= 2 && p[0] == x && p[|p| - 1] == root;
    assert LinkAt(s, p[0], p[1]);
  }

  /** With every read answered and no page overflowing, the walk collects every record above the root. */
  lemma WalkIsWhole(s: Store, out: Outside, root: Id, chain: seq<Id>)
    requires Answers(s, out.scroll) && forall x :: x in chain ==> Above(s, root, x)
    requires (forall x :: Above(s, root, x) && x != root ==> x in chain)
             <==> forall c :: c == root || c in chain ==> Complete(s, out.scroll, root, c)
    ensures forall x :: Above(s, root, x) ==> x in s
    ensures AllAnswered(s, out, root) ==> forall x :: Above(s, root, x) && x != root ==> x in chain
  {
    forall x | Above(s, root, x) ensures x in s { AboveIsStored(s, root, x); }
    if AllAnswered(s, out, root) {
      forall c | c == root || c in chain ensures Complete(s, out.scroll, root, c) {
        SmallFanInIsComplete(s, out.scroll, root, c);
      }
    }
  }

  /** In a store whose links are a forest nothing above a record is protected, and no record is above
      itself: a fully answered cascade skips nothing. */
  lemma ForestHasNothingToSkip(s: Store, root: Id, x: Id)
    requires ForestOk(s) && Above(s, root, x)
    ensures x != root && !Shielded(s, x)
  {
    var p :| LinkPath(s, p) && |p| >= 2 && p[0] == x && p[|p| - 1] == root;
    assert LinkAt(s, p[0], p[1]);
  }

  lemma CascadeResult(s: Store, out: Outside, r: DeleteRequest, chain: seq<Id>, removed: seq<Id>, skipped: seq<Id>)
    requires Answers(s, out.scroll) && r.root !in chain && r.cascade
    requires forall x :: x in chain ==> x in s && Above(s, r.root, x)
    requires (forall x :: Above(s, r.root, x) && x != r.root ==> x in chain)
             <==> forall c :: c == r.root || c in chain ==> Complete(s, out.scroll, r.root, c)
    requires ChainDeleted(s, out, chain, removed, skipped)
    ensures r.root !in removed
    ensures OnlyChainGone(s, r, removed) && OnlyChainGone(s, r, removed + [r.root])
    ensures AllAnswered(s, out, r.root) ==> WholeChainGone(s, r.root, removed + [r.root], skipped)
  {
    hide Above, Complete;
    WalkIsWhole(s, out, r.root, chain);
    NothingShielded(s, r.root);
    if skipped != [] { assert skipped[0] in skipped; }
  }

  lemma NothingShielded(s: Store, root: Id)
    ensures ForestOk(s) ==> forall x :: Above(s, root, x) ==> x != root && !Shielded(s, x)
  {
    if ForestOk(s) {
      forall x | Above(s, root, x) ensures x != root && !Shielded(s, x) { ForestHasNothingToSkip(s, root, x); }
    }
  }
}