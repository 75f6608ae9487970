/** A race that the loop wins (src/engine.rs): in the cast of `RaceStage`, every run in which the loop has its turn
    before the node beside it goes well. */
module LoopFirst {

  import opened Workflows
  import opened LoopLayout
  import opened NodeRuns
  import opened LoopBatches
  import opened RunLists
  import opened RunLogs
  import opened LoopTrees
  import opened RunsAgree
  import opened Schedules
  import opened RaceStage
  import opened RaceTurns

  // ---- Where feeder, loop and watching node lie -----------------------------------------------------------------

  lemma OwnersAreLoops(t: Setup, order: seq<NodeInstance>, x: NodeId)
    requires Planned(t, order) && x in t.owner
    ensures !PlainId(t, t.owner[x])
  {
    assert IsOwner(t.w, x, t.owner[x]);
  }

  /** A plain node owns nothing. */
  lemma PlainTree(t: Setup, order: seq<NodeInstance>, id: NodeId, x: NodeId)
    requires Planned(t, order) && PlainId(t, id) && x in Within(t, id)
    ensures x == id
  {
    if x != id {
      var m := BranchOf(t, x, id);
      OwnersAreLoops(t, order, m);
    }
  }

  lemma {:induction false} WithinAll(t: Setup, x: NodeId, m: NodeId, id: NodeId, p: seq<NodeId>)
    requires x in Within(t, m) && Climbs(t.owner, p) && p[0] == m && p[|p| - 1] == id
    ensures x in Within(t, id)
    decreases |p|
  {
    if |p| > 1 {
      ClimbStep(t.owner, p, 0);
      InsideAlso(t, x, m, p[1]);
      Dropped(t.owner, p, 1);
      WithinAll(t, x, p[1], id, p[1..]);
    }
  }

  /** Trees lie inside the trees of their roots' trees. */
  lemma Nests(t: Setup, x: NodeId, m: NodeId, id: NodeId)
    requires x in Within(t, m) && m in Within(t, id)
    ensures x in Within(t, id)
  {
    var p :| Climbs(t.owner, p) && p[0] == m && p[|p| - 1] == id;
    WithinAll(t, x, m, id, p);
  }

  /** A tree that holds the feeder, but is not its own, holds the watching node too. */
  lemma FeederWithWatcher(t: Setup, order: seq<NodeInstance>, g: Race, id: NodeId)
    requires Racing(t, order, g) && g.f in Within(t, id) && g.f != id
    ensures g.lp in Within(t, id) && g.q in Within(t, id)
  {
    OwnerInTree(t, g.f, id);
    OwnedInTree(t, g.lp, id);
    Nests(t, g.q, g.lp, id);
  }

  /** In a list, one tree holds a node. */
  lemma OneTree(t: Setup, order: seq<NodeInstance>, at: Option<NodeId>, m: NodeInstance, n: NodeInstance, x: NodeId)
    requires Planned(t, order) && m in ListAt(t, order, at) && n in ListAt(t, order, at)
    requires x in Within(t, m.id) && x in Within(t, n.id)
    ensures m.id == n.id
  {
    Listing(t, order, at, m);
    Listing(t, order, at, n);
    if m.id != n.id { TreesApart(t, order, m.id, n.id, x); }
  }

  /** A place the feeder's marker must not have reached before its list runs: where the watching node runs without the
      feeder, and the feeder's own list. */
  ghost predicate MustBeUnmarked(t: Setup, g: Race, at: Option<NodeId>) {
    at == OwnerOf(t.owner, g.f) || (g.q in Under(t, at) && g.f !in Under(t, at))
  }

  lemma FeederUnderOwner(t: Setup, order: seq<NodeInstance>, g: Race)
    requires Racing(t, order, g)
    ensures g.f in Under(t, OwnerOf(t.owner, g.f))
  {
    InOwnTree(t, g.f);
    NodeUnder(t, order, OwnerOf(t.owner, g.f), g.f, g.f);
  }

  /** In the feeder's own list only the feeder's tree is the feeder's. */
  lemma NotFeeders(t: Setup, order: seq<NodeInstance>, g: Race, n: NodeInstance)
    requires Racing(t, order, g) && n in ListAt(t, order, OwnerOf(t.owner, g.f)) && n.id != g.f
    ensures g.f !in Within(t, n.id)
  {
    Listing(t, order, OwnerOf(t.owner, g.f), n);
    InOwnTree(t, g.f);
    TreesApart(t, order, g.f, n.id, g.f);
  }

  /** The list's node whose tree holds the watching node, without the feeder: its place must be unmarked, and in the
      feeder's own list it is the loop beside it. */
  lemma WatcherPlace(t: Setup, order: seq<NodeInstance>, g: Race, at: Option<NodeId>, n: NodeInstance)
    requires Racing(t, order, g) && n in ListAt(t, order, at) && g.q in Within(t, n.id) && g.f !in Within(t, n.id)
    ensures MustBeUnmarked(t, g, at)
    ensures at == OwnerOf(t.owner, g.f) ==> n.id == g.lp
    ensures at != OwnerOf(t.owner, g.f) ==> g.f !in Under(t, at)
  {
    TreeUnder(t, order, at, n);
    Listing(t, order, at, n);
    if at == OwnerOf(t.owner, g.f) {
      if n.id != g.lp { TreesApart(t, order, n.id, g.lp, g.q); }
    } else if g.f in Under(t, at) {
      var i := BranchIndex(t, order, at, g.f);
      var m := ListAt(t, order, at)[i];
      Listing(t, order, at, m);
      FeederWithWatcher(t, order, g, m.id);
      OneTree(t, order, at, m, n, g.q);
    }
  }

  // ---- The loop before the feeder: all goes well ----------------------------------------------------------------

  /** The feeder's turn has not come, or it is not in this list: the marker is where it was at the start. */
  lemma {:induction false} StillUnmarked(t: Setup, order: seq<NodeInstance>, g: Race, late: set<NodeId>,
      at: Option<NodeId>, a: Log, k: nat)
    requires Racing(t, order, g) && g.f in late && g.lp !in late
    requires IsRun(t, order, at, a) && RunFollows(t, order, late, at, a.turns) && k < |a.turns|
    requires a.turns[k].index < |ListAt(t, order, at)| && MustBeUnmarked(t, g, at) ==> !Marked(g, a.start)
    requires a.turns[k].index < |ListAt(t, order, at)|
    requires g.q in Within(t, NodeAt(t, order, at, a, k).id) && g.f !in Within(t, NodeAt(t, order, at, a, k).id)
    ensures !Marked(g, a.turns[k].before)
  {
    var n := NodeAt(t, order, at, a, k);
    WatcherPlace(t, order, g, at, n);
    TurnFacts(t, order, at, a, k);
    if g.f !in Under(t, at) {
      OuterKept(t, order, at, a, k, g.f);
    } else {
      forall j | 0 <= j < k ensures Spares(t, order, at, a, j, g.f) { FeederNotYet(t, order, g, late, at, a, j, k); }
      KeptBy(t, order, at, a, 0, k, g.f);
    }
    SameArrivals(a.start, a.turns[k].before, g.c);
  }

  lemma {:induction false} FeederNotYet(t: Setup, order: seq<NodeInstance>, g: Race, late: set<NodeId>,
      at: Option<NodeId>, a: Log, j: nat, k: nat)
    requires Racing(t, order, g) && g.f in late && g.lp !in late && at == OwnerOf(t.owner, g.f)
    requires IsRun(t, order, at, a) && RunFollows(t, order, late, at, a.turns) && j < k < |a.turns|
    requires a.turns[k].index < |ListAt(t, order, at)| && NodeAt(t, order, at, a, k).id == g.lp
    ensures Spares(t, order, at, a, j, g.f)
  {
    TurnFacts(t, order, at, a, j);
    var m := NodeAt(t, order, at, a, j);
    if m.id == g.f {
      LateTurnsLast(t, order, late, at, a, k, j);
    } else {
      NotFeeders(t, order, g, m);
    }
  }

  /** The first `k` turns went well and left the marker nowhere but on the feeder's output. */
  ghost predicate WellSoFar(g: Race, a: Log, k: nat)
    requires k <= |a.turns|
  {
    Clear(g, StateAt(a.start, a.turns, k)) && forall j :: 0 <= j < k ==> a.turns[j].ok
  }

  lemma {:induction false} RunGoes(t: Setup, order: seq<NodeInstance>, g: Race, late: set<NodeId>, at: Option<NodeId>,
      a: Log)
    requires Racing(t, order, g) && g.f in late && g.lp !in late
    requires IsRun(t, order, at, a) && RunFollows(t, order, late, at, a.turns) && Clear(g, a.start)
    requires MustBeUnmarked(t, g, at) ==> !Marked(g, a.start)
    ensures a.ok && Clear(g, a.end)
    decreases a.turns, 2
  {
    forall k | 0 <= k < |a.turns| ensures GoesOn(g, a, k) {
      if WellSoFar(g, a, k) { OneMoreGoes(t, order, g, late, at, a, k); }
    }
    AllGo(g, a, |a.turns|);
    RunParts(t, order, at, a);
  }

  ghost predicate GoesOn(g: Race, a: Log, k: nat)
    requires k < |a.turns|
  {
    WellSoFar(g, a, k) ==> WellSoFar(g, a, k + 1)
  }

  lemma {:induction false} AllGo(g: Race, a: Log, k: nat)
    requires k <= |a.turns| && Clear(g, a.start) && forall j :: 0 <= j < k ==> GoesOn(g, a, j)
    ensures WellSoFar(g, a, k)
  {
    if k > 0 {
      AllGo(g, a, k - 1);
      assert GoesOn(g, a, k - 1);
    }
  }

  lemma {:induction false} OneMoreGoes(t: Setup, order: seq<NodeInstance>, g: Race, late: set<NodeId>,
      at: Option<NodeId>, a: Log, k: nat)
    requires Racing(t, order, g) && g.f in late && g.lp !in late
    requires IsRun(t, order, at, a) && RunFollows(t, order, late, at, a.turns)
    requires MustBeUnmarked(t, g, at) ==> !Marked(g, a.start)
    requires k < |a.turns| && WellSoFar(g, a, k)
    ensures WellSoFar(g, a, k + 1)
    decreases a.turns, 1
  {
    TurnFacts(t, order, at, a, k);
    var n := NodeAt(t, order, at, a, k);
    FollowsAt(t, order, late, at, a.turns, k);
    if g.q in Within(t, n.id) && g.f !in Within(t, n.id) { StillUnmarked(t, order, g, late, at, a, k); }
    TurnGoes(t, order, g, late, n, a.turns[k]);
    NextWell(g, a, k);
  }

  lemma NextWell(g: Race, a: Log, k: nat)
    requires k < |a.turns| && WellSoFar(g, a, k) && a.turns[k].ok && Clear(g, a.turns[k].after)
    ensures WellSoFar(g, a, k + 1)
  {
  }

  lemma {:induction false} TurnGoes(t: Setup, order: seq<NodeInstance>, g: Race, late: set<NodeId>, n: NodeInstance,
      u: Turn)
    requires Racing(t, order, g) && g.f in late && g.lp !in late
    requires n in t.w.nodes && TurnRan(t, order, n, u) && TurnFollows(t, order, late, n, u) && Clear(g, u.before)
    requires g.q in Within(t, n.id) && g.f !in Within(t, n.id) ==> !Marked(g, u.before)
    ensures u.ok && Clear(g, u.after)
    decreases u, 3
  {
    if IsLoop(n) {
      LoopOutcome(t, order, g, u.before, n);
      if NodeOutcome(t, u.before, n).EntersLoop? {
        LoopGoes(t, order, g, late, n, Gather(t.Links(), u.before, n.id), u);
      } else {
        SkippingKeepsClear(g, u.before, n.id);
      }
    } else {
      PlainNodeGoes(t, order, g, n, u);
    }
  }

  lemma {:induction false} PlainNodeGoes(t: Setup, order: seq<NodeInstance>, g: Race, n: NodeInstance, u: Turn)
    requires Racing(t, order, g) && n in t.w.nodes && !IsLoop(n) && TurnRan(t, order, n, u) && Clear(g, u.before)
    requires g.q in Within(t, n.id) && g.f !in Within(t, n.id) ==> !Marked(g, u.before)
    ensures u.ok && Clear(g, u.after)
  {
    if n.id == g.q {
      InOwnTree(t, g.q);
      NotSelf(t, order, g);
      if g.f in Within(t, g.q) { PlainTree(t, order, g.q, g.f); }
    }
    PlainTurnGoes(t, order, g, n, u);
  }

  ghost predicate PassesWell(g: Race, u: Turn, k: nat)
    requires k <= |u.passes|
  {
    && Clear(g, PassState(u.before, u.passes, k)) && ClearPasses(g, u.passes[..k])
    && forall j :: 0 <= j < k ==> u.passes[j].ok
  }

  lemma {:induction false} LoopGoes(t: Setup, order: seq<NodeInstance>, g: Race, late: set<NodeId>, n: NodeInstance,
      input: seq<Item>, u: Turn)
    requires Racing(t, order, g) && g.f in late && g.lp !in late
    requires n in t.w.nodes && IsLoop(n) && LoopRan(t, order, n, input, u) && input == Gather(t.Links(), u.before, n.id)
    requires TurnFollows(t, order, late, n, u) && Clear(g, u.before)
    requires g.q in Within(t, n.id) && g.f !in Within(t, n.id) ==> !Marked(g, u.before)
    ensures u.ok && Clear(g, u.after)
    decreases u, 2
  {
    LoopsUnmarked(t, order, g, u.before, n);
    LoopRanParts(t, order, n, input, u);
    forall k | 0 <= k < |u.passes| ensures PassGoesOn(g, u, k) {
      if PassesWell(g, u, k) { OnePassGoes(t, order, g, late, n, input, u, k); }
    }
    AllPassesGo(g, u, |u.passes|);
    LoopEndsWell(t, order, g, n, input, u);
  }

  ghost predicate PassGoesOn(g: Race, u: Turn, k: nat)
    requires k < |u.passes|
  {
    PassesWell(g, u, k) ==> PassesWell(g, u, k + 1)
  }

  lemma {:induction false} AllPassesGo(g: Race, u: Turn, k: nat)
    requires k <= |u.passes| && Clear(g, u.before) && forall j :: 0 <= j < k ==> PassGoesOn(g, u, j)
    ensures PassesWell(g, u, k)
  {
    if k > 0 {
      AllPassesGo(g, u, k - 1);
      assert PassGoesOn(g, u, k - 1);
    }
  }

  lemma {:induction false} LoopEndsWell(t: Setup, order: seq<NodeInstance>, g: Race, n: NodeInstance, input: seq<Item>,
      u: Turn)
    requires Racing(t, order, g) && n in t.w.nodes && IsLoop(n) && LoopRan(t, order, n, input, u)
    requires PassesWell(g, u, |u.passes|)
    ensures u.ok && Clear(g, u.after)
  {
    LoopRanParts(t, order, n, input, u);
    WellIsOk(g, n, input, u);
    EndsClear(t, order, g, n, PassState(u.before, u.passes, |u.passes|), u.passes);
  }

  lemma WellIsOk(g: Race, n: NodeInstance, input: seq<Item>, u: Turn)
    requires PassesWell(g, u, |u.passes|) && (!u.ok ==> LoopBroke(n, input, u))
    ensures u.ok && ClearPasses(g, u.passes) && Clear(g, PassState(u.before, u.passes, |u.passes|))
  {
    if !u.ok { LastOfBroken(n, input, u); }
    assert u.passes[..|u.passes|] == u.passes;
  }

  lemma {:induction false} EndsClear(t: Setup, order: seq<NodeInstance>, g: Race, n: NodeInstance, st: RunState,
      passes: seq<Pass>)
    requires Racing(t, order, g) && n in t.w.nodes && IsLoop(n) && Clear(g, st) && ClearPasses(g, passes)
    ensures Clear(g, AfterPasses(st, Totals(OwnedNodes(t, order, n), passes), n.id,
        Done(BackLinksInto(t.w.connections, t.back, n.id), passes)))
  {
    var body, links := OwnedNodes(t, order, n), BackLinksInto(t.w.connections, t.back, n.id);
    TotalsClear(g, body, passes);
    DoneUnmarked(t, order, g, n, passes);
    AfterPassesClear(g, st, Totals(body, passes), n.id, Done(links, passes));
  }

  /** A pass begins with the feeder's entries cleared, or as they were before the loop's turn. */
  lemma {:induction false} PassBegins(t: Setup, order: seq<NodeInstance>, g: Race, n: NodeInstance, u: Turn, k: nat)
    requires Racing(t, order, g) && n in t.w.nodes && IsLoop(n) && PassesRan(t, order, n, u.before, u.passes)
    requires k < |u.passes|
    requires g.q in Within(t, n.id) && g.f !in Within(t, n.id) ==> !Marked(g, u.before)
    requires MustBeUnmarked(t, g, Some(n.id))
    ensures !Marked(g, PassLog(t, order, n, u.passes[k]).start)
  {
    var body := OwnedNodes(t, order, n);
    PassIn(t, order, n, u.before, u.passes, k);
    FeederIsPlain(t, order, g, n);
    if Some(n.id) == OwnerOf(t.owner, g.f) {
      InList(t, order, Some(n.id), g.f);
      ClearedUnmarked(g, u.passes[k].before, body, n.id, u.passes[k].batch);
    } else {
      UnderLoop(t, n.id, g.f);
      UnderLoop(t, n.id, g.q);
      NotListed(t, order, n.id, g.f);
      PassesStayWithin(t, order, n, u, k, g.f);
      SameArrivals(u.before, u.passes[k].before, g.c);
      UntouchedByBeginning(g, u.passes[k].before, body, n.id, u.passes[k].batch);
    }
  }

  lemma ClearedUnmarked(g: Race, st: RunState, body: seq<NodeInstance>, lp: NodeId, batch: seq<Item>)
    requires g.c.fromNode == g.f && g.f in Ids(body) && g.f != lp
    ensures !Marked(g, BeforePass(st, body, lp, batch))
  {
  }

  lemma UntouchedByBeginning(g: Race, st: RunState, body: seq<NodeInstance>, lp: NodeId, batch: seq<Item>)
    requires g.c.fromNode == g.f && g.f !in Ids(body) && g.f != lp
    ensures Marked(g, BeforePass(st, body, lp, batch)) <==> Marked(g, st)
  {
  }

  lemma FeederIsPlain(t: Setup, order: seq<NodeInstance>, g: Race, n: NodeInstance)
    requires Racing(t, order, g) && n in t.w.nodes && IsLoop(n)
    ensures n.id != g.f && n.id != g.q
  {
    assert PlainId(t, g.f) && PlainId(t, g.q);
  }

  lemma UnderLoop(t: Setup, lp: NodeId, x: NodeId)
    ensures x in Under(t, Some(lp)) <==> x in Within(t, lp) && x != lp
  {
  }

  lemma NotListed(t: Setup, order: seq<NodeInstance>, lp: NodeId, x: NodeId)
    requires Planned(t, order) && x !in Within(t, lp)
    ensures x !in Ids(ListAt(t, order, Some(lp)))
  {
    NotOwned(t, order, lp, x);
  }

  lemma {:induction false} OnePassGoes(t: Setup, order: seq<NodeInstance>, g: Race, late: set<NodeId>, n: NodeInstance,
      input: seq<Item>, u: Turn, k: nat)
    requires Racing(t, order, g) && g.f in late && g.lp !in late
    requires n in t.w.nodes && IsLoop(n) && LoopTurn(t, order, n, input, u) && Mark(g) !in input
    requires TurnFollows(t, order, late, n, u)
    requires g.q in Within(t, n.id) && g.f !in Within(t, n.id) ==> !Marked(g, u.before)
    requires k < |u.passes| && PassesWell(g, u, k)
    ensures PassesWell(g, u, k + 1)
    decreases u, 1
  {
    var p := u.passes[k];
    var a := PassLog(t, order, n, p);
    var queue := QueueOf(t, order, n, input, u);
    PassIn(t, order, n, u.before, u.passes, k);
    PassIsRun(t, order, n, p);
    PassFollows(t, order, late, n, u, k);
    BatchUnmarked(g, u.passes, queue, input, BatchSize(n.parameters), k);
    PassBeginsClear(t, g, p.before, OwnedNodes(t, order, n), n.id, p.batch);
    if MustBeUnmarked(t, g, Some(n.id)) { PassBegins(t, order, g, n, u, k); }
    RunGoes(t, order, g, late, Some(n.id), a);
    NextClear(g, u.passes, k);
  }

  lemma NextClear(g: Race, passes: seq<Pass>, k: nat)
    requires k < |passes| && ClearPasses(g, passes[..k]) && Clear(g, passes[k].after)
    ensures ClearPasses(g, passes[..k + 1])
  {
    var now := passes[..k + 1];
    forall j | 0 <= j < |now| ensures Clear(g, now[j].after) {
      if j < k { assert passes[..k][j] == passes[j]; }
    }
  }
}
