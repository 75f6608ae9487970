/** A race that the feeder wins (src/engine.rs): in the cast of `RaceStage`, every run in which the feeder has its turn
    before the loop beside it fails. */
module FeederFirst {

  import opened Workflows
  import opened TopologicalOrder
  import opened NodeRuns
  import opened LoopBatches
  import opened RunLists
  import opened RunLogs
  import opened LoopTrees
  import opened RunsAgree
  import opened Schedules
  import opened RaceStage
  import opened RaceTurns
  import opened LoopFirst

  // ---- Items arrive along live paths ----------------------------------------------------------------------------

  /** The loop offers items on its output 1. */
  ghost predicate Offers(st: RunState, lp: NodeId) {
    PortItems(OutputOf(st, lp), 1) != []
  }

  /** The items come from elsewhere than feeder and watching node. */
  ghost predicate Aside(g: Race, p: seq<NodeId>) {
    forall i :: 0 <= i < |p| - 1 ==> p[i] != g.f && p[i] != g.q
  }

  lemma {:induction false} Arrives(t: Setup, st: RunState, d: Connection, id: NodeId)
    requires d in t.Links() && d.toNode == id && Arrived(st, d) != []
    ensures Gather(t.Links(), st, id) != []
  {
    Gathered(t.Links(), st, id, Arrived(st, d)[0]);
  }

  lemma SendsOn(t: Setup, order: seq<NodeInstance>, at: Option<NodeId>, p: seq<NodeId>, i: nat)
    requires LivePath(t, order, at, p) && i + 1 < |p|
    ensures SendsTo(t, p[i], p[i + 1]) && PlainId(t, p[i])
  {
    assert SendsTo(t, p[i], p[i + 1]);
  }

  lemma LiveFront(t: Setup, order: seq<NodeInstance>, at: Option<NodeId>, p: seq<NodeId>)
    requires LivePath(t, order, at, p) && |p| > 1
    ensures LivePath(t, order, at, p[..|p| - 1])
  {
    var q := p[..|p| - 1];
    var c := LastOfPath(t, at, p);
    forall i, k | 0 <= i < k == i + 1 < |q| ensures SendsTo(t, q[i], q[k]) && PlainId(t, q[i]) {
      SendsOn(t, order, at, p, i);
    }
    assert LivePath(t, order, at, q);
  }

  lemma StartUnfed(t: Setup, order: seq<NodeInstance>)
    requires Planned(t, order) && order != []
    ensures !HasIncoming(t.Links(), order[0].id)
  {
    forall d | d in t.Links() ensures d.toNode != order[0].id {
      LinkEnds(t, d);
      var n :| n in t.w.nodes && n.id == d.fromNode;
      OrderNodes(t, order, n);
      var i :| 0 <= i < |order| && order[i] == n;
    }
  }

  /** An entry of a list has items as soon as the list runs. */
  lemma {:induction false} EntryGets(t: Setup, order: seq<NodeInstance>, at: Option<NodeId>, a: Log, k: nat)
    requires IsRun(t, order, at, a) && k < |a.turns| && a.turns[k].index < |ListAt(t, order, at)|
    requires Entry(t, order, at, NodeAt(t, order, at, a, k).id) && (at.Some? ==> Offers(a.start, at.value))
    ensures Ready(t, a.turns[k].before, NodeAt(t, order, at, a, k).id)
    ensures at.Some? ==> Gather(t.Links(), a.turns[k].before, NodeAt(t, order, at, a, k).id) != []
  {
    var id := NodeAt(t, order, at, a, k).id;
    if at.None? {
      StartUnfed(t, order);
    } else {
      var d :| d in t.Links() && d.fromNode == at.value && d.fromOutput == 1 && !d.error && d.toNode == id;
      UnderLoop(t, at.value, at.value);
      OuterKept(t, order, at, a, k, at.value);
      TurnFacts(t, order, at, a, k);
      SameArrivals(a.start, a.turns[k].before, d);
      Arrives(t, a.turns[k].before, d, id);
    }
  }

  /** What a plain node with items sends is there when the next node has its turn. */
  lemma {:induction false} SenderReaches(t: Setup, order: seq<NodeInstance>, g: Race, at: Option<NodeId>, a: Log,
      m: nat, k: nat, d: Connection)
    requires Racing(t, order, g) && IsRun(t, order, at, a) && m < k < |a.turns|
    requires a.turns[m].index < |ListAt(t, order, at)| && NodeAt(t, order, at, a, m).id == d.fromNode
    requires PlainId(t, d.fromNode) && d.fromNode != g.f && d.fromNode != g.q && Ready(t, a.turns[m].before, d.fromNode)
    requires d in t.Links() && !d.error
    ensures Gather(t.Links(), a.turns[k].before, d.toNode) != []
  {
    var n := NodeAt(t, order, at, a, m);
    TurnFacts(t, order, at, a, m);
    TurnFacts(t, order, at, a, k);
    LinkEnds(t, d);
    OthersSend(t, order, g, n, a.turns[m], d);
    InOwnTree(t, n.id);
    OwnAfter(t, order, at, a, m, k, n.id);
    SameArrivals(a.turns[m].after, a.turns[k].before, d);
    Arrives(t, a.turns[k].before, d, d.toNode);
  }

  lemma LastSend(t: Setup, order: seq<NodeInstance>, at: Option<NodeId>, p: seq<NodeId>) returns (d: Connection)
    requires LivePath(t, order, at, p) && |p| > 1
    ensures d in t.Links() && d.fromNode == p[|p| - 2] && d.toNode == p[|p| - 1] && !d.error
    ensures OwnerOf(t.owner, d.fromNode) == at && PlainId(t, d.fromNode)
  {
    SendsOn(t, order, at, p, |p| - 2);
    d :| d in t.Links() && d.fromNode == p[|p| - 2] && d.toNode == p[|p| - 1] && !d.error;
    assert p[|p| - 2] in p;
  }

  lemma {:induction false} PathGets(t: Setup, order: seq<NodeInstance>, g: Race, at: Option<NodeId>, a: Log, k: nat,
      p: seq<NodeId>)
    requires Racing(t, order, g) && IsRun(t, order, at, a) && k < |a.turns| && a.turns[k].index < |ListAt(t, order, at)|
    requires LivePath(t, order, at, p) && p[|p| - 1] == NodeAt(t, order, at, a, k).id && Aside(g, p)
    requires at.Some? ==> Offers(a.start, at.value)
    ensures Ready(t, a.turns[k].before, NodeAt(t, order, at, a, k).id)
    ensures at.Some? || |p| > 1 ==> Gather(t.Links(), a.turns[k].before, NodeAt(t, order, at, a, k).id) != []
    decreases |p|
  {
    if |p| == 1 {
      EntryGets(t, order, at, a, k);
    } else {
      var d := LastSend(t, order, at, p);
      var m := FeederTurn(t, order, at, a, k, d);
      LiveFront(t, order, at, p);
      AsideFront(g, p);
      PathGets(t, order, g, at, a, m, p[..|p| - 1]);
      SenderReaches(t, order, g, at, a, m, k, d);
    }
  }

  lemma AsideFront(g: Race, p: seq<NodeId>)
    requires Aside(g, p) && |p| > 1
    ensures Aside(g, p[..|p| - 1]) && p[..|p| - 1][|p| - 2] == p[|p| - 2] && p[|p| - 2] != g.f && p[|p| - 2] != g.q
  {
  }

  // ---- The live paths that matter stay aside --------------------------------------------------------------------

  lemma WatcherElsewhere(t: Setup, order: seq<NodeInstance>, g: Race, id: NodeId)
    requires Racing(t, order, g) && g.q in Within(t, id) && g.q != id
    ensures OwnerOf(t.owner, g.q) != OwnerOf(t.owner, id)
  {
    InOwnTree(t, g.q);
    if OwnerOf(t.owner, g.q) == OwnerOf(t.owner, id) { TreesApart(t, order, g.q, id, g.q); }
  }

  /** Up to its first visit to the feeder a path avoids the feeder. */
  lemma {:induction false} FirstVisit(t: Setup, order: seq<NodeInstance>, at: Option<NodeId>, x: NodeId, p: seq<NodeId>)
    returns (q: seq<NodeId>)
    requires LivePath(t, order, at, p) && p[|p| - 1] == x
    ensures LivePath(t, order, at, q) && q[|q| - 1] == x && forall i :: 0 <= i < |q| - 1 ==> q[i] != x
    decreases |p|
  {
    if i :| 0 <= i < |p| - 1 && p[i] == x {
      var front := LiveUpTo(t, order, at, p, i);
      q := FirstVisit(t, order, at, x, front);
    } else {
      q := p;
    }
  }

  lemma {:induction false} LiveUpTo(t: Setup, order: seq<NodeInstance>, at: Option<NodeId>, p: seq<NodeId>, i: nat)
    returns (q: seq<NodeId>)
    requires LivePath(t, order, at, p) && i < |p|
    ensures LivePath(t, order, at, q) && |q| == i + 1 && q[i] == p[i]
    decreases |p|
  {
    if i == |p| - 1 {
      q := p;
    } else {
      LiveFront(t, order, at, p);
      q := LiveUpTo(t, order, at, p[..|p| - 1], i);
    }
  }

  /** The feeder, when it has its turn, has items. */
  lemma {:induction false} FeederGets(t: Setup, order: seq<NodeInstance>, g: Race, at: Option<NodeId>, a: Log, k: nat)
    requires Racing(t, order, g) && IsRun(t, order, at, a) && k < |a.turns| && a.turns[k].index < |ListAt(t, order, at)|
    requires NodeAt(t, order, at, a, k).id == g.f && (at.Some? ==> Offers(a.start, at.value))
    ensures Ready(t, a.turns[k].before, g.f)
  {
    TurnFacts(t, order, at, a, k);
    var p :| LivePath(t, order, at, p) && p[|p| - 1] == g.f;
    var q := FirstVisit(t, order, at, g.f, p);
    PlainBeside(t, order, g);
    WatcherElsewhere(t, order, g, g.lp);
    PathGets(t, order, g, at, a, k, q);
  }

  lemma PlainBeside(t: Setup, order: seq<NodeInstance>, g: Race)
    requires Racing(t, order, g)
    ensures g.q != g.lp && g.f != g.lp
  {
    var n :| n in t.w.nodes && IsLoop(n) && n.id == g.lp;
    FeederIsPlain(t, order, g, n);
  }

  lemma {:induction false} NotThroughFeeder(t: Setup, g: Race, at: Option<NodeId>, p: seq<NodeId>)
    requires ListPath(t, at, p) && |p| > 0 && p[|p| - 1] == g.lp && !Before(t, g.f, g.lp)
    ensures forall i :: 0 <= i < |p| - 1 ==> p[i] != g.f
  {
    if i :| 0 <= i < |p| - 1 && p[i] == g.f {
      SubPath(t.Links(), p, i, |p|);
      var q := p[i..|p|];
      assert q[0] == g.f && q[|q| - 1] == g.lp;
      assert ListPath(t, OwnerOf(t.owner, g.lp), q);
    }
  }

  /** A loop around the watching node is the one beside the feeder, or in another list. */
  lemma AroundWatcher(t: Setup, order: seq<NodeInstance>, g: Race, m: NodeId)
    requires Racing(t, order, g) && g.q in Within(t, m) && OwnerOf(t.owner, m) == OwnerOf(t.owner, g.f)
    ensures m == g.lp
  {
    if m != g.lp { TreesApart(t, order, m, g.lp, g.q); }
  }

  /** A live path to a loop around the watching node does not go through feeder or watching node. */
  lemma LoopPathAside(t: Setup, order: seq<NodeInstance>, g: Race, m: NodeId, p: seq<NodeId>)
    requires Racing(t, order, g) && Untied(t, g) && g.q in Within(t, m) && m != g.q
    requires LivePath(t, order, OwnerOf(t.owner, m), p) && p[|p| - 1] == m
    ensures Aside(g, p)
  {
    WatcherElsewhere(t, order, g, m);
    if OwnerOf(t.owner, m) == OwnerOf(t.owner, g.f) {
      AroundWatcher(t, order, g, m);
      NotThroughFeeder(t, g, OwnerOf(t.owner, m), p);
    }
    forall i | 0 <= i < |p| - 1 ensures p[i] != g.f && p[i] != g.q { assert p[i] in p; }
  }

  lemma LivePathTo(t: Setup, order: seq<NodeInstance>, g: Race, n: NodeInstance) returns (p: seq<NodeId>)
    requires Racing(t, order, g) && n in t.w.nodes && IsLoop(n) && g.q in Within(t, n.id)
    ensures LivePath(t, order, OwnerOf(t.owner, n.id), p) && p[|p| - 1] == n.id
    ensures OwnerOf(t.owner, n.id).None? ==> |p| > 1
  {
    assert LoopId(t, n.id);
    p :| LivePath(t, order, OwnerOf(t.owner, n.id), p) && p[|p| - 1] == n.id;
    assert |p| == 1 ==> p[0] == n.id;
  }

  /** A loop around the watching node has items when it has its turn. */
  lemma {:induction false} LoopGets(t: Setup, order: seq<NodeInstance>, g: Race, at: Option<NodeId>, a: Log, k: nat)
    requires Racing(t, order, g) && Untied(t, g) && IsRun(t, order, at, a) && k < |a.turns|
    requires a.turns[k].index < |ListAt(t, order, at)|
    requires IsLoop(NodeAt(t, order, at, a, k)) && g.q in Within(t, NodeAt(t, order, at, a, k).id)
    requires at.Some? ==> Offers(a.start, at.value)
    ensures Gather(t.Links(), a.turns[k].before, NodeAt(t, order, at, a, k).id) != []
  {
    var n := NodeAt(t, order, at, a, k);
    TurnFacts(t, order, at, a, k);
    FeederIsPlain(t, order, g, n);
    var p := LivePathTo(t, order, g, n);
    LoopPathAside(t, order, g, n.id, p);
    PathGets(t, order, g, at, a, k, p);
  }

  // ---- The first pass -------------------------------------------------------------------------------------------

  /** A loop's turn that went well, with items, made a first pass that went well. */
  lemma {:induction false} FirstPass(t: Setup, order: seq<NodeInstance>, g: Race, n: NodeInstance, u: Turn)
    requires Racing(t, order, g) && n in t.w.nodes && IsLoop(n) && TurnRan(t, order, n, u) && u.ok
    requires Gather(t.Links(), u.before, n.id) != []
    ensures u.passes != [] && u.passes[0].before == u.before
    ensures IsRun(t, order, Some(n.id), PassLog(t, order, n, u.passes[0])) && u.passes[0].ok
    ensures Offers(PassLog(t, order, n, u.passes[0]).start, n.id)
  {
    var input := Gather(t.Links(), u.before, n.id);
    LoopOutcome(t, order, g, u.before, n);
    LoopParts(t, order, n, input, u);
    assert Sent(u.passes) + [] == Sent(u.passes);
    AllPassesOk(u);
    PassIn(t, order, n, u.before, u.passes, 0);
    PassIsRun(t, order, n, u.passes[0]);
  }

  // ---- The feeder before the loop: it fails ---------------------------------------------------------------------

  /** Under a loop whose body hears the marker some turn fails. */
  lemma {:induction false} MarkedFails(t: Setup, order: seq<NodeInstance>, g: Race, at: Option<NodeId>, a: Log)
    requires Racing(t, order, g) && Untied(t, g) && IsRun(t, order, at, a) && at.Some? && Offers(a.start, at.value)
    requires g.q in Under(t, at) && g.f !in Under(t, at) && g.f != at.value && Marked(g, a.start)
    ensures !a.ok
    decreases a.turns, 0
  {
    if a.ok {
      var i := BranchIndex(t, order, at, g.q);
      var k := TurnOf(t, order, at, a, i);
      var n := NodeAt(t, order, at, a, k);
      TurnFacts(t, order, at, a, k);
      OuterKept(t, order, at, a, k, g.f);
      SameArrivals(a.start, a.turns[k].before, g.c);
      if IsLoop(n) {
        LoopGets(t, order, g, at, a, k);
        FirstPass(t, order, g, n, a.turns[k]);
        TreeUnder(t, order, at, n);
        MarkedPassFails(t, order, g, n, a.turns[k].passes[0]);
      } else {
        WatcherIsIt(t, order, g, n);
        WatcherFails(t, order, g, n, a.turns[k]);
      }
    }
  }

  lemma WatcherIsIt(t: Setup, order: seq<NodeInstance>, g: Race, n: NodeInstance)
    requires Racing(t, order, g) && n in t.w.nodes && !IsLoop(n) && g.q in Within(t, n.id)
    ensures n.id == g.q
  {
    if n.id != g.q {
      var m := BranchOf(t, g.q, n.id);
      OwnersAreLoops(t, order, m);
      PlainNode(t, order, n);
    }
  }

  lemma PlainNode(t: Setup, order: seq<NodeInstance>, n: NodeInstance)
    requires Planned(t, order) && n in t.w.nodes && !IsLoop(n)
    ensures PlainId(t, n.id)
  {
    forall m | m in t.w.nodes && m.id == n.id ensures m == n {
      OrderNodes(t, order, m);
      OrderNodes(t, order, n);
    }
  }

  lemma PassIsMarked(t: Setup, order: seq<NodeInstance>, g: Race, n: NodeInstance, p: Pass)
    requires Racing(t, order, g) && n in t.w.nodes && IsLoop(n) && g.q in Within(t, n.id) && g.f !in Within(t, n.id)
    requires Marked(g, p.before)
    ensures g.q in Under(t, Some(n.id)) && g.f !in Under(t, Some(n.id)) && g.f != n.id
    ensures Marked(g, PassLog(t, order, n, p).start)
  {
    FeederIsPlain(t, order, g, n);
    UnderLoop(t, n.id, g.f);
    UnderLoop(t, n.id, g.q);
    NotListed(t, order, n.id, g.f);
    UntouchedByBeginning(g, p.before, OwnedNodes(t, order, n), n.id, p.batch);
  }

  lemma {:induction false} MarkedPassFails(t: Setup, order: seq<NodeInstance>, g: Race, n: NodeInstance, p: Pass)
    requires Racing(t, order, g) && Untied(t, g) && n in t.w.nodes && IsLoop(n)
    requires IsRun(t, order, Some(n.id), PassLog(t, order, n, p)) && Offers(PassLog(t, order, n, p).start, n.id)
    requires g.q in Within(t, n.id) && g.f !in Within(t, n.id) && Marked(g, p.before)
    ensures !p.ok
    decreases p.turns, 1
  {
    PassIsMarked(t, order, g, n, p);
    MarkedFails(t, order, g, Some(n.id), PassLog(t, order, n, p));
  }

  /** A run in which the feeder has its turn before the loop beside it fails. */
  lemma {:induction false} FeederFirstFails(t: Setup, order: seq<NodeInstance>, g: Race, late: set<NodeId>,
      at: Option<NodeId>, a: Log)
    requires Racing(t, order, g) && Untied(t, g) && g.lp in late && g.f !in late
    requires IsRun(t, order, at, a) && RunFollows(t, order, late, at, a.turns)
    requires g.f in Under(t, at) && (at.Some? ==> Offers(a.start, at.value))
    ensures !a.ok
    decreases a.turns
  {
    if a.ok {
      if at == OwnerOf(t.owner, g.f) {
        BesideFails(t, order, g, late, at, a);
      } else {
        var i := BranchIndex(t, order, at, g.f);
        var k := TurnOf(t, order, at, a, i);
        var n := NodeAt(t, order, at, a, k);
        TurnFacts(t, order, at, a, k);
        FeederWithWatcher(t, order, g, n.id);
        if !IsLoop(n) { WatcherIsIt(t, order, g, n); NotInWatcher(t, order, g); }
        LoopGets(t, order, g, at, a, k);
        FirstPass(t, order, g, n, a.turns[k]);
        FollowsAt(t, order, late, at, a.turns, k);
        PassFollows(t, order, late, n, a.turns[k], 0);
        UnderLoop(t, n.id, g.f);
        FeederFirstFails(t, order, g, late, Some(n.id), PassLog(t, order, n, a.turns[k].passes[0]));
      }
    }
  }

  lemma NotInWatcher(t: Setup, order: seq<NodeInstance>, g: Race)
    requires Racing(t, order, g)
    ensures g.f !in Within(t, g.q)
  {
    NotSelf(t, order, g);
    if g.f in Within(t, g.q) { PlainTree(t, order, g.q, g.f); }
  }

  lemma {:induction false} BesideFails(t: Setup, order: seq<NodeInstance>, g: Race, late: set<NodeId>,
      at: Option<NodeId>, a: Log)
    requires Racing(t, order, g) && Untied(t, g) && g.lp in late && g.f !in late
    requires IsRun(t, order, at, a) && RunFollows(t, order, late, at, a.turns)
    requires at == OwnerOf(t.owner, g.f) && (at.Some? ==> Offers(a.start, at.value))
    ensures !a.ok
  {
    if a.ok {
      var kf, kl := BothTurns(t, order, g, at, a);
      LateTurnsLast(t, order, late, at, a, kf, kl);
      LoopHearsFeeder(t, order, g, at, a, kf, kl);
    }
  }

  /** The loop's turn after the feeder's fails. */
  lemma {:induction false} LoopHearsFeeder(t: Setup, order: seq<NodeInstance>, g: Race, at: Option<NodeId>, a: Log,
      kf: nat, kl: nat)
    requires Racing(t, order, g) && Untied(t, g) && IsRun(t, order, at, a) && kf < kl < |a.turns|
    requires a.turns[kf].index < |ListAt(t, order, at)| && NodeAt(t, order, at, a, kf).id == g.f
    requires a.turns[kl].index < |ListAt(t, order, at)| && NodeAt(t, order, at, a, kl).id == g.lp
    requires at == OwnerOf(t.owner, g.f) && (at.Some? ==> Offers(a.start, at.value))
    ensures !a.turns[kl].ok
  {
    var n := NodeAt(t, order, at, a, kl);
    TurnFacts(t, order, at, a, kl);
    LoopIsLoop(t, order, g, n);
    FeederGets(t, order, g, at, a, kf);
    MarkerStays(t, order, g, at, a, kf, kl);
    LoopGets(t, order, g, at, a, kl);
    PlainBeside(t, order, g);
    NotFeeders(t, order, g, n);
    MarkedTurnFails(t, order, g, n, a.turns[kl]);
  }

  lemma {:induction false} MarkedTurnFails(t: Setup, order: seq<NodeInstance>, g: Race, n: NodeInstance, u: Turn)
    requires Racing(t, order, g) && Untied(t, g) && n in t.w.nodes && IsLoop(n) && TurnRan(t, order, n, u)
    requires Gather(t.Links(), u.before, n.id) != [] && g.q in Within(t, n.id) && g.f !in Within(t, n.id)
    requires Marked(g, u.before)
    ensures !u.ok
  {
    if u.ok {
      FirstPass(t, order, g, n, u);
      MarkedPassFails(t, order, g, n, u.passes[0]);
    }
  }

  lemma LoopIsLoop(t: Setup, order: seq<NodeInstance>, g: Race, n: NodeInstance)
    requires Racing(t, order, g) && n in t.w.nodes && n.id == g.lp
    ensures IsLoop(n)
  {
    if !IsLoop(n) { PlainNode(t, order, n); }
  }

  lemma {:induction false} MarkerStays(t: Setup, order: seq<NodeInstance>, g: Race, at: Option<NodeId>, a: Log, kf: nat,
      kl: nat)
    requires Racing(t, order, g) && IsRun(t, order, at, a) && kf < kl < |a.turns|
    requires a.turns[kf].index < |ListAt(t, order, at)|
    requires NodeAt(t, order, at, a, kf).id == g.f && Ready(t, a.turns[kf].before, g.f)
    ensures Marked(g, a.turns[kl].before)
  {
    var n := NodeAt(t, order, at, a, kf);
    TurnFacts(t, order, at, a, kf);
    TurnFacts(t, order, at, a, kl);
    FeederMarks(t, order, g, n, a.turns[kf]);
    InOwnTree(t, g.f);
    OwnAfter(t, order, at, a, kf, kl, g.f);
    SameArrivals(a.turns[kf].after, a.turns[kl].before, g.c);
  }

  lemma {:induction false} BothTurns(t: Setup, order: seq<NodeInstance>, g: Race, at: Option<NodeId>, a: Log)
    returns (kf: nat, kl: nat)
    requires Racing(t, order, g) && IsRun(t, order, at, a) && a.ok && at == OwnerOf(t.owner, g.f)
    ensures kf < |a.turns| && a.turns[kf].index < |ListAt(t, order, at)| && NodeAt(t, order, at, a, kf).id == g.f
    ensures kl < |a.turns| && a.turns[kl].index < |ListAt(t, order, at)| && NodeAt(t, order, at, a, kl).id == g.lp
    ensures a.turns[kl].ok
  {
    kf := TurnOfId(t, order, at, a, g.f);
    var n :| n in t.w.nodes && IsLoop(n) && n.id == g.lp;
    kl := TurnOfId(t, order, at, a, g.lp);
  }

  lemma {:induction false} TurnOfId(t: Setup, order: seq<NodeInstance>, at: Option<NodeId>, a: Log, id: NodeId)
    returns (k: nat)
    requires IsRun(t, order, at, a) && a.ok && id in Ids(t.w.nodes) && OwnerOf(t.owner, id) == at
    ensures k < |a.turns| && a.turns[k].index < |ListAt(t, order, at)| && NodeAt(t, order, at, a, k).id == id
    ensures a.turns[k].ok
  {
    InList(t, order, at, id);
    var i := PlaceOf(ListAt(t, order, at), id);
    k := TurnOf(t, order, at, a, i);
  }
}
