/** A workflow of four nodes in which the timing matters (src/engine.rs): a loop does not wait for a node beside it that
    feeds its body, so what the body finds depends on whether that node has run yet. */
module TimingMatters {

  import opened Workflows
  import opened Reachability
  import opened LoopLayout
  import opened TopologicalOrder
  import opened NodeRuns
  import opened RunLists
  import opened LoopTrees
  import opened WorkflowRun
  import opened Layouts
  import opened RaceStage
  import opened Races

  // ---- The workflow: a start feeds a loop and a side node, and the loop's one body node is fed by both ----------

  /** Names for the four nodes, and a node type that sends on what it gets. */
  datatype Names = Names(start: NodeId, lp: NodeId, side: NodeId, inner: NodeId, echo: string)

  ghost predicate Distinct(f: Names) {
    && f.start != f.lp && f.start != f.side && f.start != f.inner && f.lp != f.side && f.lp != f.inner &&
      f.side != f.inner
    && f.echo != LOOP_TYPE
  }

  function StartNode(f: Names): NodeInstance { Plainly(f.start, f.echo) }
  function LoopNode(f: Names): NodeInstance { Plainly(f.lp, LOOP_TYPE) }
  function SideNode(f: Names): NodeInstance { Plainly(f.side, f.echo) }
  function InnerNode(f: Names): NodeInstance { Plainly(f.inner, f.echo) }

  function Forth(f: Names): seq<Connection> {
    [Connection(f.start, 0, f.lp, 0, false), Connection(f.start, 0, f.side, 0, false),
     Connection(f.lp, 1, f.inner, 0, false), Connection(f.side, 0, f.inner, 0, false)]
  }

  function Back(f: Names): Connection {
    Connection(f.inner, 0, f.lp, 0, false)
  }

  function Nodes(f: Names): seq<NodeInstance> {
    [StartNode(f), LoopNode(f), SideNode(f), InnerNode(f)]
  }

  function Flow(f: Names): Workflow {
    Workflow(Nodes(f), Forth(f) + [Back(f)])
  }

  // ---- Its layout -----------------------------------------------------------------------------------------------

  /** The body node only leads back to the loop, and only the body node is on the loop's output 1. */
  lemma LinkFacts(f: Names, c: Connection)
    requires Distinct(f) && (c in Forth(f) || c == Back(f))
    ensures c.fromNode == f.inner ==> c.toNode == f.lp
    ensures c.fromNode == f.lp ==> c == Forth(f)[2]
    ensures c.toNode == f.lp ==> c == Forth(f)[0] || c == Back(f)
  {
  }

  /** What the loop's output 1 leads to, along these links. */
  lemma ReachesInner(f: Names, links: seq<Connection>)
    requires Distinct(f) && Forth(f)[2] in links && forall c :: c in links ==> c in Forth(f) || c == Back(f)
    ensures LoopSeeds(links, f.lp) == {f.inner} && ReachSet(links, {f.inner}, f.lp) == {f.inner}
  {
    SeedsAre(f, links);
    ReachIs(f, links);
  }

  lemma SeedsAre(f: Names, links: seq<Connection>)
    requires Distinct(f) && Forth(f)[2] in links && forall c :: c in links ==> c in Forth(f) || c == Back(f)
    ensures LoopSeeds(links, f.lp) == {f.inner}
  {
    var only := Forth(f)[2];
    assert only.fromNode == f.lp && only.fromOutput == 1 && !only.error && only.toNode == f.inner;
    forall c | c in links && c.fromNode == f.lp ensures c == only { LinkFacts(f, c); }
  }

  lemma ReachIs(f: Names, links: seq<Connection>)
    requires Distinct(f) && forall c :: c in links ==> c in Forth(f) || c == Back(f)
    ensures ReachSet(links, {f.inner}, f.lp) == {f.inner}
  {
    forall c | c in links && c.fromNode == f.inner ensures c.toNode == f.lp { LinkFacts(f, c); }
    SeedsReached(links, {f.inner}, f.lp);
    ReachSetIsLeast(links, {f.inner}, f.lp, {f.inner});
  }

  lemma LinksOf(f: Names, c: Connection)
    ensures c in Flow(f).connections <==> c in Forth(f) || c == Back(f)
    ensures Forth(f)[2] in Flow(f).connections && Back(f) in Flow(f).connections
  {
    assert Flow(f).connections[2] == Forth(f)[2] && Flow(f).connections[4] == Back(f);
  }

  lemma ReachedFromLoop(f: Names, id: NodeId)
    requires Distinct(f)
    ensures LoopSeeds(Flow(f).connections, f.lp) == {f.inner}
    ensures Reaches(Flow(f).connections, {f.inner}, f.lp, id) <==> id == f.inner
  {
    var links := Flow(f).connections;
    forall d | d in links ensures d in Forth(f) || d == Back(f) { LinksOf(f, d); }
    LinksOf(f, Back(f));
    ReachesInner(f, links);
    if Reaches(links, {f.inner}, f.lp, id) { ReachSetComplete(links, {f.inner}, f.lp, id); }
    assert id == f.inner ==> id in ReachSet(links, {f.inner}, f.lp);
  }

  lemma ReturnsFromInner(f: Names, c: Connection)
    requires Distinct(f)
    ensures ReturnsTo(Flow(f), c, f.lp) <==> c.toNode == f.lp && c.fromNode == f.inner
  {
    ReachedFromLoop(f, c.fromNode);
    assert {f.inner} - {f.lp} == {f.inner};
  }

  lemma OnlyLoop(f: Names, n: NodeInstance)
    requires Distinct(f)
    ensures n in Nodes(f) && IsLoop(n) <==> n == LoopNode(f)
  {
    assert Nodes(f)[1] == LoopNode(f);
  }

  lemma BackLinkIs(f: Names, c: Connection)
    requires Distinct(f)
    ensures BackLink(Flow(f), c) <==> c.toNode == f.lp && c.fromNode == f.inner
  {
    ReturnsFromInner(f, c);
    forall n ensures n in Nodes(f) && IsLoop(n) <==> n == LoopNode(f) { OnlyLoop(f, n); }
  }

  lemma WithoutLast(f: Names)
    ensures Without(Flow(f).connections, {4}) == Forth(f)
  {
    var all := Flow(f).connections;
    assert Without(all, {4}, 5) == [] && Without(all, {4}, 4) == [];
    assert Without(all, {4}, 3) == [Forth(f)[3]];
    assert Without(all, {4}, 2) == [Forth(f)[2], Forth(f)[3]];
    assert Without(all, {4}, 1) == [Forth(f)[1], Forth(f)[2], Forth(f)[3]];
  }

  lemma BackLinkAt(f: Names, i: nat)
    requires Distinct(f)
    ensures i in BackIndexes(Flow(f)) <==> i == 4
  {
    var all := Flow(f).connections;
    assert |all| == 5 && all[4] == Back(f);
    if i < 5 {
      BackLinkIs(f, all[i]);
      if i < 4 { assert all[i] == Forth(f)[i]; }
    }
  }

  lemma OneBackLink(f: Names)
    requires Distinct(f)
    ensures BackIndexes(Flow(f)) == {4} && ForwardLinks(Flow(f)) == Forth(f) && Body(Flow(f), f.lp) == {f.inner}
  {
    forall i: nat ensures i in BackIndexes(Flow(f)) <==> i == 4 { BackLinkAt(f, i); }
    assert BackIndexes(Flow(f)) == {4};
    WithoutLast(f);
    ReachesInner(f, Forth(f));
  }

  function SetupOf(f: Names): Setup {
    Setup(Flow(f), {4}, map[f.inner := f.lp], map[], Some(f.start), None, map[])
  }

  lemma NodesIn(f: Names)
    ensures StartNode(f) in Nodes(f) && LoopNode(f) in Nodes(f) && SideNode(f) in Nodes(f) && InnerNode(f) in Nodes(f)
  {
    assert Nodes(f)[0] == StartNode(f) && Nodes(f)[1] == LoopNode(f) && Nodes(f)[2] == SideNode(f) &&
      Nodes(f)[3] == InnerNode(f);
  }

  lemma EndsExist(f: Names)
    ensures EndpointsExist(Flow(f))
  {
    NodesIn(f);
    forall c | c in Flow(f).connections ensures HasNode(Flow(f), c.fromNode) && HasNode(Flow(f), c.toNode) {
      LinksOf(f, c);
    }
  }

  lemma FourDistinct(f: Names)
    requires Distinct(f)
    ensures DistinctIds(Nodes(f))
  {
    var order := Nodes(f);
    forall i, j | 0 <= i < j < |order| ensures order[i].id != order[j].id {
      PlaceOf(f, i);
      PlaceOf(f, j);
    }
  }

  lemma ForthRises(f: Names, c: Connection, i: nat, j: nat)
    requires Distinct(f) && c in Forth(f) && i < 4 && j < 4 && Nodes(f)[i].id == c.fromNode
    requires Nodes(f)[j].id == c.toNode
    ensures i < j
  {
    PlaceOf(f, i);
    PlaceOf(f, j);
    ForthEnds(f, c);
  }

  lemma ForthOrdered(f: Names)
    requires Distinct(f)
    ensures LeftToRight(Forth(f), Nodes(f))
  {
    var order := Nodes(f);
    forall c, i, j | c in Forth(f) && 0 <= i < |order| && 0 <= j < |order| && order[i].id == c.fromNode &&
      order[j].id == c.toNode
      ensures i < j
    {
      ForthRises(f, c, i, j);
    }
  }

  lemma InOrder(f: Names)
    requires Distinct(f)
    ensures IsOrder(Flow(f), Nodes(f))
  {
    OneBackLink(f);
    FourDistinct(f);
    ForthOrdered(f);
  }

  lemma PlaceOf(f: Names, i: nat)
    requires Distinct(f) && i < 4
    ensures var id := Nodes(f)[i].id;
            (id == f.start <==> i == 0) && (id == f.lp <==> i == 1) && (id == f.side <==> i == 2) &&
              (id == f.inner <==> i == 3)
  {
  }

  lemma ForthEnds(f: Names, c: Connection)
    requires c in Forth(f)
    ensures || (c.fromNode == f.start && (c.toNode == f.lp || c.toNode == f.side))
            || ((c.fromNode == f.lp || c.fromNode == f.side) && c.toNode == f.inner)
  {
  }

  lemma AroundInner(f: Names, lp: NodeId, id: NodeId)
    requires Distinct(f)
    ensures LoopAround(Flow(f), lp, id) <==> lp == f.lp && id == f.inner
  {
    OneBackLink(f);
    forall n ensures n in Nodes(f) && IsLoop(n) <==> n == LoopNode(f) { OnlyLoop(f, n); }
  }

  lemma OwnersAre(f: Names)
    requires Distinct(f)
    ensures IsOwner(Flow(f), f.inner, f.lp) && forall id :: Owned(Flow(f), id) <==> id == f.inner
  {
    forall lp, id ensures LoopAround(Flow(f), lp, id) <==> lp == f.lp && id == f.inner { AroundInner(f, lp, id); }
    assert LoopAround(Flow(f), f.lp, f.inner);
  }

  lemma OwnersFit(f: Names)
    requires Distinct(f)
    ensures var s := SetupOf(f);
            && s.owner.Keys <= Ids(Nodes(f))
            && (forall n :: n in Nodes(f) ==> (n.id in s.owner <==> Owned(Flow(f), n.id)))
            && forall id :: id in s.owner ==> IsOwner(Flow(f), id, s.owner[id])
  {
    NodesIn(f);
    OwnersAre(f);
    assert InnerNode(f).id in Ids(Nodes(f));
  }

  lemma FlowPlanned(f: Names)
    requires Distinct(f)
    ensures Planned(SetupOf(f), Nodes(f))
  {
    OneBackLink(f);
    EndsExist(f);
    InOrder(f);
    OwnersFit(f);
  }

  // ---- The side node races with the loop ------------------------------------------------------------------------

  function RaceOf(f: Names, roles: Roles): Race {
    Race(f.side, f.lp, f.inner, Forth(f)[3], roles)
  }

  lemma LinksAre(f: Names)
    ensures SetupOf(f).Links() == Forth(f)
  {
    WithoutLast(f);
  }

  lemma Kinds(f: Names)
    requires Distinct(f)
    ensures PlainId(SetupOf(f), f.start) && PlainId(SetupOf(f), f.side) && PlainId(SetupOf(f), f.inner)
    ensures forall m :: LoopId(SetupOf(f), m) <==> m == f.lp
  {
    NodesIn(f);
    forall n ensures n in Nodes(f) && IsLoop(n) <==> n == LoopNode(f) { OnlyLoop(f, n); }
  }

  lemma InnerInside(f: Names)
    ensures f.inner in Within(SetupOf(f), f.lp)
  {
    InOwnTree(SetupOf(f), f.lp);
    OwnedInTree(SetupOf(f), f.inner, f.lp);
  }

  /** A link from the start to a top-level node is a path of one list. */
  lemma OneLinkPath(s: Setup, d: Connection)
    requires d in s.Links() && OwnerOf(s.owner, d.fromNode) == OwnerOf(s.owner, d.toNode)
    ensures ListPath(s, OwnerOf(s.owner, d.toNode), [d.fromNode, d.toNode])
  {
    assert Linked(s.Links(), d.fromNode, d.toNode);
  }

  lemma OneLinkLive(s: Setup, order: seq<NodeInstance>, d: Connection)
    requires d in s.Links() && !d.error && OwnerOf(s.owner, d.fromNode) == OwnerOf(s.owner, d.toNode) == None
    requires order != [] && order[0].id == d.fromNode && PlainId(s, d.fromNode)
    ensures Live(s, order, d.toNode)
  {
    var p := [d.fromNode, d.toNode];
    OneLinkPath(s, d);
    assert SendsTo(s, p[0], p[1]);
    assert LivePath(s, order, None, p) && p[|p| - 1] == d.toNode;
  }

  /** Items come straight from the start. */
  lemma LiveFromStart(f: Names, id: NodeId)
    requires Distinct(f) && (id == f.lp || id == f.side)
    ensures Live(SetupOf(f), Nodes(f), id)
  {
    var d := if id == f.lp then Forth(f)[0] else Forth(f)[1];
    LinksAre(f);
    Kinds(f);
    assert d in Forth(f);
    OneLinkLive(SetupOf(f), Nodes(f), d);
  }

  lemma OutOfSide(f: Names, d: Connection)
    requires Distinct(f) && d in Flow(f).connections
    ensures d.toInput == 0 && (d.fromNode == f.side ==> d.toNode == f.inner)
  {
    LinksOf(f, d);
    if d in Forth(f) { ForthEnds(f, d); }
  }

  lemma SideFeedsInner(f: Names)
    ensures Forth(f)[3] in SetupOf(f).Links() && Forth(f)[3] in Flow(f).connections
  {
    LinksAre(f);
    LinksOf(f, Forth(f)[3]);
    assert Forth(f)[3] in Forth(f);
  }

  lemma SideContests(f: Names, roles: Roles)
    requires Distinct(f)
    ensures Contest(SetupOf(f), Nodes(f), RaceOf(f, roles))
  {
    Kinds(f);
    SideFeedsInner(f);
    InnerInside(f);
    LiveFromStart(f, f.lp);
    LiveFromStart(f, f.side);
    forall d | d in Flow(f).connections ensures d.toInput == 0 && (d.fromNode == f.side ==> d.toNode == f.inner) {
      OutOfSide(f, d);
    }
  }

  /** From neither of the two a link leads on at the top level. */
  lemma LeadsNowhere(f: Names, x: NodeId, y: NodeId)
    requires Distinct(f) && (x == f.lp || x == f.side) && y != f.inner
    ensures !Before(SetupOf(f), x, y)
  {
    if Before(SetupOf(f), x, y) {
      var d := FirstStep(SetupOf(f), x, y);
      LinksAre(f);
      ForthEnds(f, d);
    }
  }

  /** With suitable node types the execution of this workflow fails or not, depending on whether the side node or the
      loop has its turn first. */
  lemma SideNodeRaces(f: Names, roles: Roles) returns (t: Setup, order': seq<NodeInstance>, r: Execution)
    requires Distinct(f) && GoodRoles(roles)
    ensures Planned(SetupOf(f), Nodes(f)) && Loose(SetupOf(f), f.side, f.lp)
    ensures SamePlan(SetupOf(f), Nodes(f), t, order') && Planned(t, order')
    ensures Happens(t, order', NodeFailed) && r.Outputs? && Happens(t, order', r)
  {
    FlowPlanned(f);
    SideContests(f, roles);
    LeadsNowhere(f, f.side, f.lp);
    LeadsNowhere(f, f.lp, f.side);
    SideIsLoose(f);
    t, order', r := RaceMatters(SetupOf(f), Nodes(f), RaceOf(f, roles));
  }

  lemma SideIsLoose(f: Names)
    requires Distinct(f)
    ensures Loose(SetupOf(f), f.side, f.lp)
  {
    var s := SetupOf(f);
    LeadsNowhere(f, f.side, f.lp);
    LeadsNowhere(f, f.lp, f.side);
    InnerInside(f);
    InOwnTree(s, f.side);
    NodesIn(f);
    SideFeedsInner(f);
  }
}
