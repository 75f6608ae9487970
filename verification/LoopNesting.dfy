/** Why `run_loop` -> `run_graph` -> `run_node` -> `run_loop` (src/engine.rs) ends: once an order exists,
    loops nest properly, and each inner loop has a smaller body. */
module LoopNesting {

  import opened Workflows
  import opened Reachability
  import opened LoopLayout
  import opened TopologicalOrder
  import opened Sequences

  ghost predicate Rightward(links: seq<Connection>, rank: map<NodeId, nat>) {
    forall c :: c in links ==> c.fromNode in rank && c.toNode in rank && rank[c.fromNode] < rank[c.toNode]
  }

  /** An order gives every forward link a smaller position at its start than at its end. */
  lemma OrderGivesRank(w: Workflow, order: seq<NodeInstance>)
    requires EndpointsExist(w) && IsOrder(w, order)
    ensures Rightward(ForwardLinks(w), Positions(order))
    ensures Positions(order).Keys == Ids(w.nodes)
  {
    var links, rank := ForwardLinks(w), Positions(order);
    LinkIds(w, links);
    forall id ensures id in Ids(order) <==> id in Ids(w.nodes) { SameNodesSameIds(w.nodes, order, id); }
    forall c | c in links ensures c.fromNode in rank && c.toNode in rank && rank[c.fromNode] < rank[c.toNode] {
      assert c.fromNode in Ids(order) && c.toNode in Ids(order);
    }
  }

  /** Everything in a body comes after the loop. */
  lemma BodyComesAfter(w: Workflow, rank: map<NodeId, nat>, lp: NodeId)
    requires Rightward(ForwardLinks(w), rank) && lp in rank
    ensures forall x :: x in Body(w, lp) ==> x in rank && rank[lp] < rank[x]
  {
    var links := ForwardLinks(w);
    var after := set x | x in rank && rank[lp] < rank[x];
    ReachSetIsLeast(links, LoopSeeds(links, lp), lp, after);
  }

  /** A loop is never in its own body. */
  lemma LoopNotInOwnBody(w: Workflow, order: seq<NodeInstance>, lp: NodeId)
    requires EndpointsExist(w) && IsOrder(w, order) && lp in Ids(w.nodes)
    ensures lp !in Body(w, lp)
  {
    OrderGivesRank(w, order);
    BodyComesAfter(w, Positions(order), lp);
  }

  /** No forward link leaves a body. */
  lemma BodyIsClosed(w: Workflow, order: seq<NodeInstance>, lp: NodeId, c: Connection)
    requires EndpointsExist(w) && IsOrder(w, order) && lp in Ids(w.nodes)
    requires c in ForwardLinks(w) && c.fromNode in Body(w, lp)
    ensures c.toNode in Body(w, lp)
  {
    var links := ForwardLinks(w);
    OrderGivesRank(w, order);
    BodyComesAfter(w, Positions(order), lp);
    ReachSetClosed(links, LoopSeeds(links, lp), lp);
  }

  /** So every forward link into a node outside all bodies starts outside all bodies: a top-level node
      waits for all its real upstream. */
  lemma TopLevelUpstreamIsTopLevel(w: Workflow, order: seq<NodeInstance>, c: Connection)
    requires EndpointsExist(w) && IsOrder(w, order)
    requires c in ForwardLinks(w) && !Owned(w, c.toNode)
    ensures !Owned(w, c.fromNode)
  {
    if Owned(w, c.fromNode) {
      var lp :| LoopAround(w, lp, c.fromNode);
      BodyIsClosed(w, order, lp, c);
      assert LoopAround(w, lp, c.toNode);
    }
  }

  /** An inner loop's body is strictly inside the body of any loop containing it. */
  lemma InnerBodyStrictlyInside(w: Workflow, order: seq<NodeInstance>, outer: NodeId, inner: NodeId)
    requires EndpointsExist(w) && IsOrder(w, order)
    requires outer in Ids(w.nodes) && inner in Body(w, outer)
    ensures Body(w, inner) < Body(w, outer)
    ensures |Body(w, inner)| < |Body(w, outer)|
  {
    var links := ForwardLinks(w);
    OrderGivesRank(w, order);
    BodyComesAfter(w, Positions(order), outer);
    LoopNotInOwnBody(w, order, inner);
    forall c | c in links && c.fromNode in Body(w, outer) ensures c.toNode in Body(w, outer) {
      BodyIsClosed(w, order, outer, c);
    }
    ReachSetIsLeast(links, LoopSeeds(links, inner), inner, Body(w, outer));
    SubsetCount(Body(w, inner), Body(w, outer));
  }

  /** The smallest body's loop is an innermost one: no loop around the node stands inside its body. */
  lemma OwnerIsInnermost(w: Workflow, order: seq<NodeInstance>, id: NodeId, lp: NodeId, inner: NodeId)
    requires EndpointsExist(w) && IsOrder(w, order)
    requires IsOwner(w, id, lp) && LoopAround(w, inner, id)
    ensures inner !in Body(w, lp)
  {
    if inner in Body(w, lp) {
      InnerBodyStrictlyInside(w, order, lp, inner);
    }
  }

  /** The measure of the recursion: a loop owned by another has a smaller body. */
  lemma OwnedLoopIsSmaller(w: Workflow, order: seq<NodeInstance>, lp: NodeId, inner: NodeId)
    requires EndpointsExist(w) && IsOrder(w, order) && IsOwner(w, inner, lp)
    ensures |Body(w, inner)| < |Body(w, lp)|
  {
    var n :| n in w.nodes && IsLoop(n) && n.id == lp;
    assert lp in Ids(w.nodes);
    InnerBodyStrictlyInside(w, order, lp, inner);
  }
}
