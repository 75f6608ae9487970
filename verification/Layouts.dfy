/** The layout of a workflow (src/engine.rs): its ids, its links and which nodes are loops. What a run's plan is made of
    depends on nothing else. */
module Layouts {

  import opened Workflows
  import opened LoopLayout
  import opened TopologicalOrder
  import opened NodeRuns
  import opened RunLists
  import opened LoopTrees

  /** The same nodes but for what they do. */
  ghost predicate SameLook(a: NodeInstance, b: NodeInstance) {
    a.id == b.id && IsLoop(a) == IsLoop(b)
  }

  ghost predicate SameNodes(a: seq<NodeInstance>, b: seq<NodeInstance>) {
    |a| == |b| && forall i :: 0 <= i < |a| ==> SameLook(a[i], b[i])
  }

  ghost predicate SameLayout(v: Workflow, w: Workflow) {
    v.connections == w.connections && SameNodes(v.nodes, w.nodes)
  }

  lemma Turned(v: Workflow, w: Workflow)
    requires SameLayout(v, w)
    ensures SameLayout(w, v)
  {
    forall i | 0 <= i < |w.nodes| ensures SameLook(w.nodes[i], v.nodes[i]) { assert SameLook(v.nodes[i], w.nodes[i]); }
  }

  lemma Counterpart(a: seq<NodeInstance>, b: seq<NodeInstance>, n: NodeInstance) returns (m: NodeInstance)
    requires SameNodes(a, b) && n in a
    ensures m in b && SameLook(n, m)
  {
    var i :| 0 <= i < |a| && a[i] == n;
    m := b[i];
  }

  lemma SameIds(a: seq<NodeInstance>, b: seq<NodeInstance>)
    requires SameNodes(a, b)
    ensures Ids(a) == Ids(b)
  {
    forall n | n in a ensures n.id in Ids(b) { var m := Counterpart(a, b, n); }
    forall m | m in b ensures m.id in Ids(a) {
      var i :| 0 <= i < |b| && b[i] == m;
      assert SameLook(a[i], b[i]) && a[i] in a;
    }
  }

  lemma SameDistinct(a: seq<NodeInstance>, b: seq<NodeInstance>)
    requires SameNodes(a, b) && DistinctIds(a)
    ensures DistinctIds(b)
  {
    forall i, j | 0 <= i < j < |b| ensures b[i].id != b[j].id { assert SameLook(a[i], b[i]) && SameLook(a[j], b[j]); }
  }

  lemma LoopsSame(v: Workflow, w: Workflow, lp: NodeId)
    requires SameLayout(v, w) && exists n :: n in v.nodes && IsLoop(n) && n.id == lp
    ensures exists n :: n in w.nodes && IsLoop(n) && n.id == lp
  {
    var n :| n in v.nodes && IsLoop(n) && n.id == lp;
    var m := Counterpart(v.nodes, w.nodes, n);
  }

  lemma BackLinkSame(v: Workflow, w: Workflow, c: Connection)
    requires SameLayout(v, w) && BackLink(v, c)
    ensures BackLink(w, c)
  {
    var lp :| lp in v.nodes && IsLoop(lp) && ReturnsTo(v, c, lp.id);
    var m := Counterpart(v.nodes, w.nodes, lp);
    assert ReturnsTo(w, c, m.id);
  }

  /** Back links, forward links and bodies are the same. */
  lemma LinksSame(v: Workflow, w: Workflow)
    requires SameLayout(v, w)
    ensures BackIndexes(v) == BackIndexes(w) && ForwardLinks(v) == ForwardLinks(w)
    ensures forall id :: Body(v, id) == Body(w, id)
  {
    Turned(v, w);
    forall i | 0 <= i < |v.connections| ensures BackLink(v, v.connections[i]) <==> BackLink(w, v.connections[i]) {
      var c := v.connections[i];
      if BackLink(v, c) { BackLinkSame(v, w, c); }
      if BackLink(w, c) { BackLinkSame(w, v, c); }
    }
    assert BackIndexes(v) == BackIndexes(w);
  }

  lemma AroundSame(v: Workflow, w: Workflow, lp: NodeId, id: NodeId)
    requires SameLayout(v, w)
    ensures LoopAround(v, lp, id) <==> LoopAround(w, lp, id)
  {
    Turned(v, w);
    LinksSame(v, w);
    if LoopAround(v, lp, id) { LoopsSame(v, w, lp); }
    if LoopAround(w, lp, id) { LoopsSame(w, v, lp); }
  }

  lemma OwnersSame(v: Workflow, w: Workflow, id: NodeId, lp: NodeId)
    requires SameLayout(v, w)
    ensures (Owned(v, id) <==> Owned(w, id)) && (IsOwner(v, id, lp) <==> IsOwner(w, id, lp))
  {
    LinksSame(v, w);
    forall m ensures LoopAround(v, m, id) <==> LoopAround(w, m, id) { AroundSame(v, w, m, id); }
  }

  lemma EndpointsSame(v: Workflow, w: Workflow)
    requires SameLayout(v, w) && EndpointsExist(v)
    ensures EndpointsExist(w)
  {
    forall c | c in w.connections ensures HasNode(w, c.fromNode) && HasNode(w, c.toNode) {
      var n :| n in v.nodes && n.id == c.fromNode;
      var m := Counterpart(v.nodes, w.nodes, n);
      var n' :| n' in v.nodes && n'.id == c.toNode;
      var m' := Counterpart(v.nodes, w.nodes, n');
    }
  }

  // ---- The same plan --------------------------------------------------------------------------------------------

  /** Two plans for one layout. */
  ghost predicate SamePlan(s: Setup, order: seq<NodeInstance>, t: Setup, order': seq<NodeInstance>) {
    SameLayout(s.w, t.w) && s.back == t.back && s.owner == t.owner && SameNodes(order, order')
  }

  lemma OwnersFit(s: Setup, t: Setup)
    requires SameLayout(s.w, t.w) && s.owner == t.owner && s.owner.Keys <= Ids(s.w.nodes)
    requires forall n :: n in s.w.nodes ==> (n.id in s.owner <==> Owned(s.w, n.id))
    requires forall id :: id in s.owner ==> IsOwner(s.w, id, s.owner[id])
    ensures t.owner.Keys <= Ids(t.w.nodes)
    ensures forall n :: n in t.w.nodes ==> (n.id in t.owner <==> Owned(t.w, n.id))
    ensures forall id :: id in t.owner ==> IsOwner(t.w, id, t.owner[id])
  {
    SameIds(s.w.nodes, t.w.nodes);
    Turned(s.w, t.w);
    forall n | n in t.w.nodes ensures n.id in t.owner <==> Owned(t.w, n.id) {
      var m := Counterpart(t.w.nodes, s.w.nodes, n);
      OwnersSame(s.w, t.w, n.id, n.id);
    }
    forall id | id in t.owner ensures IsOwner(t.w, id, t.owner[id]) { OwnersSame(s.w, t.w, id, t.owner[id]); }
  }

  lemma LeftToRightSame(links: seq<Connection>, a: seq<NodeInstance>, b: seq<NodeInstance>)
    requires SameNodes(a, b) && LeftToRight(links, a)
    ensures LeftToRight(links, b)
  {
    forall c, i, j | c in links && 0 <= i < |b| && 0 <= j < |b| && b[i].id == c.fromNode && b[j].id == c.toNode
      ensures i < j
    {
      assert SameLook(a[i], b[i]) && SameLook(a[j], b[j]);
    }
  }

  /** A list that has the ids of the other's order, and the same nodes, is an order too. */
  lemma PlanSame(s: Setup, order: seq<NodeInstance>, t: Setup, order': seq<NodeInstance>)
    requires Planned(s, order) && SamePlan(s, order, t, order') && multiset(order') == multiset(t.w.nodes)
    ensures Planned(t, order')
  {
    LinksSame(s.w, t.w);
    EndpointsSame(s.w, t.w);
    SameDistinct(order, order');
    LeftToRightSame(ForwardLinks(s.w), order, order');
    OwnersFit(s, t);
  }

  // ---- What runs settled, runs settled --------------------------------------------------------------------------

  lemma TreesSame(s: Setup, t: Setup, id: NodeId)
    requires s.owner == t.owner
    ensures Within(s, id) == Within(t, id)
  {
  }

  lemma BeforeSame(s: Setup, t: Setup, x: NodeId, y: NodeId)
    requires s.owner == t.owner && s.back == t.back && s.w.connections == t.w.connections && Before(s, x, y)
    ensures Before(t, x, y)
  {
    var p :| |p| > 1 && p[0] == x && p[|p| - 1] == y && ListPath(s, OwnerOf(s.owner, y), p);
    assert ListPath(t, OwnerOf(t.owner, y), p);
  }

  lemma FeedsSame(s: Setup, t: Setup, x: NodeId, y: NodeId)
    requires s.owner == t.owner && s.w.connections == t.w.connections && FeedsInto(s, x, y)
    ensures FeedsInto(t, x, y)
  {
    TreesSame(s, t, x);
    TreesSame(s, t, y);
  }

  lemma LooseSame(s: Setup, t: Setup, x: NodeId, y: NodeId)
    requires SameLayout(s.w, t.w) && s.owner == t.owner && s.back == t.back && Loose(s, x, y)
    ensures Loose(t, x, y)
  {
    SameIds(s.w.nodes, t.w.nodes);
    FeedsSame(s, t, x, y);
    if Before(t, x, y) { BeforeSame(t, s, x, y); }
    if Before(t, y, x) { BeforeSame(t, s, y, x); }
  }

  lemma SettledSame(s: Setup, order: seq<NodeInstance>, t: Setup, order': seq<NodeInstance>)
    requires SamePlan(s, order, t, order') && Settled(s)
    ensures Settled(t)
  {
    Turned(s.w, t.w);
    forall x, y ensures !Loose(t, x, y) {
      if Loose(t, x, y) { LooseSame(t, s, x, y); }
    }
  }
}
