/** Which nodes of a workflow run together (src/engine.rs): the nodes outside all loop bodies, and for each loop
    the nodes it owns. */
module RunLists {

  import opened Workflows
  import opened Sequences
  import opened LoopLayout
  import opened TopologicalOrder
  import opened LoopNesting
  import opened NodeRuns

  // ---- Lists of nodes -------------------------------------------------------------------------------------------

  /** The nodes outside all bodies, or those owned by one loop, in order. */
  function OwnedBy(order: seq<NodeInstance>, owner: map<NodeId, NodeId>, lp: Option<NodeId>): (list: seq<NodeInstance>)
    ensures forall n :: n in list <==> n in order && OwnerOf(owner, n.id) == lp
  {
    if order == [] then []
    else (if OwnerOf(owner, order[0].id) == lp then [order[0]] else []) + OwnedBy(order[1..], owner, lp)
  }

  function OwnerOf(owner: map<NodeId, NodeId>, id: NodeId): Option<NodeId> {
    if id in owner then Some(owner[id]) else None
  }

  /** No node repeats an id, and every link between two of them goes left to right. */
  ghost predicate Sorted(links: seq<Connection>, list: seq<NodeInstance>) {
    DistinctIds(list) && LeftToRight(links, list)
  }

  lemma {:induction false} OwnedBySorted(links: seq<Connection>, order: seq<NodeInstance>, owner: map<NodeId, NodeId>,
      lp: Option<NodeId>)
    requires Sorted(links, order)
    ensures Sorted(links, OwnedBy(order, owner, lp))
  {
    if order != [] {
      var rest := order[1..];
      SortedTailNodes(links, order);
      OwnedBySorted(links, rest, owner, lp);
      if OwnerOf(owner, order[0].id) == lp {
        ConsSorted(links, order[0], rest, OwnedBy(rest, owner, lp), order);
      } else {
        assert OwnedBy(order, owner, lp) == OwnedBy(rest, owner, lp);
      }
    }
  }

  lemma SortedTailNodes(links: seq<Connection>, order: seq<NodeInstance>)
    requires order != [] && Sorted(links, order)
    ensures Sorted(links, order[1..])
  {
    var rest := order[1..];
    forall c, i, j | c in links && 0 <= i < |rest| && 0 <= j < |rest| && rest[i].id == c.fromNode &&
      rest[j].id == c.toNode
      ensures i < j
    {
      assert rest[i] == order[i + 1] && rest[j] == order[j + 1];
    }
  }

  lemma ConsSorted(links: seq<Connection>, n: NodeInstance, rest: seq<NodeInstance>, list: seq<NodeInstance>,
      order: seq<NodeInstance>)
    requires order == [n] + rest && Sorted(links, order) && Sorted(links, list)
    requires forall m :: m in list ==> m in rest
    ensures Sorted(links, [n] + list)
  {
    var all := [n] + list;
    forall m | m in list ensures exists k :: 0 < k < |order| && order[k] == m {
      var k :| 0 <= k < |rest| && rest[k] == m;
      assert order[k + 1] == m;
    }
    forall i, j | 0 <= i < j < |all| ensures all[i].id != all[j].id {
      assert all[j] == list[j - 1];
      if i > 0 {
        assert all[i] == list[i - 1];
      } else {
        var m := list[j - 1];
        assert m in list;
        var k :| 0 < k < |order| && order[k] == m;
        assert order[0] == n;
      }
    }
    forall c, i, j | c in links && 0 <= i < |all| && 0 <= j < |all| && all[i].id == c.fromNode && all[j].id == c.toNode
      ensures i < j
    {
      var p := PlaceIn(n, rest, list, order, i);
      var q := PlaceIn(n, rest, list, order, j);
      assert p < q;
      if i > 0 && j > 0 {
        assert all[i] == list[i - 1] && all[j] == list[j - 1];
      }
    }
  }

  lemma PlaceIn(n: NodeInstance, rest: seq<NodeInstance>, list: seq<NodeInstance>, order: seq<NodeInstance>,
      i: nat) returns (p: nat)
    requires order == [n] + rest && i < |[n] + list|
    requires forall m :: m in list ==> m in rest
    ensures p < |order| && order[p] == ([n] + list)[i] && (i == 0 ==> p == 0)
  {
    if i == 0 {
      p := 0;
    } else {
      var m := list[i - 1];
      assert m in list;
      var k :| 0 <= k < |rest| && rest[k] == m;
      p := k + 1;
    }
  }

  // ---- What a run may assume of its lists -----------------------------------------------------------------------

  /** The layout was computed from the workflow: back links, owners and an order. */
  ghost predicate Planned(s: Setup, order: seq<NodeInstance>) {
    && s.back == BackIndexes(s.w)
    && EndpointsExist(s.w)
    && IsOrder(s.w, order)
    && s.owner.Keys <= Ids(s.w.nodes)
    && (forall n :: n in s.w.nodes ==> (n.id in s.owner <==> Owned(s.w, n.id)))
    && forall id :: id in s.owner ==> IsOwner(s.w, id, s.owner[id])
  }

  /** A list that runs together: it and the bodies its loops run stay inside `scope`, and each of its loops
      has a body smaller than `depth`, apart from the list itself. */
  ghost predicate Listed(s: Setup, list: seq<NodeInstance>, scope: set<NodeId>, depth: nat) {
    && Sorted(s.Links(), list)
    && (forall n :: n in list ==> n.id in scope && n in s.w.nodes)
    && forall n :: n in list && IsLoop(n) ==> GoodLoop(s.w, list, scope, depth, n.id)
  }

  ghost predicate GoodLoop(w: Workflow, list: seq<NodeInstance>, scope: set<NodeId>, depth: nat, lp: NodeId) {
    && |Body(w, lp)| < depth
    && Body(w, lp) <= scope
    && lp !in Body(w, lp)
    && forall m :: m in list ==> m.id !in Body(w, lp)
  }

  lemma OrderNodes(s: Setup, order: seq<NodeInstance>, n: NodeInstance)
    requires Planned(s, order)
    ensures n in order <==> n in s.w.nodes
  {
    assert n in order <==> n in multiset(order);
    assert n in s.w.nodes <==> n in multiset(s.w.nodes);
  }

  lemma PlannedSorted(s: Setup, order: seq<NodeInstance>)
    requires Planned(s, order)
    ensures Sorted(s.Links(), order)
  {
  }

  lemma BodyInIds(s: Setup, order: seq<NodeInstance>, lp: NodeId)
    requires Planned(s, order) && lp in Ids(s.w.nodes)
    ensures Body(s.w, lp) <= Ids(s.w.nodes)
    ensures |Body(s.w, lp)| < |Ids(s.w.nodes)| + 1
    ensures lp !in Body(s.w, lp)
  {
    OrderGivesRank(s.w, order);
    BodyComesAfter(s.w, Positions(order), lp);
    SubsetCount(Body(s.w, lp), Ids(s.w.nodes));
  }

  ghost predicate NoneOwned(s: Setup, list: seq<NodeInstance>) {
    forall m :: m in list ==> m.id !in s.owner && m in s.w.nodes
  }

  lemma TopLoopIsGood(s: Setup, order: seq<NodeInstance>, list: seq<NodeInstance>, n: NodeInstance)
    requires Planned(s, order) && NoneOwned(s, list) && n in list && IsLoop(n)
    ensures GoodLoop(s.w, list, Ids(s.w.nodes), |Ids(s.w.nodes)| + 1, n.id)
  {
    BodyInIds(s, order, n.id);
    forall m | m in list ensures m.id !in Body(s.w, n.id) {
      if m.id in Body(s.w, n.id) {
        assert LoopAround(s.w, n.id, m.id);
      }
    }
  }

  /** The nodes outside all bodies run together. */
  lemma {:induction false} TopIsListed(s: Setup, order: seq<NodeInstance>)
    requires Planned(s, order)
    ensures Listed(s, OwnedBy(order, s.owner, None), Ids(s.w.nodes), |Ids(s.w.nodes)| + 1)
  {
    var list := OwnedBy(order, s.owner, None);
    PlannedSorted(s, order);
    OwnedBySorted(s.Links(), order, s.owner, None);
    forall n | n in list ensures n in s.w.nodes { OrderNodes(s, order, n); }
    assert NoneOwned(s, list);
    forall n | n in list && IsLoop(n) ensures GoodLoop(s.w, list, Ids(s.w.nodes), |Ids(s.w.nodes)| + 1, n.id) {
      TopLoopIsGood(s, order, list, n);
    }
  }

  ghost predicate AllOwnedBy(s: Setup, list: seq<NodeInstance>, lp: NodeId) {
    forall n :: n in list ==> n in s.w.nodes && n.id in s.owner && s.owner[n.id] == lp
  }

  /** The nodes a loop owns run together, inside its body, with smaller bodies in turn. */
  lemma {:induction false} BodyIsListed(s: Setup, order: seq<NodeInstance>, lp: NodeInstance)
    requires Planned(s, order) && lp in s.w.nodes && IsLoop(lp)
    ensures Listed(s, OwnedBy(order, s.owner, Some(lp.id)), Body(s.w, lp.id), |Body(s.w, lp.id)|)
  {
    var list := OwnedBy(order, s.owner, Some(lp.id));
    PlannedSorted(s, order);
    OwnedBySorted(s.Links(), order, s.owner, Some(lp.id));
    forall n | n in list ensures n in s.w.nodes && n.id in s.owner && s.owner[n.id] == lp.id {
      OrderNodes(s, order, n);
    }
    assert AllOwnedBy(s, list, lp.id);
    assert lp.id in Ids(s.w.nodes);
    forall n | n in list ensures n.id in Body(s.w, lp.id) { OwnedNodeInBody(s, order, list, lp.id, n); }
    forall n | n in list && IsLoop(n) ensures GoodLoop(s.w, list, Body(s.w, lp.id), |Body(s.w, lp.id)|, n.id) {
      InnerLoopIsGood(s, order, list, lp.id, n);
    }
  }

  lemma OwnedNodeInBody(s: Setup, order: seq<NodeInstance>, list: seq<NodeInstance>, lp: NodeId, n: NodeInstance)
    requires Planned(s, order) && n in list && AllOwnedBy(s, list, lp)
    ensures n.id in Body(s.w, lp)
  {
    assert IsOwner(s.w, n.id, lp);
  }

  lemma InnerLoopIsGood(s: Setup, order: seq<NodeInstance>, list: seq<NodeInstance>, lp: NodeId, n: NodeInstance)
    requires Planned(s, order) && n in list && IsLoop(n) && lp in Ids(s.w.nodes) && AllOwnedBy(s, list, lp)
    ensures GoodLoop(s.w, list, Body(s.w, lp), |Body(s.w, lp)|, n.id)
  {
    OwnedNodeInBody(s, order, list, lp, n);
    InnerBodyStrictlyInside(s.w, order, lp, n.id);
    LoopNotInOwnBody(s.w, order, n.id);
    forall m | m in list ensures m.id !in Body(s.w, n.id) {
      OutsideInnerBody(s, order, list, lp, n, m);
    }
  }

  lemma OutsideInnerBody(s: Setup, order: seq<NodeInstance>, list: seq<NodeInstance>, lp: NodeId, n: NodeInstance,
      m: NodeInstance)
    requires Planned(s, order) && n in list && IsLoop(n) && m in list && AllOwnedBy(s, list, lp)
    ensures m.id !in Body(s.w, n.id)
  {
    OwnedNodeInBody(s, order, list, lp, n);
    if m.id in Body(s.w, n.id) {
      assert IsOwner(s.w, m.id, lp);
      assert LoopAround(s.w, n.id, m.id);
      OwnerIsInnermost(s.w, order, m.id, lp, n.id);
    }
  }

  /** The nodes a loop owns. */
  function OwnedNodes(s: Setup, order: seq<NodeInstance>, lp: NodeInstance): seq<NodeInstance> {
    OwnedBy(order, s.owner, Some(lp.id))
  }

  ghost predicate NestedLoop(s: Setup, order: seq<NodeInstance>, lp: NodeInstance) {
    && Listed(s, OwnedNodes(s, order, lp), Body(s.w, lp.id), |Body(s.w, lp.id)|)
    && lp.id !in Body(s.w, lp.id)
  }

  /** What each loop owns runs together inside the loop's body. */
  ghost predicate Nested(s: Setup, order: seq<NodeInstance>) {
    forall n :: n in s.w.nodes && IsLoop(n) ==> NestedLoop(s, order, n)
  }

  lemma PlannedIsNested(s: Setup, order: seq<NodeInstance>)
    requires Planned(s, order)
    ensures Nested(s, order)
  {
    forall n | n in s.w.nodes && IsLoop(n) ensures NestedLoop(s, order, n) {
      BodyIsListed(s, order, n);
      BodyInIds(s, order, n.id);
    }
  }

  /** The links that bring items back into a loop, in order. */
  function BackLinksInto(links: seq<Connection>, back: set<nat>, lp: NodeId, i: nat := 0): (found: seq<Connection>)
    requires i <= |links|
    ensures forall c :: c in found ==> c in links && c.toNode == lp
    decreases |links| - i
  {
    if i == |links| then []
    else (if i in back && links[i].toNode == lp then [links[i]] else []) + BackLinksInto(links, back, lp, i + 1)
  }
}
