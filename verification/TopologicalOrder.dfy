/** `topological_order` (src/engine.rs): Kahn's algorithm over the forward links. */
module TopologicalOrder {

  import opened Workflows
  import opened Reachability
  import opened LoopLayout
  import opened Sequences

  datatype OrderError = UnknownNode | StartNodes(found: nat) | CycleFound(ordered: nat, total: nat)

  datatype OrderResult = Ordered(order: seq<NodeInstance>) | Rejected(error: OrderError)

  // ---- The reference definitions --------------------------------------------------------------------------------

  /** A closed walk along the links. */
  ghost predicate Cycle(links: seq<Connection>, p: seq<NodeId>) {
    && |p| >= 2
    && p[0] == p[|p| - 1]
    && Path(links, p)
  }

  ghost predicate Path(links: seq<Connection>, p: seq<NodeId>) {
    forall i, k :: 0 <= i < k == i + 1 < |p| ==> Linked(links, p[i], p[k])
  }

  ghost predicate Acyclic(links: seq<Connection>) {
    forall p :: !Cycle(links, p)
  }

  ghost predicate NoInput(links: seq<Connection>, id: NodeId) {
    forall c :: c in links ==> c.toNode != id
  }

  ghost predicate OneStart(nodes: seq<NodeInstance>, links: seq<Connection>) {
    exists i :: 0 <= i < |nodes| && OnlyStart(nodes, links, i)
  }

  ghost predicate OnlyStart(nodes: seq<NodeInstance>, links: seq<Connection>, i: nat)
    requires i < |nodes|
  {
    forall j :: 0 <= j < |nodes| ==> (NoInput(links, nodes[j].id) <==> j == i)
  }

  /** When a non-empty workflow can be ordered. */
  ghost predicate Orderable(w: Workflow) {
    && EndpointsExist(w)
    && DistinctIds(w.nodes)
    && Acyclic(ForwardLinks(w))
    && (|w.nodes| > 1 ==> OneStart(w.nodes, ForwardLinks(w)))
  }

  ghost predicate LeftToRight(links: seq<Connection>, order: seq<NodeInstance>) {
    forall c, i, j ::
      c in links && 0 <= i < |order| && 0 <= j < |order| && order[i].id == c.fromNode && order[j].id == c.toNode ==>
        i < j
  }

  ghost predicate Reachable(links: seq<Connection>, a: NodeId, b: NodeId) {
    exists p :: |p| > 0 && p[0] == a && p[|p| - 1] == b && Path(links, p)
  }

  ghost predicate IsOrder(w: Workflow, order: seq<NodeInstance>) {
    && multiset(order) == multiset(w.nodes)
    && DistinctIds(order)
    && LeftToRight(ForwardLinks(w), order)
  }

  ghost predicate AllReachable(w: Workflow, order: seq<NodeInstance>) {
    forall n :: n in order ==> Reachable(ForwardLinks(w), order[0].id, n.id)
  }

  /** Nodes with the same forward upstream come in the workflow's own order. */
  ghost predicate EqualFootingKept(w: Workflow, order: seq<NodeInstance>) {
    forall a, b, i, j ::
      (0 <= a < b < |w.nodes| && 0 <= i < |order| && 0 <= j < |order|
       && order[i] == w.nodes[a] && order[j] == w.nodes[b]
       && Preds(ForwardLinks(w), w.nodes[a].id) == Preds(ForwardLinks(w), w.nodes[b].id))
      ==> i < j
  }

  ghost function Preds(links: seq<Connection>, id: NodeId): set<NodeId> {
    set c | c in links && c.toNode == id :: c.fromNode
  }

  ghost function Succs(links: seq<Connection>, id: NodeId): set<NodeId> {
    set c | c in links && c.fromNode == id :: c.toNode
  }

  // ---- An order has no cycle; no order means a cycle ------------------------------------------------------------

  lemma {:induction false} PathsGoRight(links: seq<Connection>, order: seq<NodeInstance>, p: seq<NodeId>, i: nat,
      j: nat)
    requires LeftToRight(links, order) && DistinctIds(order)
    requires forall c :: c in links ==> c.fromNode in Ids(order)
    requires |p| >= 2 && Path(links, p)
    requires i < |order| && j < |order| && order[i].id == p[0] && order[j].id == p[|p| - 1]
    ensures i < j
  {
    var q := p[..|p| - 1];
    var c :| c in links && c.fromNode == p[|p| - 2] && c.toNode == p[|p| - 1] by {
      assert Linked(links, p[|p| - 2], p[|p| - 1]);
    }
    var n :| n in order && n.id == c.fromNode;
    var k :| 0 <= k < |order| && order[k] == n;
    if |p| > 2 {
      PathsGoRight(links, order, q, i, k);
    } else {
      assert i == k;
    }
  }

  lemma OrderedIsAcyclic(links: seq<Connection>, order: seq<NodeInstance>)
    requires LeftToRight(links, order) && DistinctIds(order)
    requires forall c :: c in links ==> c.fromNode in Ids(order) && c.toNode in Ids(order)
    ensures Acyclic(links)
  {
    forall p | Cycle(links, p) ensures false {
      assert Linked(links, p[0], p[1]);
      var n :| n in order && n.id == p[0];
      var k :| 0 <= k < |order| && order[k] == n;
      PathsGoRight(links, order, p, k, k);
    }
  }

  /** Walking back inside a set where every node has a predecessor. */
  lemma {:induction false} BackWalk(links: seq<Connection>, stuck: set<NodeId>, x: NodeId, n: nat)
    returns (p: seq<NodeId>)
    requires x in stuck && forall y :: y in stuck ==> Preds(links, y) * stuck != {}
    ensures |p| == n + 1 && Path(links, p) && forall y :: y in p ==> y in stuck
  {
    if n == 0 {
      p := [x];
    } else {
      var q := BackWalk(links, stuck, x, n - 1);
      assert q[0] in stuck;
      var y :| y in Preds(links, q[0]) * stuck;
      p := [y] + q;
      forall k | 0 < k < |p| ensures Linked(links, p[k - 1], p[k]) {
        if k > 1 { assert Linked(links, q[k - 2], q[k - 1]); }
      }
    }
  }

  lemma SubPath(links: seq<Connection>, p: seq<NodeId>, i: nat, j: nat)
    requires Path(links, p) && i < j <= |p|
    ensures Path(links, p[i..j])
  {
    forall k | 0 < k < j - i ensures Linked(links, p[i..j][k - 1], p[i..j][k]) {
      assert Linked(links, p[i + k - 1], p[i + k]);
    }
  }

  lemma RepeatMakesCycle(links: seq<Connection>, p: seq<NodeId>)
    requires Path(links, p) && !NoRepeats(p)
    ensures !Acyclic(links)
  {
    var i, j :| 0 <= i < j < |p| && p[i] == p[j];
    SubPath(links, p, i, j + 1);
    assert Cycle(links, p[i..j + 1]);
  }

  lemma StuckHasCycle(links: seq<Connection>, stuck: set<NodeId>)
    requires stuck != {} && forall y :: y in stuck ==> Preds(links, y) * stuck != {}
    ensures !Acyclic(links)
  {
    var x :| x in stuck;
    var p := BackWalk(links, stuck, x, |stuck|);
    SubsetCount(Elements(p), stuck);
    NoRepeatsCount(p);
    RepeatMakesCycle(links, p);
  }

  // ---- The algorithm --------------------------------------------------------------------------------------------

  function PositionOf(nodes: seq<NodeInstance>, id: NodeId): (i: nat)
    ensures i < |nodes| ==> nodes[i].id == id
    ensures forall j :: 0 <= j < i && j < |nodes| ==> nodes[j].id != id
    ensures id in Ids(nodes) <==> i < |nodes|
    ensures i <= |nodes|
  {
    if nodes == [] then 0
    else if nodes[0].id == id then 0
    else 1 + PositionOf(nodes[1..], id)
  }

  /** Each id's position in the workflow's node list. */
  function Positions(nodes: seq<NodeInstance>): (rank: map<NodeId, nat>)
    ensures rank.Keys == Ids(nodes)
    ensures forall a, b :: a in rank && b in rank && a != b ==> rank[a] != rank[b]
    ensures forall id :: id in rank ==> rank[id] == PositionOf(nodes, id)
  {
    map id | id in Ids(nodes) :: PositionOf(nodes, id)
  }

  ghost predicate Injective(rank: map<NodeId, nat>) {
    forall a, b :: a in rank && b in rank && a != b ==> rank[a] != rank[b]
  }

  ghost predicate SortedBy(rank: map<NodeId, nat>, ids: seq<NodeId>) {
    && (forall id :: id in ids ==> id in rank)
    && forall i, j :: 0 <= i < j < |ids| ==> rank[ids[i]] < rank[ids[j]]
  }

  /** `sort_by_key(position_of)`, on distinct ids of the workflow. */
  method SortByPosition(rank: map<NodeId, nat>, ids: seq<NodeId>) returns (sorted: seq<NodeId>)
    requires Injective(rank) && NoRepeats(ids) && forall id :: id in ids ==> id in rank
    ensures SortedBy(rank, sorted)
    ensures forall id :: id in sorted <==> id in ids
  {
    sorted := [];
    for k := 0 to |ids|
      invariant SortedBy(rank, sorted)
      invariant forall id :: id in sorted <==> id in ids[..k]
    {
      sorted := InsertByPosition(rank, sorted, ids[k]);
    }
  }

  method InsertByPosition(rank: map<NodeId, nat>, sorted: seq<NodeId>, id: NodeId) returns (r: seq<NodeId>)
    requires Injective(rank) && SortedBy(rank, sorted) && id !in sorted && id in rank
    ensures SortedBy(rank, r)
    ensures forall x :: x in r <==> x in sorted || x == id
  {
    var k := 0;
    while k < |sorted| && rank[sorted[k]] < rank[id]
      invariant k <= |sorted|
      invariant forall j :: 0 <= j < k ==> rank[sorted[j]] < rank[id]
    {
      k := k + 1;
    }
    r := sorted[..k] + [id] + sorted[k..];
    InsertedElements(sorted, k, id);
    InsertedSorted(rank, sorted, k, id);
  }

  lemma InsertedElements(sorted: seq<NodeId>, k: nat, id: NodeId)
    requires k <= |sorted|
    ensures forall x :: x in sorted[..k] + [id] + sorted[k..] <==> x in sorted || x == id
  {
    assert sorted == sorted[..k] + sorted[k..];
  }

  lemma InsertedSorted(rank: map<NodeId, nat>, sorted: seq<NodeId>, k: nat, id: NodeId)
    requires Injective(rank) && SortedBy(rank, sorted) && id !in sorted && id in rank && k <= |sorted|
    requires forall j :: 0 <= j < k ==> rank[sorted[j]] < rank[id]
    requires k < |sorted| ==> rank[sorted[k]] >= rank[id]
    ensures SortedBy(rank, sorted[..k] + [id] + sorted[k..])
  {
    var r := sorted[..k] + [id] + sorted[k..];
    InsertedElements(sorted, k, id);
    assert k < |sorted| ==> rank[sorted[k]] > rank[id];
    forall i, j | 0 <= i < j < |r| ensures rank[r[i]] < rank[r[j]] {
      assert i < k ==> r[i] == sorted[i];
      assert i > k ==> r[i] == sorted[i - 1];
      assert j < k ==> r[j] == sorted[j];
      assert j > k ==> r[j] == sorted[j - 1];
    }
  }

  ghost predicate Adjacent(links: seq<Connection>, next: map<NodeId, seq<NodeId>>) {
    && (forall id :: id in next ==> NoRepeats(next[id]) && forall x :: x in next[id] <==> x in Succs(links, id))
    && (forall id :: id !in next ==> Succs(links, id) == {})
  }

  lemma OneMorePred(links: seq<Connection>, c: Connection, id: NodeId)
    ensures Preds(links + [c], id) == Preds(links, id) + (if c.toNode == id then {c.fromNode} else {})
  {
  }

  lemma OneMoreSucc(links: seq<Connection>, c: Connection, id: NodeId)
    ensures Succs(links + [c], id) == Succs(links, id) + (if c.fromNode == id then {c.toNode} else {})
  {
  }

  lemma InDegreeGrows(links: seq<Connection>, c: Connection, id: NodeId)
    ensures |Preds(links + [c], id)| ==
      |Preds(links, id)| + if id == c.toNode && c.fromNode !in Preds(links, id) then 1 else 0
  {
    OneMorePred(links, c, id);
    if id == c.toNode && c.fromNode in Preds(links, id) {
      assert Preds(links, id) + {c.fromNode} == Preds(links, id);
    } else if id != c.toNode {
      assert Preds(links, id) + {} == Preds(links, id);
    }
  }

  ghost predicate InDegrees(links: seq<Connection>, ids: set<NodeId>, degree: map<NodeId, nat>) {
    degree.Keys == ids && forall id :: id in ids ==> degree[id] == |Preds(links, id)|
  }

  lemma InDegreesGrow(links: seq<Connection>, c: Connection, ids: set<NodeId>, degree: map<NodeId, nat>,
      degree': map<NodeId, nat>)
    requires InDegrees(links, ids, degree) && c.toNode in ids
    requires c.fromNode in Preds(links, c.toNode) ==> degree' == degree
    requires c.fromNode !in Preds(links, c.toNode) ==> degree' == degree[c.toNode := degree[c.toNode] + 1]
    ensures InDegrees(links + [c], ids, degree')
  {
    forall id | id in ids ensures degree'[id] == |Preds(links + [c], id)| {
      InDegreeGrows(links, c, id);
    }
  }

  lemma AdjacentGrows(links: seq<Connection>, c: Connection, next: map<NodeId, seq<NodeId>>,
      next': map<NodeId, seq<NodeId>>)
    requires Adjacent(links, next)
    requires next' == if c.toNode in Succs(links, c.fromNode) then next
                      else next[c.fromNode := (if c.fromNode in next then next[c.fromNode] else []) + [c.toNode]]
    ensures Adjacent(links + [c], next')
  {
    forall id
      ensures id in next' ==> NoRepeats(next'[id]) && forall x :: x in next'[id] <==> x in Succs(links + [c], id)
    {
      OneMoreSucc(links, c, id);
    }
    forall id | id !in next' ensures Succs(links + [c], id) == {} {
      OneMoreSucc(links, c, id);
    }
  }

  ghost predicate Seen(links: seq<Connection>, seen: set<(NodeId, NodeId)>) {
    forall a, b :: (a, b) in seen <==> a in Preds(links, b)
  }

  lemma SeenGrows(links: seq<Connection>, c: Connection, seen: set<(NodeId, NodeId)>)
    requires Seen(links, seen)
    ensures Seen(links + [c], seen + {(c.fromNode, c.toNode)})
  {
    forall a, b ensures (a, b) in seen + {(c.fromNode, c.toNode)} <==> a in Preds(links + [c], b) {
      OneMorePred(links, c, b);
    }
  }

  /** One link's turn: a pair of nodes already linked changes nothing. */
  method AddLink(c: Connection, ghost links: seq<Connection>, ghost ids: set<NodeId>,
                 degree: map<NodeId, nat>, next: map<NodeId, seq<NodeId>>, seen: set<(NodeId, NodeId)>)
    returns (degree': map<NodeId, nat>, next': map<NodeId, seq<NodeId>>, seen': set<(NodeId, NodeId)>)
    requires Seen(links, seen) && InDegrees(links, ids, degree) && Adjacent(links, next)
    requires c.toNode in ids
    ensures Seen(links + [c], seen') && InDegrees(links + [c], ids, degree') && Adjacent(links + [c], next')
  {
    degree', next' := degree, next;
    seen' := seen + {(c.fromNode, c.toNode)};
    assert (c.fromNode, c.toNode) in seen <==> c.fromNode in Preds(links, c.toNode);
    assert c.fromNode in Preds(links, c.toNode) <==> c.toNode in Succs(links, c.fromNode);
    if (c.fromNode, c.toNode) !in seen {
      next' := next[c.fromNode := (if c.fromNode in next then next[c.fromNode] else []) + [c.toNode]];
      degree' := degree[c.toNode := degree[c.toNode] + 1];
    }
    SeenGrows(links, c, seen);
    InDegreesGrow(links, c, ids, degree, degree');
    AdjacentGrows(links, c, next, next');
  }

  lemma NoLinksBuilt(ids: set<NodeId>)
    ensures Seen([], {}) && InDegrees([], ids, map id | id in ids :: 0) && Adjacent([], map[])
  {
    assert forall id :: Preds([], id) == {} == Succs([], id);
  }

  /** In-degrees and adjacency lists, counting each pair of nodes once. */
  method Build(ids: set<NodeId>, links: seq<Connection>)
    returns (degree: map<NodeId, nat>, next: map<NodeId, seq<NodeId>>)
    requires forall i :: 0 <= i < |links| ==> links[i].toNode in ids
    ensures InDegrees(links, ids, degree)
    ensures Adjacent(links, next)
  {
    degree := map id | id in ids :: 0;
    next := map[];
    var seen: set<(NodeId, NodeId)> := {};
    ghost var part: seq<Connection> := [];
    NoLinksBuilt(ids);
    for i := 0 to |links|
      invariant part == links[..i]
      invariant Seen(part, seen) && InDegrees(part, ids, degree) && Adjacent(part, next)
    {
      degree, next, seen := AddLink(links[i], part, ids, degree, next, seen);
      part := part + [links[i]];
      Snoc(links, i);
    }
    TakeAll(links);
  }

  /** Takes one off each successor's in-degree; `ready` are those now at zero. */
  method Release(nexts: seq<NodeId>, degree: map<NodeId, nat>) returns (degree': map<NodeId, nat>, ready: seq<NodeId>)
    requires NoRepeats(nexts) && forall x :: x in nexts ==> x in degree && degree[x] > 0
    ensures degree'.Keys == degree.Keys
    ensures forall x :: x in degree ==> degree'[x] == degree[x] - if x in nexts then 1 else 0
    ensures NoRepeats(ready) && forall x :: x in ready <==> x in nexts && degree'[x] == 0
  {
    degree', ready := degree, [];
    for k := 0 to |nexts|
      invariant degree'.Keys == degree.Keys
      invariant forall x :: x in degree ==> degree'[x] == degree[x] - if x in nexts[..k] then 1 else 0
      invariant NoRepeats(ready) && forall x :: x in ready <==> x in nexts[..k] && degree'[x] == 0
    {
      Snoc(nexts, k);
      degree' := degree'[nexts[k] := degree'[nexts[k]] - 1];
      if degree'[nexts[k]] == 0 {
        ready := ready + [nexts[k]];
      }
    }
    TakeAll(nexts);
  }

  /** The nodes ordered so far and those queued: distinct, and exactly those whose predecessors are all ordered. */
  ghost predicate Frontier(links: seq<Connection>, ids: set<NodeId>, order: seq<NodeId>, queue: seq<NodeId>) {
    && NoRepeats(order + queue)
    && (forall x :: x in order + queue ==> x in ids)
    && forall x :: x in ids ==> (x in order + queue <==> Preds(links, x) <= Elements(order))
  }

  ghost predicate PredsFirst(links: seq<Connection>, order: seq<NodeId>) {
    forall k :: 0 <= k < |order| ==> Preds(links, order[k]) <= Elements(order[..k])
  }

  ghost predicate Degrees(links: seq<Connection>, ids: set<NodeId>, done: set<NodeId>, degree: map<NodeId, nat>) {
    degree.Keys == ids && forall id :: id in ids ==> degree[id] == |Preds(links, id) - done|
  }

  lemma DegreesStep(links: seq<Connection>, ids: set<NodeId>, done: set<NodeId>, id: NodeId,
                    nexts: seq<NodeId>, degree: map<NodeId, nat>)
    requires Degrees(links, ids, done, degree) && id !in done
    requires forall x :: x in nexts <==> x in Succs(links, id)
    requires forall x :: x in Succs(links, id) ==> x in ids
    ensures forall x :: x in nexts ==> x in degree && degree[x] > 0
    ensures forall x :: x in ids ==> |Preds(links, x) - (done + {id})| == degree[x] - if x in nexts then 1 else 0
  {
    forall x | x in ids ensures |Preds(links, x) - (done + {id})| == degree[x] - (if x in nexts then 1 else 0) {
      var now := Preds(links, x) - (done + {id});
      var was := Preds(links, x) - done;
      if x in nexts {
        assert id in was;
        assert was == now + {id};
      } else {
        assert id !in Preds(links, x);
        assert was == now;
      }
    }
    forall x | x in nexts ensures degree[x] > 0 {
      assert id in Preds(links, x) - done;
    }
  }

  lemma FrontierStep(links: seq<Connection>, ids: set<NodeId>, order: seq<NodeId>, id: NodeId, rest: seq<NodeId>,
      ready: seq<NodeId>)
    requires Frontier(links, ids, order, [id] + rest)
    requires NoRepeats(ready)
    requires forall x :: x in ready <==> x in ids && id in Preds(links, x) && Preds(links, x) <= Elements(order) + {id}
    ensures Frontier(links, ids, order + [id], rest + ready)
  {
    var was := order + ([id] + rest);
    var now := (order + [id]) + (rest + ready);
    assert now == was + ready;
    assert Elements(order + [id]) == Elements(order) + {id};
    NoRepeatsConcat(order, [id] + rest);
    assert id in [id] + rest;
    forall x | x in was ensures x !in ready {
      assert id !in Elements(order);
    }
    NoRepeatsConcat(was, ready);
    forall x | x in ids ensures x in now <==> Preds(links, x) <= Elements(order + [id]) {
      if Preds(links, x) <= Elements(order) + {id} && id !in Preds(links, x) {
        assert Preds(links, x) <= Elements(order);
      }
    }
  }

  lemma PredsFirstStep(links: seq<Connection>, order: seq<NodeId>, id: NodeId)
    requires PredsFirst(links, order) && Preds(links, id) <= Elements(order)
    ensures PredsFirst(links, order + [id])
  {
    var now := order + [id];
    forall k | 0 <= k < |now| ensures Preds(links, now[k]) <= Elements(now[..k]) {
      assert now[..k] == order[..k];
      assert k == |order| ==> order[..k] == order;
    }
  }

  /** Placed nodes with the same forward upstream stand in the workflow's own order. */
  ghost predicate TopToBottom(rank: map<NodeId, nat>, links: seq<Connection>, line: seq<NodeId>) {
    forall a, j ::
      (0 <= j < |line| && line[j] in rank && a in rank && rank[a] < rank[line[j]]
       && Preds(links, a) == Preds(links, line[j]))
      ==> a in line[..j]
  }

  lemma TopToBottomStep(rank: map<NodeId, nat>, links: seq<Connection>, line: seq<NodeId>, ready: seq<NodeId>)
    requires TopToBottom(rank, links, line) && SortedBy(rank, ready)
    requires forall a, b :: b in ready && a in rank && Preds(links, a) == Preds(links, b) ==> a in ready
    ensures TopToBottom(rank, links, line + ready)
  {
    var now := line + ready;
    forall a, j | 0 <= j < |now| && now[j] in rank && a in rank && rank[a] < rank[now[j]] &&
      Preds(links, a) == Preds(links, now[j])
      ensures a in now[..j]
    {
      if j < |line| {
        assert now[..j] == line[..j];
      } else {
        assert now[j] == ready[j - |line|];
        var i :| 0 <= i < |ready| && ready[i] == a;
        assert i < j - |line|;
        assert now[..j][|line| + i] == a;
      }
    }
  }

  /** The ids with no predecessor, top to bottom. */
  method ReadyAtStart(ids: set<NodeId>, rank: map<NodeId, nat>, degree: map<NodeId, nat>, ghost links: seq<Connection>)
    returns (queue: seq<NodeId>)
    requires rank.Keys == ids && Injective(rank)
    requires InDegrees(links, ids, degree)
    ensures Frontier(links, ids, [], queue) && TopToBottom(rank, links, queue)
  {
    var ready: seq<NodeId> := [];
    var todo := ids;
    while todo != {}
      invariant todo <= ids && NoRepeats(ready)
      invariant forall id :: id in ready <==> id in ids && id !in todo && degree[id] == 0
    {
      var id :| id in todo;
      todo := todo - {id};
      if degree[id] == 0 {
        ready := ready + [id];
      }
    }
    queue := SortByPosition(rank, ready);
    SortedNoRepeats(rank, queue);
    assert [] + queue == queue;
    forall id | id in ids ensures id in queue <==> Preds(links, id) <= Elements<NodeId>([]) {
      assert Preds(links, id) == {} <==> |Preds(links, id)| == 0;
    }
    TopToBottomStep(rank, links, [], queue);
  }

  lemma SortedNoRepeats(rank: map<NodeId, nat>, ids: seq<NodeId>)
    requires SortedBy(rank, ids)
    ensures NoRepeats(ids)
  {
  }

  /** Ordering `id` and queueing the successors now ready, sorted, keeps frontier and order. */
  lemma AdvanceKeeps(ids: set<NodeId>, rank: map<NodeId, nat>, degree': map<NodeId, nat>, links: seq<Connection>,
      order: seq<NodeId>, id: NodeId, rest: seq<NodeId>, nexts: seq<NodeId>, sorted: seq<NodeId>)
    requires rank.Keys == ids && SortedBy(rank, sorted)
    requires forall x :: x in nexts <==> x in Succs(links, id)
    requires forall x :: x in Succs(links, id) ==> x in ids
    requires Frontier(links, ids, order, [id] + rest)
    requires Degrees(links, ids, Elements(order) + {id}, degree')
    requires forall x :: x in sorted <==> x in nexts && degree'[x] == 0
    requires TopToBottom(rank, links, order + ([id] + rest))
    ensures Frontier(links, ids, order + [id], rest + sorted)
    ensures TopToBottom(rank, links, (order + [id]) + (rest + sorted))
  {
    SortedNoRepeats(rank, sorted);
    ReadyNow(links, ids, Elements(order), id, nexts, degree', sorted);
    FrontierStep(links, ids, order, id, rest, sorted);
    TopToBottomStep(rank, links, order + ([id] + rest), sorted);
    assert (order + [id]) + (rest + sorted) == (order + ([id] + rest)) + sorted;
  }

  /** One turn of the queue loop: order `id`, release its successors, queue the ready ones. */
  method Advance(ids: set<NodeId>, rank: map<NodeId, nat>, degree: map<NodeId, nat>, next: map<NodeId, seq<NodeId>>,
                 ghost links: seq<Connection>, ghost order: seq<NodeId>, id: NodeId, rest: seq<NodeId>)
    returns (degree': map<NodeId, nat>, queue: seq<NodeId>)
    requires rank.Keys == ids && Injective(rank)
    requires Adjacent(links, next) && forall x :: x in Succs(links, id) ==> x in ids
    requires Frontier(links, ids, order, [id] + rest)
    requires Degrees(links, ids, Elements(order), degree)
    requires TopToBottom(rank, links, order + ([id] + rest))
    ensures Frontier(links, ids, order + [id], queue)
    ensures Degrees(links, ids, Elements(order + [id]), degree')
    ensures TopToBottom(rank, links, (order + [id]) + queue)
  {
    var nexts := if id in next then next[id] else [];
    ghost var done := Elements(order);
    NotYetOrdered(order, id, rest);
    DegreesStep(links, ids, done, id, nexts, degree);
    var ready;
    degree', ready := Release(nexts, degree);
    var sorted := SortByPosition(rank, ready);
    queue := rest + sorted;
    AdvanceKeeps(ids, rank, degree', links, order, id, rest, nexts, sorted);
  }

  lemma NotYetOrdered(order: seq<NodeId>, id: NodeId, rest: seq<NodeId>)
    requires NoRepeats(order + ([id] + rest))
    ensures id !in Elements(order) && Elements(order + [id]) == Elements(order) + {id}
  {
    NoRepeatsConcat(order, [id] + rest);
    assert ([id] + rest)[0] == id;
  }

  /** The released successors now at zero are those whose last missing predecessor was `id`. */
  lemma ReadyNow(links: seq<Connection>, ids: set<NodeId>, done: set<NodeId>, id: NodeId,
                 nexts: seq<NodeId>, degree': map<NodeId, nat>, ready: seq<NodeId>)
    requires Degrees(links, ids, done + {id}, degree')
    requires forall x :: x in nexts <==> x in Succs(links, id)
    requires forall x :: x in Succs(links, id) ==> x in ids
    requires forall x :: x in ready <==> x in nexts && degree'[x] == 0
    ensures forall x :: x in ready <==> x in ids && id in Preds(links, x) && Preds(links, x) <= done + {id}
  {
    forall x | x in ids ensures degree'[x] == 0 <==> Preds(links, x) <= done + {id} {
      var missing := Preds(links, x) - (done + {id});
      assert |missing| == 0 <==> missing == {};
    }
    forall x ensures x in Succs(links, id) <==> id in Preds(links, x) {}
  }

  /** The queue loop. */
  method Drain(ids: set<NodeId>, rank: map<NodeId, nat>, degree0: map<NodeId, nat>, next: map<NodeId, seq<NodeId>>,
               ghost links: seq<Connection>) returns (order: seq<NodeId>)
    requires rank.Keys == ids && Injective(rank)
    requires InDegrees(links, ids, degree0) && Adjacent(links, next)
    requires forall id, x :: x in Succs(links, id) ==> x in ids
    ensures Frontier(links, ids, order, []) && PredsFirst(links, order)
    ensures TopToBottom(rank, links, order)
  {
    var degree := degree0;
    var queue := ReadyAtStart(ids, rank, degree, links);
    order := [];
    assert order + queue == queue;
    DegreesAtStart(links, ids, degree);
    while queue != []
      invariant Frontier(links, ids, order, queue) && PredsFirst(links, order)
      invariant Degrees(links, ids, Elements(order), degree)
      invariant TopToBottom(rank, links, order + queue)
      decreases ids - Elements(order)
    {
      var id, rest := queue[0], queue[1..];
      assert queue == [id] + rest;
      NextToOrder(links, ids, order, id, rest);
      PredsFirstStep(links, order, id);
      degree, queue := Advance(ids, rank, degree, next, links, order, id, rest);
      order := order + [id];
    }
    assert order + [] == order;
  }

  lemma DegreesAtStart(links: seq<Connection>, ids: set<NodeId>, degree: map<NodeId, nat>)
    requires InDegrees(links, ids, degree)
    ensures Degrees(links, ids, Elements<NodeId>([]), degree)
  {
    forall id | id in ids ensures Preds(links, id) - Elements<NodeId>([]) == Preds(links, id) {}
  }

  lemma NextToOrder(links: seq<Connection>, ids: set<NodeId>, order: seq<NodeId>, id: NodeId, rest: seq<NodeId>)
    requires Frontier(links, ids, order, [id] + rest)
    ensures id in ids && Preds(links, id) <= Elements(order)
    ensures id !in Elements(order) && Elements(order + [id]) == Elements(order) + {id}
  {
    assert id in order + ([id] + rest) by { assert ([id] + rest)[0] == id; }
    NotYetOrdered(order, id, rest);
  }

  // ---- From the queue loop's result to the contract -------------------------------------------------------------

  lemma IdsCount(nodes: seq<NodeInstance>)
    ensures |Ids(nodes)| <= |nodes|
    ensures |Ids(nodes)| == |nodes| <==> DistinctIds(nodes)
  {
    var s := seq(|nodes|, i requires 0 <= i < |nodes| => nodes[i].id);
    NoRepeatsCount(s);
    assert Elements(s) == Ids(nodes) by {
      forall n | n in nodes ensures n.id in s {
        var i :| 0 <= i < |nodes| && nodes[i] == n;
        assert s[i] == n.id;
      }
    }
    assert NoRepeats(s) <==> DistinctIds(nodes) by {
      forall i, j | 0 <= i < j < |nodes| ensures s[i] != s[j] <==> nodes[i].id != nodes[j].id {}
    }
  }

  lemma LinkIds(w: Workflow, links: seq<Connection>)
    requires EndpointsExist(w) && links == ForwardLinks(w)
    ensures forall c :: c in links ==> c.fromNode in Ids(w.nodes) && c.toNode in Ids(w.nodes)
  {
    forall c | c in links ensures c.fromNode in Ids(w.nodes) && c.toNode in Ids(w.nodes) {
      ForwardLinkIff(w, c);
    }
  }

  lemma SomeLeftOver(nodes: seq<NodeInstance>, order: seq<NodeId>)
    requires NoRepeats(order) && Elements(order) <= Ids(nodes) && |order| != |nodes| && DistinctIds(nodes)
    ensures Ids(nodes) - Elements(order) != {}
  {
    var ids, done := Ids(nodes), Elements(order);
    IdsCount(nodes);
    NoRepeatsCount(order);
    assert ids == done + (ids - done);
  }

  lemma LeftOverLacksPred(links: seq<Connection>, ids: set<NodeId>, order: seq<NodeId>, y: NodeId)
    requires Frontier(links, ids, order, [])
    requires forall c :: c in links ==> c.fromNode in ids
    requires y in ids - Elements(order)
    ensures Preds(links, y) * (ids - Elements(order)) != {}
  {
    assert order + [] == order;
    var p :| p in Preds(links, y) && p !in Elements(order);
    assert p in Preds(links, y) * (ids - Elements(order));
  }

  /** When nodes are left over, either an id is used twice or they hold a cycle. */
  lemma LeftOverMeansCycle(nodes: seq<NodeInstance>, links: seq<Connection>, order: seq<NodeId>)
    requires Frontier(links, Ids(nodes), order, []) && |order| != |nodes|
    requires forall c :: c in links ==> c.fromNode in Ids(nodes)
    ensures !DistinctIds(nodes) || !Acyclic(links)
  {
    if DistinctIds(nodes) {
      var stuck := Ids(nodes) - Elements(order);
      assert order + [] == order;
      SomeLeftOver(nodes, order);
      forall y | y in stuck ensures Preds(links, y) * stuck != {} {
        LeftOverLacksPred(links, Ids(nodes), order, y);
      }
      StuckHasCycle(links, stuck);
    }
  }

  lemma AllOrderedMeansDistinct(nodes: seq<NodeInstance>, links: seq<Connection>, order: seq<NodeId>)
    requires Frontier(links, Ids(nodes), order, []) && |order| == |nodes|
    ensures DistinctIds(nodes) && Elements(order) == Ids(nodes)
  {
    IdsCount(nodes);
    assert order + [] == order;
    NoRepeatsCount(order);
    SubsetCount(Elements(order), Ids(nodes));
  }

  ghost predicate Picked(nodes: seq<NodeInstance>, ids: seq<NodeId>, picked: seq<NodeInstance>) {
    |picked| == |ids| && forall k :: 0 <= k < |ids| ==> picked[k].id == ids[k] && picked[k] in nodes
  }

  /** Looks the ordered ids up among the nodes. */
  method Pick(nodes: seq<NodeInstance>, ids: seq<NodeId>) returns (picked: seq<NodeInstance>)
    requires forall id :: id in ids ==> id in Ids(nodes)
    ensures Picked(nodes, ids, picked)
  {
    picked := [];
    for k := 0 to |ids|
      invariant |picked| == k
      invariant forall j :: 0 <= j < k ==> picked[j].id == ids[j] && picked[j] in nodes
    {
      picked := picked + [nodes[PositionOf(nodes, ids[k])]];
    }
  }

  lemma PickedIsPermutation(nodes: seq<NodeInstance>, ids: seq<NodeId>, picked: seq<NodeInstance>)
    requires Picked(nodes, ids, picked) && NoRepeats(ids) && DistinctIds(nodes) && Elements(ids) == Ids(nodes)
    ensures DistinctIds(picked) && multiset(picked) == multiset(nodes)
  {
    forall n | n in nodes ensures n in picked {
      assert n.id in Elements(ids);
      var k :| 0 <= k < |ids| && ids[k] == n.id;
      var i :| 0 <= i < |nodes| && nodes[i] == picked[k];
      var j :| 0 <= j < |nodes| && nodes[j] == n;
      assert i == j;
    }
    assert NoRepeats(picked) && NoRepeats(nodes);
    SameElementsSameMultiset(picked, nodes);
  }

  lemma PickedLeftToRight(links: seq<Connection>, nodes: seq<NodeInstance>, ids: seq<NodeId>, picked: seq<NodeInstance>)
    requires Picked(nodes, ids, picked) && NoRepeats(ids) && PredsFirst(links, ids)
    ensures LeftToRight(links, picked)
  {
    forall c, i, j | c in links && 0 <= i < |picked| && 0 <= j < |picked| && picked[i].id == c.fromNode &&
      picked[j].id == c.toNode
      ensures i < j
    {
      assert c.fromNode in Preds(links, ids[j]);
      assert c.fromNode in ids[..j];
    }
  }

  lemma ExtendReach(links: seq<Connection>, a: NodeId, b: NodeId, c: NodeId)
    requires Reachable(links, a, b) && Linked(links, b, c)
    ensures Reachable(links, a, c)
  {
    var p :| |p| > 0 && p[0] == a && p[|p| - 1] == b && Path(links, p);
    var q := p + [c];
    forall k | 0 < k < |q| ensures Linked(links, q[k - 1], q[k]) {
      if k < |p| { assert q[k] == p[k] && q[k - 1] == p[k - 1]; }
    }
    assert q[0] == a && q[|q| - 1] == c && Path(links, q);
  }

  lemma {:induction false} ReachedFromFirst(links: seq<Connection>, ids: seq<NodeId>, k: nat)
    requires PredsFirst(links, ids) && k < |ids|
    requires forall j :: 0 < j < |ids| ==> Preds(links, ids[j]) != {}
    ensures Reachable(links, ids[0], ids[k])
    decreases k
  {
    if k == 0 {
      assert Path(links, [ids[0]]);
      assert [ids[0]][|[ids[0]]| - 1] == ids[0];
    } else {
      var x :| x in Preds(links, ids[k]);
      assert x in ids[..k];
      var j :| 0 <= j < k && ids[j] == x;
      ReachedFromFirst(links, ids, j);
      assert Linked(links, x, ids[k]);
      ExtendReach(links, ids[0], x, ids[k]);
    }
  }

  /** With one start, every later node has a predecessor. */
  lemma LaterNodesHavePreds(nodes: seq<NodeInstance>, links: seq<Connection>, ids: seq<NodeId>, k: nat)
    requires PredsFirst(links, ids) && NoRepeats(ids) && Elements(ids) == Ids(nodes)
    requires |nodes| > 1 ==> OneStart(nodes, links)
    requires |ids| == |nodes| && 0 < k < |ids|
    ensures Preds(links, ids[k]) != {}
  {
    var i :| 0 <= i < |nodes| && OnlyStart(nodes, links, i);
    assert Preds(links, ids[0]) <= Elements(ids[..0]);
    assert Preds(links, ids[0]) == {};
    var first := ids[0];
    forall c | c in links ensures c.toNode != first {
      assert c.toNode == first ==> c.fromNode in Preds(links, first);
    }
    assert ids[0] in Elements(ids) && ids[k] in Elements(ids);
    var a :| 0 <= a < |nodes| && nodes[a].id == ids[0];
    var b :| 0 <= b < |nodes| && nodes[b].id == ids[k];
    assert a == i && b != i;
    assert !NoInput(links, ids[k]);
    var c :| c in links && c.toNode == ids[k];
    assert c.fromNode in Preds(links, ids[k]);
  }

  method CheckEndpoints(w: Workflow) returns (ok: bool)
    ensures ok <==> EndpointsExist(w)
  {
    for i := 0 to |w.connections|
      invariant forall j :: 0 <= j < i ==> HasNode(w, w.connections[j].fromNode) && HasNode(w, w.connections[j].toNode)
    {
      var c := w.connections[i];
      var known := c.fromNode in Ids(w.nodes) && c.toNode in Ids(w.nodes);
      assert known <==> HasNode(w, c.fromNode) && HasNode(w, c.toNode);
      if !known {
        assert c in w.connections;
        return false;
      }
    }
    return true;
  }

  ghost function StartIndexes(nodes: seq<NodeInstance>, links: seq<Connection>, n: nat): set<nat>
    requires n <= |nodes|
  {
    set i | 0 <= i < n && NoInput(links, nodes[i].id)
  }

  lemma SingleStart(nodes: seq<NodeInstance>, links: seq<Connection>)
    ensures |StartIndexes(nodes, links, |nodes|)| == 1 <==> OneStart(nodes, links)
  {
    var starts := StartIndexes(nodes, links, |nodes|);
    if |starts| == 1 {
      var i :| i in starts;
      assert starts == {i} by { SubsetCount({i}, starts); }
      assert forall j :: 0 <= j < |nodes| ==> (NoInput(links, nodes[j].id) <==> j in starts);
      assert OnlyStart(nodes, links, i);
    }
    if OneStart(nodes, links) {
      var i :| 0 <= i < |nodes| && OnlyStart(nodes, links, i);
      assert starts == {i};
    }
  }

  method CountStarts(nodes: seq<NodeInstance>, links: seq<Connection>) returns (count: nat)
    ensures count == |StartIndexes(nodes, links, |nodes|)|
    ensures count == 1 <==> OneStart(nodes, links)
  {
    var targets := Targets(links);
    count := 0;
    for i := 0 to |nodes|
      invariant count == |StartIndexes(nodes, links, i)|
    {
      assert nodes[i].id in targets <==> !NoInput(links, nodes[i].id);
      assert StartIndexes(nodes, links, i + 1) ==
        StartIndexes(nodes, links, i) + if nodes[i].id in targets then {} else {i};
      if nodes[i].id !in targets {
        count := count + 1;
      }
    }
    SingleStart(nodes, links);
  }

  method FindOrder(w: Workflow) returns (r: OrderResult)
    ensures w.nodes == [] ==> r == Ordered([])
    ensures w.nodes != [] ==> (r.Ordered? <==> Orderable(w))
    ensures r.Ordered? ==> IsOrder(w, r.order) && AllReachable(w, r.order) && EqualFootingKept(w, r.order)
    ensures w.nodes != [] ==> (r == Rejected(UnknownNode) <==> !EndpointsExist(w))
    ensures r.Rejected? && r.error.CycleFound? ==> !DistinctIds(w.nodes) || !Acyclic(ForwardLinks(w))
    ensures r.Rejected? && r.error.StartNodes? ==> !OneStart(w.nodes, ForwardLinks(w))
  {
    if w.nodes == [] {
      return Ordered([]);
    }
    var ok := CheckEndpoints(w);
    if !ok {
      return Rejected(UnknownNode);
    }
    var back := BackEdges(w);
    var links := Without(w.connections, back);
    assert links == ForwardLinks(w);
    var starts := CountStarts(w.nodes, links);
    if |w.nodes| > 1 && starts != 1 {
      return Rejected(StartNodes(starts));
    }
    r := OrderForward(w, links);
  }

  /** Orders the nodes of a workflow that passed the checks. */
  method OrderForward(w: Workflow, links: seq<Connection>) returns (r: OrderResult)
    requires links == ForwardLinks(w) && w.nodes != [] && EndpointsExist(w)
    requires |w.nodes| > 1 ==> OneStart(w.nodes, links)
    ensures r.Ordered? <==> DistinctIds(w.nodes) && Acyclic(links)
    ensures r.Ordered? ==> IsOrder(w, r.order) && AllReachable(w, r.order) && EqualFootingKept(w, r.order)
    ensures r.Rejected? ==> r.error.CycleFound?
  {
    LinkIds(w, links);
    var ids := Ids(w.nodes);
    var degree, next := Build(ids, links);
    var rank := Positions(w.nodes);
    var order := Drain(ids, rank, degree, next, links);
    if |order| != |w.nodes| {
      LeftOverMeansCycle(w.nodes, links, order);
      return Rejected(CycleFound(|order|, |w.nodes|));
    }
    AllOrderedMeansDistinct(w.nodes, links, order);
    assert forall id :: id in order ==> id in Elements(order);
    var picked := Pick(w.nodes, order);
    PickedIsAnswer(w, links, order, picked);
    r := Ordered(picked);
  }

  lemma PickedIsAnswer(w: Workflow, links: seq<Connection>, ids: seq<NodeId>, picked: seq<NodeInstance>)
    requires links == ForwardLinks(w) && EndpointsExist(w)
    requires |w.nodes| > 1 ==> OneStart(w.nodes, links)
    requires Frontier(links, Ids(w.nodes), ids, []) && PredsFirst(links, ids) && |ids| == |w.nodes|
    requires Picked(w.nodes, ids, picked) && DistinctIds(w.nodes)
    requires TopToBottom(Positions(w.nodes), links, ids)
    ensures IsOrder(w, picked) && AllReachable(w, picked) && EqualFootingKept(w, picked) && Acyclic(links)
  {
    PickedIsOrder(w, links, ids, picked);
    assert ids + [] == ids;
    PickedKeepsFooting(w, ids, picked);
  }

  lemma PickedKeepsFooting(w: Workflow, ids: seq<NodeId>, picked: seq<NodeInstance>)
    requires Picked(w.nodes, ids, picked) && NoRepeats(ids) && DistinctIds(w.nodes)
    requires TopToBottom(Positions(w.nodes), ForwardLinks(w), ids)
    ensures EqualFootingKept(w, picked)
  {
    var links, rank := ForwardLinks(w), Positions(w.nodes);
    forall a, b, i, j |
      (0 <= a < b < |w.nodes| && 0 <= i < |picked| && 0 <= j < |picked|
       && picked[i] == w.nodes[a] && picked[j] == w.nodes[b]
       && Preds(links, w.nodes[a].id) == Preds(links, w.nodes[b].id))
      ensures i < j
    {
      assert rank[ids[i]] == a && rank[ids[j]] == b;
      assert ids[i] in ids[..j];
    }
  }

  lemma PickedIsOrder(w: Workflow, links: seq<Connection>, ids: seq<NodeId>, picked: seq<NodeInstance>)
    requires links == ForwardLinks(w) && EndpointsExist(w)
    requires |w.nodes| > 1 ==> OneStart(w.nodes, links)
    requires Frontier(links, Ids(w.nodes), ids, []) && PredsFirst(links, ids) && |ids| == |w.nodes|
    requires Picked(w.nodes, ids, picked)
    ensures IsOrder(w, picked) && AllReachable(w, picked) && Acyclic(links)
  {
    LinkIds(w, links);
    AllOrderedMeansDistinct(w.nodes, links, ids);
    assert ids + [] == ids;
    PickedIsPermutation(w.nodes, ids, picked);
    PickedLeftToRight(links, w.nodes, ids, picked);
    assert Ids(picked) == Ids(w.nodes) by {
      forall id ensures id in Ids(picked) <==> id in Ids(w.nodes) { SameNodesSameIds(w.nodes, picked, id); }
    }
    OrderedIsAcyclic(links, picked);
    forall k | 0 < k < |ids| ensures Preds(links, ids[k]) != {} { LaterNodesHavePreds(w.nodes, links, ids, k); }
    forall n | n in picked ensures Reachable(links, picked[0].id, n.id) {
      var k :| 0 <= k < |picked| && picked[k] == n;
      ReachedFromFirst(links, ids, k);
    }
  }

  lemma SameNodesSameIds(nodes: seq<NodeInstance>, picked: seq<NodeInstance>, id: NodeId)
    requires multiset(nodes) == multiset(picked)
    ensures id in Ids(picked) <==> id in Ids(nodes)
  {
    assert forall n :: n in picked <==> n in multiset(picked);
    assert forall n :: n in nodes <==> n in multiset(nodes);
  }
}
