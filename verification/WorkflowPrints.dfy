/** `fingerprints` (src/engine.rs) of a whole workflow: none without an order, and with one the same along
    every order. */
module WorkflowPrints {

  import opened CanonicalJson
  import opened Workflows
  import opened LoopLayout
  import opened TopologicalOrder
  import opened Fingerprints
  import opened FingerprintMeaning

  /** The fingerprints of a workflow's nodes: along an order if there is one. */
  ghost predicate PrintsOf(hash: Hash, w: Workflow, prints: map<NodeId, string>) {
    if w.nodes != [] && Orderable(w) then exists order :: PrintsAlong(hash, w, order, prints) else prints == map[]
  }

  ghost predicate PrintsAlong(hash: Hash, w: Workflow, order: seq<NodeInstance>, prints: map<NodeId, string>) {
    IsOrder(w, order) && prints == Prints(hash, ForwardLinks(w), order, |order|)
  }

  method FingerprintWorkflow(hash: Hash, w: Workflow) returns (prints: map<NodeId, string>)
    ensures PrintsOf(hash, w, prints)
  {
    var ordered := FindOrder(w);
    if ordered.Rejected? {
      return map[];
    }
    var back := BackEdges(w);
    prints := ComputePrints(hash, Without(w.connections, back), ordered.order);
    assert w.nodes != [] ==> PrintsAlong(hash, w, ordered.order, prints);
    if w.nodes == [] {
      assert prints == Prints(hash, ForwardLinks(w), [], 0);
    }
  }

  // ---- Which order it is does not matter ------------------------------------------------------------------------

  lemma SameNodes(w: Workflow, order: seq<NodeInstance>, n: NodeInstance)
    requires IsOrder(w, order)
    ensures n in order <==> n in w.nodes
  {
    assert n in order <==> n in multiset(order);
    assert n in w.nodes <==> n in multiset(w.nodes);
  }

  lemma OrderIsForwards(w: Workflow, order: seq<NodeInstance>)
    requires EndpointsExist(w) && IsOrder(w, order)
    ensures Forwards(ForwardLinks(w), order)
  {
    var links := ForwardLinks(w);
    LinkIds(w, links);
    forall c, j | c in links && IsAt(order, j, c.toNode) ensures Preceded(order, j, c.fromNode) {
      var n :| n in w.nodes && n.id == c.fromNode;
      SameNodes(w, order, n);
      var i :| 0 <= i < |order| && order[i] == n;
      assert IsAt(order, i, c.fromNode);
    }
  }

  ghost predicate SamePrint(a: map<NodeId, string>, b: map<NodeId, string>, id: NodeId) {
    id in a && id in b && a[id] == b[id]
  }

  lemma {:induction false} IncomingAgrees(links: seq<Connection>, a: map<NodeId, string>, b: map<NodeId, string>,
      id: NodeId)
    requires forall c :: c in links && c.toNode == id ==> SamePrint(a, b, c.fromNode)
    ensures Incoming(links, a, id) == Incoming(links, b, id)
  {
    if links != [] {
      assert links[0] in links;
      IncomingAgrees(links[1..], a, b, id);
    }
  }

  /** Two orders of the same nodes that the links follow. */
  ghost predicate TwoOrders(links: seq<Connection>, a: seq<NodeInstance>, b: seq<NodeInstance>) {
    && DistinctIds(a) && DistinctIds(b) && Forwards(links, a) && Forwards(links, b)
    && forall n :: n in a ==> n in b
  }

  lemma SamePlace(links: seq<Connection>, a: seq<NodeInstance>, i: nat, b: seq<NodeInstance>, j: nat)
    requires TwoOrders(links, a, b) && i < |a| && j < |b| && a[i].id == b[j].id
    ensures a[i] == b[j]
  {
    assert a[i] in b;
  }

  lemma {:induction false} PrintKept(hash: Hash, links: seq<Connection>, order: seq<NodeInstance>, i: nat, k: nat)
    requires DistinctIds(order) && i < k <= |order|
    ensures SamePrint(Prints(hash, links, order, k), Prints(hash, links, order, |order|), order[i].id)
  {
    PrintsAt(hash, links, order, k, i);
    PrintsAt(hash, links, order, |order|, i);
  }

  lemma {:induction false} FeederPrintsAgree(hash: Hash, links: seq<Connection>, a: seq<NodeInstance>, i: nat, p: nat,
      b: seq<NodeInstance>, j: nat, q: nat)
    requires TwoOrders(links, a, b) && p < i <= |a| && q < j <= |b| && a[p].id == b[q].id
    requires SamePrint(Prints(hash, links, a, |a|), Prints(hash, links, b, |b|), a[p].id)
    ensures SamePrint(Prints(hash, links, a, i), Prints(hash, links, b, j), a[p].id)
  {
    PrintKept(hash, links, a, p, i);
    PrintKept(hash, links, b, q, j);
  }

  /** A node has the same fingerprint along both. */
  lemma {:induction false} PrintsAgree(hash: Hash, links: seq<Connection>, a: seq<NodeInstance>, i: nat,
      b: seq<NodeInstance>, j: nat)
    requires TwoOrders(links, a, b) && i < |a| && j < |b| && a[i].id == b[j].id
    ensures SamePrint(Prints(hash, links, a, |a|), Prints(hash, links, b, |b|), a[i].id)
    decreases i
  {
    SamePlace(links, a, i, b, j);
    PrintsAt(hash, links, a, |a|, i);
    PrintsAt(hash, links, b, |b|, j);
    var pa, pb := Prints(hash, links, a, i), Prints(hash, links, b, j);
    forall c | c in links && c.toNode == a[i].id ensures SamePrint(pa, pb, c.fromNode) {
      var p := EarlierFeeder(links, a, c, i);
      var q := EarlierFeeder(links, b, c, j);
      PrintsAgree(hash, links, a, p, b, q);
      FeederPrintsAgree(hash, links, a, i, p, b, j, q);
    }
    IncomingAgrees(links, pa, pb, a[i].id);
  }

  lemma OneMoreBefore(order: seq<NodeInstance>, k: nat, id: NodeId)
    requires k < |order|
    ensures Preceded(order, k + 1, id) <==> Preceded(order, k, id) || order[k].id == id
  {
    assert IsAt(order, k, id) <==> order[k].id == id;
  }

  lemma {:induction false} PrintedIds(hash: Hash, links: seq<Connection>, order: seq<NodeInstance>, k: nat, id: NodeId)
    requires k <= |order|
    ensures id in Prints(hash, links, order, k) <==> Preceded(order, k, id)
  {
    if k > 0 {
      PrintedIds(hash, links, order, k - 1, id);
      OneMoreBefore(order, k - 1, id);
    }
  }

  lemma PlaceIn(w: Workflow, order: seq<NodeInstance>, id: NodeId) returns (i: nat)
    requires IsOrder(w, order) && id in Ids(w.nodes)
    ensures i < |order| && order[i].id == id
  {
    SameNodesSameIds(w.nodes, order, id);
    i :| 0 <= i < |order| && order[i].id == id;
  }

  lemma {:induction false} PrintsCover(hash: Hash, w: Workflow, order: seq<NodeInstance>, id: NodeId)
    requires IsOrder(w, order)
    ensures id in Prints(hash, ForwardLinks(w), order, |order|) <==> id in Ids(w.nodes)
  {
    PrintedIds(hash, ForwardLinks(w), order, |order|, id);
    if id in Ids(w.nodes) {
      var i := PlaceIn(w, order, id);
      assert IsAt(order, i, id);
    }
    if Preceded(order, |order|, id) {
      var i :| i < |order| && IsAt(order, i, id);
      SameNodes(w, order, order[i]);
    }
  }

  lemma {:induction false} OrdersAgreeOn(hash: Hash, w: Workflow, a: seq<NodeInstance>, b: seq<NodeInstance>,
      id: NodeId)
    requires EndpointsExist(w) && IsOrder(w, a) && IsOrder(w, b) && id in Ids(w.nodes)
    ensures SamePrint(Prints(hash, ForwardLinks(w), a, |a|), Prints(hash, ForwardLinks(w), b, |b|), id)
  {
    var i := PlaceIn(w, a, id);
    var j := PlaceIn(w, b, id);
    OrderIsForwards(w, a);
    OrderIsForwards(w, b);
    forall n ensures n in a <==> n in b { SameNodes(w, a, n); SameNodes(w, b, n); }
    PrintsAgree(hash, ForwardLinks(w), a, i, b, j);
  }

  ghost predicate NoDifference(a: map<NodeId, string>, b: map<NodeId, string>, id: NodeId) {
    (id in a <==> id in b) && (id in a ==> a[id] == b[id])
  }

  lemma NoDifferenceAnywhere(a: map<NodeId, string>, b: map<NodeId, string>)
    requires forall id :: NoDifference(a, b, id)
    ensures a == b
  {
    assert forall id :: NoDifference(a, b, id) ==> (id in a <==> id in b);
    forall id | id in a ensures a[id] == b[id] { assert NoDifference(a, b, id); }
  }

  lemma {:induction false} OrdersAgreeAt(hash: Hash, w: Workflow, a: seq<NodeInstance>, b: seq<NodeInstance>,
      id: NodeId)
    requires EndpointsExist(w) && IsOrder(w, a) && IsOrder(w, b)
    ensures NoDifference(Prints(hash, ForwardLinks(w), a, |a|), Prints(hash, ForwardLinks(w), b, |b|), id)
  {
    PrintsCover(hash, w, a, id);
    PrintsCover(hash, w, b, id);
    if id in Ids(w.nodes) { OrdersAgreeOn(hash, w, a, b, id); }
  }

  lemma {:induction false} OrdersAgree(hash: Hash, w: Workflow, a: seq<NodeInstance>, b: seq<NodeInstance>)
    requires EndpointsExist(w) && IsOrder(w, a) && IsOrder(w, b)
    ensures Prints(hash, ForwardLinks(w), a, |a|) == Prints(hash, ForwardLinks(w), b, |b|)
  {
    var pa, pb := Prints(hash, ForwardLinks(w), a, |a|), Prints(hash, ForwardLinks(w), b, |b|);
    forall id ensures NoDifference(pa, pb, id) { OrdersAgreeAt(hash, w, a, b, id); }
    NoDifferenceAnywhere(pa, pb);
  }

  /** A workflow's fingerprints are determined, whichever of its orders they are taken along. */
  lemma OnePrints(hash: Hash, w: Workflow, a: map<NodeId, string>, b: map<NodeId, string>)
    requires PrintsOf(hash, w, a) && PrintsOf(hash, w, b)
    ensures a == b
  {
    if w.nodes != [] && Orderable(w) {
      var x :| PrintsAlong(hash, w, x, a);
      var y :| PrintsAlong(hash, w, y, b);
      OrdersAgree(hash, w, x, y);
    }
  }

  // ---- What they mean, for two workflows ------------------------------------------------------------------------

  ghost predicate GoodParameters(w: Workflow) {
    forall n :: n in w.nodes ==> WellFormed(n.parameters)
  }

  lemma OrderIsSound(w: Workflow, order: seq<NodeInstance>)
    requires EndpointsExist(w) && IsOrder(w, order) && GoodParameters(w)
    ensures Sound(ForwardLinks(w), order)
  {
    OrderIsForwards(w, order);
    forall i | 0 <= i < |order| ensures WellFormed(order[i].parameters) { SameNodes(w, order, order[i]); }
  }

  /** The shape of a node: what it and all upstream unfold to, along some order. */
  ghost predicate HasShape(w: Workflow, id: NodeId, shape: Shape) {
    exists order, i: nat :: ShapeAlong(w, order, i, id, shape)
  }

  ghost predicate ShapeAlong(w: Workflow, order: seq<NodeInstance>, i: nat, id: NodeId, shape: Shape) {
    IsOrder(w, order) && i < |order| && order[i].id == id && shape == ShapeOf(ForwardLinks(w), order, i)
  }

  /** Whichever order the shape is taken along, the fingerprints are those along it. */
  lemma ShapePlace(hash: Hash, w: Workflow, prints: map<NodeId, string>, id: NodeId, shape: Shape)
    returns (order: seq<NodeInstance>, i: nat)
    requires Orderable(w) && PrintsOf(hash, w, prints) && HasShape(w, id, shape)
    ensures PrintsAlong(hash, w, order, prints) && ShapeAlong(w, order, i, id, shape)
  {
    order, i :| ShapeAlong(w, order, i, id, shape);
    SameNodes(w, order, order[i]);
    var other :| PrintsAlong(hash, w, other, prints);
    OrdersAgree(hash, w, order, other);
  }

  lemma {:induction false} ShapesDecide(
      hash: Hash, v: Workflow, a: map<NodeId, string>, x: NodeId, oa: seq<NodeInstance>, i: nat,
      w: Workflow, b: map<NodeId, string>, y: NodeId, ob: seq<NodeInstance>, j: nat)
    requires GoodHash(hash) && GoodParameters(v) && GoodParameters(w) && EndpointsExist(v) && EndpointsExist(w)
    requires PrintsAlong(hash, v, oa, a) && i < |oa| && oa[i].id == x
    requires PrintsAlong(hash, w, ob, b) && j < |ob| && ob[j].id == y
    ensures x in a && y in b
    ensures a[x] == b[y] <==> ShapeOf(ForwardLinks(v), oa, i) == ShapeOf(ForwardLinks(w), ob, j)
  {
    OrderIsSound(v, oa);
    OrderIsSound(w, ob);
    SamePrintIffSameShape(hash, ForwardLinks(v), oa, i, ForwardLinks(w), ob, j);
  }

  /** Every node of an ordered workflow has a shape. */
  lemma ShapeExists(w: Workflow, order: seq<NodeInstance>, id: NodeId) returns (shape: Shape)
    requires IsOrder(w, order) && id in Ids(w.nodes)
    ensures HasShape(w, id, shape)
  {
    var i := PlaceIn(w, order, id);
    shape := ShapeOf(ForwardLinks(w), order, i);
    assert ShapeAlong(w, order, i, id, shape);
  }

  /** What `fingerprints` says of two workflows: two nodes have equal fingerprints exactly when they have the
      same shape. */
  lemma EqualPrintsIffSameShape(hash: Hash, v: Workflow, a: map<NodeId, string>, x: NodeId, s: Shape,
      w: Workflow, b: map<NodeId, string>, y: NodeId, t: Shape)
    requires GoodHash(hash) && GoodParameters(v) && GoodParameters(w) && Orderable(v) && Orderable(w)
    requires PrintsOf(hash, v, a) && PrintsOf(hash, w, b) && HasShape(v, x, s) && HasShape(w, y, t)
    ensures x in a && y in b && (a[x] == b[y] <==> s == t)
  {
    var oa, i := ShapePlace(hash, v, a, x, s);
    var ob, j := ShapePlace(hash, w, b, y, t);
    ShapesDecide(hash, v, a, x, oa, i, w, b, y, ob, j);
  }
}
