/** What an equal fingerprint does not say (`fingerprints`, src/engine.rs): that everything upstream is unchanged. */
module SwappedFeeders {

  import opened CanonicalJson
  import opened Workflows
  import opened LoopLayout
  import opened TopologicalOrder
  import opened Fingerprints
  import opened FingerprintMeaning
  import opened WorkflowPrints

  /** A start node feeds two nodes, which both feed one input of the last. */
  datatype Names = Names(start: NodeId, one: NodeId, two: NodeId, merge: NodeId, plain: string)

  ghost predicate Distinct(f: Names) {
    && f.start != f.one && f.start != f.two && f.start != f.merge && f.one != f.two && f.one != f.merge &&
      f.two != f.merge
    && f.plain != LOOP_TYPE
  }

  function Links(f: Names): seq<Connection> {
    [Connection(f.start, 0, f.one, 0, false), Connection(f.start, 0, f.two, 0, false),
     Connection(f.one, 0, f.merge, 0, false), Connection(f.two, 0, f.merge, 0, false)]
  }

  function Nodes(f: Names, x: string, y: string): seq<NodeInstance> {
    [Plainly(f.start, f.plain), Plainly(f.one, x), Plainly(f.two, y), Plainly(f.merge, f.plain)]
  }

  /** The version in which the first of the two is an `x` and the second a `y`. */
  function Fork(f: Names, x: string, y: string): Workflow {
    Workflow(Nodes(f, x, y), Links(f))
  }

  // ---- The code orders it ---------------------------------------------------------------------------------------

  lemma {:induction false} WithoutNone(links: seq<Connection>, from: nat)
    requires from <= |links|
    ensures Without(links, {}, from) == links[from..]
    decreases |links| - from
  {
    if from < |links| { WithoutNone(links, from + 1); }
  }

  lemma ForkLinks(f: Names, x: string, y: string)
    requires Distinct(f) && x != LOOP_TYPE && y != LOOP_TYPE
    ensures ForwardLinks(Fork(f, x, y)) == Links(f)
  {
    NoBackLinks(Fork(f, x, y));
    WithoutNone(Links(f), 0);
  }

  lemma PlaceOf(f: Names, x: string, y: string, i: nat)
    requires Distinct(f) && i < 4
    ensures var id := Nodes(f, x, y)[i].id;
            (id == f.start <==> i == 0) && (id == f.one <==> i == 1) && (id == f.two <==> i == 2) &&
              (id == f.merge <==> i == 3)
  {
  }

  lemma LinkEnds(f: Names, c: Connection)
    requires c in Links(f)
    ensures || (c.fromNode == f.start && (c.toNode == f.one || c.toNode == f.two))
            || ((c.fromNode == f.one || c.fromNode == f.two) && c.toNode == f.merge)
  {
  }

  lemma NodesAre(f: Names, x: string, y: string)
    requires Distinct(f)
    ensures DistinctIds(Nodes(f, x, y)) && Ids(Nodes(f, x, y)) == {f.start, f.one, f.two, f.merge}
  {
    var nodes := Nodes(f, x, y);
    forall i, j | 0 <= i < j < 4 ensures nodes[i].id != nodes[j].id {
      PlaceOf(f, x, y, i);
      PlaceOf(f, x, y, j);
    }
    assert nodes[0] in nodes && nodes[1] in nodes && nodes[2] in nodes && nodes[3] in nodes;
  }

  lemma LinkRises(f: Names, x: string, y: string, c: Connection, i: nat, j: nat)
    requires Distinct(f) && c in Links(f) && i < 4 && j < 4
    requires Nodes(f, x, y)[i].id == c.fromNode && Nodes(f, x, y)[j].id == c.toNode
    ensures i < j
  {
    LinkEnds(f, c);
    PlaceOf(f, x, y, i);
    PlaceOf(f, x, y, j);
  }

  lemma NodesRise(f: Names, x: string, y: string)
    requires Distinct(f)
    ensures LeftToRight(Links(f), Nodes(f, x, y))
  {
    var nodes := Nodes(f, x, y);
    forall c, i, j | c in Links(f) && 0 <= i < |nodes| && 0 <= j < |nodes| && nodes[i].id == c.fromNode &&
      nodes[j].id == c.toNode
      ensures i < j
    {
      LinkRises(f, x, y, c, i, j);
    }
  }

  lemma EndsAreNodes(f: Names, x: string, y: string, c: Connection)
    requires Distinct(f) && c in Links(f)
    ensures c.fromNode in Ids(Nodes(f, x, y)) && c.toNode in Ids(Nodes(f, x, y))
    ensures HasNode(Fork(f, x, y), c.fromNode) && HasNode(Fork(f, x, y), c.toNode)
  {
    LinkEnds(f, c);
    NodesAre(f, x, y);
  }

  lemma ForkInOrder(f: Names, x: string, y: string)
    requires Distinct(f) && x != LOOP_TYPE && y != LOOP_TYPE
    ensures IsOrder(Fork(f, x, y), Nodes(f, x, y)) && EndpointsExist(Fork(f, x, y))
  {
    ForkLinks(f, x, y);
    NodesAre(f, x, y);
    NodesRise(f, x, y);
    forall c | c in Links(f) ensures HasNode(Fork(f, x, y), c.fromNode) && HasNode(Fork(f, x, y), c.toNode) {
      EndsAreNodes(f, x, y, c);
    }
  }

  lemma OnlyStartUnfed(f: Names, x: string, y: string)
    requires Distinct(f)
    ensures OnlyStart(Nodes(f, x, y), Links(f), 0)
  {
    forall j | 0 <= j < 4 ensures NoInput(Links(f), Nodes(f, x, y)[j].id) <==> j == 0 {
      PlaceOf(f, x, y, j);
      forall c | c in Links(f) ensures c.toNode != f.start { LinkEnds(f, c); }
      if j > 0 { assert Links(f)[j - 1] in Links(f) && Links(f)[2] in Links(f); }
    }
  }

  lemma LinksAcyclic(f: Names, x: string, y: string)
    requires Distinct(f)
    ensures Acyclic(Links(f))
  {
    NodesAre(f, x, y);
    NodesRise(f, x, y);
    forall c | c in Links(f) ensures c.fromNode in Ids(Nodes(f, x, y)) && c.toNode in Ids(Nodes(f, x, y)) {
      EndsAreNodes(f, x, y, c);
    }
    OrderedIsAcyclic(Links(f), Nodes(f, x, y));
  }

  lemma ForkOrderable(f: Names, x: string, y: string)
    requires Distinct(f) && x != LOOP_TYPE && y != LOOP_TYPE
    ensures Orderable(Fork(f, x, y))
  {
    ForkLinks(f, x, y);
    NodesAre(f, x, y);
    ForkInOrder(f, x, y);
    OnlyStartUnfed(f, x, y);
    LinksAcyclic(f, x, y);
  }

  // ---- The shapes of its nodes ----------------------------------------------------------------------------------

  function OwnShape(n: NodeInstance, feeds: seq<Feed>): Shape {
    Shape(n.nodeType, Canonical(n.parameters), n.settings, n.disabled, multiset(feeds))
  }

  function Feeding(shape: Shape): Feed {
    Feed(shape, 0, 0, false)
  }

  function StartShape(f: Names): Shape {
    OwnShape(Plainly(f.start, f.plain), [])
  }

  /** The shape of a node of type `x` right behind the start. */
  function BranchShape(f: Names, x: string): Shape {
    OwnShape(Plainly(f.one, x), [Feeding(StartShape(f))])
  }

  lemma {:induction false} FeedsCons(links: seq<Connection>, c: Connection, rest: seq<Connection>,
      order: seq<NodeInstance>, i: nat)
    requires i < |order|
    ensures FeedsOf(links, [c] + rest, order, i) ==
      (var p := EarlierPosition(order, c.fromNode, i);
       if c.toNode == order[i].id && p.Some? then [FeedOf(links, c, order, p.value)] else [])
         + FeedsOf(links, rest, order, i)
  {
    assert ([c] + rest)[1..] == rest;
  }

  /** What the `k`-th link adds to the feeds of node `i`. */
  function OneFeedOf(f: Names, order: seq<NodeInstance>, i: nat, k: nat): seq<Feed>
    requires i < |order| && k < 4
  {
    var c := Links(f)[k];
    var p := EarlierPosition(order, c.fromNode, i);
    if c.toNode == order[i].id && p.Some? then [FeedOf(Links(f), c, order, p.value)] else []
  }

  lemma {:induction false} FourFeeds(f: Names, order: seq<NodeInstance>, i: nat)
    requires i < |order|
    ensures FeedsOf(Links(f), Links(f), order, i) ==
      OneFeedOf(f, order, i, 0) + (OneFeedOf(f, order, i, 1) + (OneFeedOf(f, order, i, 2) + OneFeedOf(f, order, i, 3)))
  {
    var all := Links(f);
    FeedsCons(all, all[3], [], order, i);
    assert [all[3]] + [] == [all[3]];
    FeedsCons(all, all[2], [all[3]], order, i);
    assert [all[2]] + [all[3]] == [all[2], all[3]];
    FeedsCons(all, all[1], [all[2], all[3]], order, i);
    assert [all[1]] + [all[2], all[3]] == [all[1], all[2], all[3]];
    FeedsCons(all, all[0], [all[1], all[2], all[3]], order, i);
    assert [all[0]] + [all[1], all[2], all[3]] == all;
    assert OneFeedOf(f, order, i, 3) + [] == OneFeedOf(f, order, i, 3);
  }

  lemma {:induction false} FoundAt(order: seq<NodeInstance>, id: NodeId, p: nat, i: nat)
    requires DistinctIds(order) && p < i <= |order| && order[p].id == id
    ensures EarlierPosition(order, id, i) == Some(p)
  {
    var q := EarlierPosition(order, id, i);
    assert q.Some?;
    assert q.value == p;
  }

  lemma {:induction false} ShapeIs(links: seq<Connection>, order: seq<NodeInstance>, i: nat, feeds: seq<Feed>)
    requires i < |order| && FeedsOf(links, links, order, i) == feeds
    ensures ShapeOf(links, order, i) == OwnShape(order[i], feeds)
  {
  }

  lemma StartHasShape(f: Names, x: string, y: string)
    requires Distinct(f)
    ensures ShapeOf(Links(f), Nodes(f, x, y), 0) == StartShape(f)
  {
    var order := Nodes(f, x, y);
    FourFeeds(f, order, 0);
    ShapeIs(Links(f), order, 0, []);
  }

  lemma {:induction false} BranchHasShape(f: Names, x: string, y: string, i: nat)
    requires Distinct(f) && 1 <= i <= 2
    ensures ShapeOf(Links(f), Nodes(f, x, y), i) == BranchShape(f, if i == 1 then x else y)
  {
    var order := Nodes(f, x, y);
    StartHasShape(f, x, y);
    NodesAre(f, x, y);
    BranchFeeds(f, order, i, Feeding(StartShape(f)));
    ShapeIs(Links(f), order, i, [Feeding(StartShape(f))]);
  }

  /** Of the four links only one enters the branch at `i`. */
  lemma {:induction false} BranchFeeds(f: Names, order: seq<NodeInstance>, i: nat, feed: Feed)
    requires Distinct(f) && 1 <= i <= 2 && |order| == 4 && DistinctIds(order) && order[0].id == f.start
    requires order[i].id == if i == 1 then f.one else f.two
    requires feed == Feeding(ShapeOf(Links(f), order, 0))
    ensures FeedsOf(Links(f), Links(f), order, i) == [feed]
  {
    FoundAt(order, f.start, 0, i);
    FourFeeds(f, order, i);
    assert OneFeedOf(f, order, i, i - 1) == [feed];
    assert OneFeedOf(f, order, i, 2) == [] && OneFeedOf(f, order, i, 3) == [] && OneFeedOf(f, order, i, 2 - i) == [];
  }

  lemma MergeHasShape(f: Names, x: string, y: string)
    requires Distinct(f)
    ensures ShapeOf(Links(f), Nodes(f, x, y), 3) ==
            OwnShape(Plainly(f.merge, f.plain), [Feeding(BranchShape(f, x)), Feeding(BranchShape(f, y))])
  {
    var order := Nodes(f, x, y);
    var one, two := Feeding(BranchShape(f, x)), Feeding(BranchShape(f, y));
    BranchHasShape(f, x, y, 1);
    BranchHasShape(f, x, y, 2);
    NodesAre(f, x, y);
    FoundAt(order, f.one, 1, 3);
    FoundAt(order, f.two, 2, 3);
    FourFeeds(f, order, 3);
    assert OneFeedOf(f, order, 3, 0) == [] && OneFeedOf(f, order, 3, 1) == [];
    assert OneFeedOf(f, order, 3, 2) == [one] && OneFeedOf(f, order, 3, 3) == [two];
    assert [one] + [two] == [one, two];
    ShapeIs(Links(f), order, 3, [one, two]);
  }

  lemma BagOfTwo<T(!new)>(x: T, y: T)
    ensures multiset([x, y]) == multiset([y, x])
  {
    assert multiset([x, y]) == multiset{x, y} == multiset([y, x]);
  }

  lemma MergeShapesEqual(f: Names, x: string, y: string)
    requires Distinct(f)
    ensures ShapeOf(Links(f), Nodes(f, x, y), 3) == ShapeOf(Links(f), Nodes(f, y, x), 3)
  {
    MergeHasShape(f, x, y);
    MergeHasShape(f, y, x);
    BagOfTwo(Feeding(BranchShape(f, x)), Feeding(BranchShape(f, y)));
  }

  lemma {:induction false} ForkHasShape(f: Names, x: string, y: string, i: nat)
    requires Distinct(f) && x != LOOP_TYPE && y != LOOP_TYPE && i < 4
    ensures HasShape(Fork(f, x, y), Nodes(f, x, y)[i].id, ShapeOf(Links(f), Nodes(f, x, y), i))
  {
    ForkLinks(f, x, y);
    ForkInOrder(f, x, y);
    assert ShapeAlong(Fork(f, x, y), Nodes(f, x, y), i, Nodes(f, x, y)[i].id, ShapeOf(Links(f), Nodes(f, x, y), i));
  }

  lemma PlainParameters(f: Names, x: string, y: string)
    ensures GoodParameters(Fork(f, x, y))
  {
  }

  /** A node changed its fingerprint exactly when it changed its shape. */
  lemma {:induction false} ForkPrints(
      hash: Hash, f: Names, x: string, y: string, a: map<NodeId, string>, b: map<NodeId, string>, i: nat,
      id: NodeId, s: Shape, t: Shape)
    requires GoodHash(hash) && Distinct(f) && x != LOOP_TYPE && y != LOOP_TYPE && i < 4
    requires PrintsOf(hash, Fork(f, x, y), a) && PrintsOf(hash, Fork(f, y, x), b)
    requires id == Nodes(f, x, y)[i].id == Nodes(f, y, x)[i].id
    requires s == ShapeOf(Links(f), Nodes(f, x, y), i) && t == ShapeOf(Links(f), Nodes(f, y, x), i)
    ensures id in a && id in b && (a[id] == b[id] <==> s == t)
  {
    ForkOrderable(f, x, y);
    ForkOrderable(f, y, x);
    PlainParameters(f, x, y);
    PlainParameters(f, y, x);
    ForkHasShape(f, x, y, i);
    ForkHasShape(f, y, x, i);
    EqualPrintsIffSameShape(hash, Fork(f, x, y), a, id, s, Fork(f, y, x), b, id, t);
  }

  lemma BranchPrints(hash: Hash, f: Names, x: string, y: string, a: map<NodeId, string>, b: map<NodeId, string>,
      id: NodeId)
    requires GoodHash(hash) && Distinct(f) && x != y && x != LOOP_TYPE && y != LOOP_TYPE && (id == f.one || id == f.two)
    requires PrintsOf(hash, Fork(f, x, y), a) && PrintsOf(hash, Fork(f, y, x), b)
    ensures id in a && id in b && a[id] != b[id]
  {
    var i, does, did := if id == f.one then 1 else 2, if id == f.one then x else y, if id == f.one then y else x;
    BranchHasShape(f, x, y, i);
    BranchHasShape(f, y, x, i);
    BranchesDiffer(f, does, did);
    ForkPrints(hash, f, x, y, a, b, i, id, BranchShape(f, does), BranchShape(f, did));
  }

  lemma BranchesDiffer(f: Names, x: string, y: string)
    requires x != y
    ensures BranchShape(f, x) != BranchShape(f, y)
  {
    assert BranchShape(f, x).nodeType == x && BranchShape(f, y).nodeType == y;
  }

  lemma MergePrints(hash: Hash, f: Names, x: string, y: string, a: map<NodeId, string>, b: map<NodeId, string>)
    requires GoodHash(hash) && Distinct(f) && x != LOOP_TYPE && y != LOOP_TYPE
    requires PrintsOf(hash, Fork(f, x, y), a) && PrintsOf(hash, Fork(f, y, x), b)
    ensures SamePrint(a, b, f.merge)
  {
    var merged := ShapeOf(Links(f), Nodes(f, x, y), 3);
    MergeShapesEqual(f, x, y);
    ForkPrints(hash, f, x, y, a, b, 3, f.merge, merged, merged);
  }

  /** Swap what two feeders of one input do: both versions have fingerprints, both feeders changed, and the node they
      feed keeps its fingerprint although what it receives comes in another order. */
  lemma SwappedFeedersSamePrint(hash: Hash, f: Names, x: string, y: string, a: map<NodeId, string>,
      b: map<NodeId, string>)
    requires GoodHash(hash) && Distinct(f) && x != y && x != LOOP_TYPE && y != LOOP_TYPE
    requires PrintsOf(hash, Fork(f, x, y), a) && PrintsOf(hash, Fork(f, y, x), b)
    ensures Orderable(Fork(f, x, y)) && Orderable(Fork(f, y, x))
    ensures SamePrint(a, b, f.merge)
    ensures f.one in a && f.one in b && a[f.one] != b[f.one] && f.two in a && f.two in b && a[f.two] != b[f.two]
  {
    ForkOrderable(f, x, y);
    ForkOrderable(f, y, x);
    BranchPrints(hash, f, x, y, a, b, f.one);
    BranchPrints(hash, f, x, y, a, b, f.two);
    MergePrints(hash, f, x, y, a, b);
  }
}
