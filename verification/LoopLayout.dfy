/** How the editor engine lays loops out (`back_edges` and `loop_owners`, src/engine.rs):
    which links lead back into a loop node, and which loop's body each node is in. */
module LoopLayout {

  import opened Workflows
  import opened Reachability

  /** What a node's "loop" output (1) leads to directly. */
  ghost function LoopSeeds(links: seq<Connection>, lp: NodeId): set<NodeId> {
    set c | c in links && c.fromNode == lp && c.fromOutput == 1 && !c.error :: c.toNode
  }

  /** The link enters a loop node from a node that a walk from that loop's output 1 ends at, the walk
      never passing through the loop node. */
  ghost predicate BackLink(w: Workflow, c: Connection) {
    exists lp :: lp in w.nodes && IsLoop(lp) && ReturnsTo(w, c, lp.id)
  }

  ghost predicate ReturnsTo(w: Workflow, c: Connection, lp: NodeId) {
    c.toNode == lp && Reaches(w.connections, LoopSeeds(w.connections, lp) - {lp}, lp, c.fromNode)
  }

  ghost function BackIndexes(w: Workflow): set<nat> {
    set i | 0 <= i < |w.connections| && BackLink(w, w.connections[i])
  }

  ghost predicate LoopFree(w: Workflow) {
    forall n :: n in w.nodes ==> !IsLoop(n)
  }

  lemma NoBackLinks(w: Workflow)
    requires LoopFree(w)
    ensures BackIndexes(w) == {}
  {
  }

  /** The links that are not back links, in order. */
  function Without(links: seq<Connection>, back: set<nat>, from: nat := 0): (kept: seq<Connection>)
    requires from <= |links|
    ensures forall c :: c in kept <==> exists i :: from <= i < |links| && i !in back && links[i] == c
    decreases |links| - from
  {
    if from == |links| then []
    else if from in back then Without(links, back, from + 1)
    else [links[from]] + Without(links, back, from + 1)
  }

  ghost function ForwardLinks(w: Workflow): seq<Connection> {
    Without(w.connections, BackIndexes(w))
  }

  /** Forward links are exactly the links that are not back links. */
  lemma ForwardLinkIff(w: Workflow, c: Connection)
    ensures c in ForwardLinks(w) <==> c in w.connections && !BackLink(w, c)
  {
  }

  /** A loop's body: what its output 1 leads to along forward links, short of the loop itself. */
  ghost function Body(w: Workflow, lp: NodeId): set<NodeId> {
    ReachSet(ForwardLinks(w), LoopSeeds(ForwardLinks(w), lp), lp)
  }

  ghost predicate LoopAround(w: Workflow, lp: NodeId, id: NodeId) {
    (exists n :: n in w.nodes && IsLoop(n) && n.id == lp) && id in Body(w, lp)
  }

  method Seeds(links: seq<Connection>, lp: NodeId, excluded: set<NodeId>) returns (seeds: seq<NodeId>)
    ensures (set x | x in seeds) == LoopSeeds(links, lp) - excluded
  {
    seeds := [];
    for i := 0 to |links|
      invariant forall x :: x in seeds ==> x in LoopSeeds(links, lp) - excluded
      invariant forall j :: 0 <= j < i && links[j].fromNode == lp && links[j].fromOutput == 1 && !links[j].error ==>
                  links[j].toNode in excluded || links[j].toNode in seeds
    {
      var c := links[i];
      if c.fromNode == lp && c.fromOutput == 1 && !c.error && c.toNode !in excluded && c.toNode !in seeds {
        seeds := seeds + [c.toNode];
      }
    }
  }

  /** Link `i` returns to one of the first `k` nodes, a loop. */
  ghost predicate ReturnsEarly(w: Workflow, k: nat, i: nat)
    requires k <= |w.nodes|
  {
    i < |w.connections| && exists j :: 0 <= j < k && IsLoop(w.nodes[j]) && ReturnsTo(w, w.connections[i], w.nodes[j].id)
  }

  lemma ReturnsOneMore(w: Workflow, k: nat, i: nat)
    requires k < |w.nodes|
    ensures ReturnsEarly(w, k + 1, i) <==>
            || ReturnsEarly(w, k, i)
            || (i < |w.connections| && IsLoop(w.nodes[k]) && ReturnsTo(w, w.connections[i], w.nodes[k].id))
  {
  }

  lemma ReturnsAnywhere(w: Workflow, i: nat)
    ensures ReturnsEarly(w, |w.nodes|, i) <==> i < |w.connections| && BackLink(w, w.connections[i])
  {
  }

  /** The links that return to a loop. */
  method ReturnLinks(w: Workflow, lp: NodeId) returns (found: set<nat>)
    ensures forall i :: i in found <==> 0 <= i < |w.connections| && ReturnsTo(w, w.connections[i], lp)
  {
    var seeds := Seeds(w.connections, lp, {lp});
    var reach := Flood(w.connections, seeds, lp);
    found := Entering(w.connections, lp, reach);
  }

  method BackEdges(w: Workflow) returns (back: set<nat>)
    ensures forall i :: i in back <==> 0 <= i < |w.connections| && BackLink(w, w.connections[i])
    ensures back == BackIndexes(w)
  {
    back := {};
    for k := 0 to |w.nodes|
      invariant forall i: nat :: i in back <==> ReturnsEarly(w, k, i)
    {
      forall i: nat ensures ReturnsEarly(w, k + 1, i) <==>
          || ReturnsEarly(w, k, i)
          || (i < |w.connections| && IsLoop(w.nodes[k]) && ReturnsTo(w, w.connections[i], w.nodes[k].id))
      {
        ReturnsOneMore(w, k, i);
      }
      if IsLoop(w.nodes[k]) {
        var entering := ReturnLinks(w, w.nodes[k].id);
        back := back + entering;
      }
    }
    forall i: nat ensures ReturnsEarly(w, |w.nodes|, i) <==> i < |w.connections| && BackLink(w, w.connections[i]) {
      ReturnsAnywhere(w, i);
    }
  }

  method Entering(links: seq<Connection>, lp: NodeId, reach: set<NodeId>) returns (found: set<nat>)
    ensures forall i :: i in found <==> 0 <= i < |links| && links[i].toNode == lp && links[i].fromNode in reach
  {
    found := {};
    for i := 0 to |links|
      invariant forall j :: j in found <==> 0 <= j < i && links[j].toNode == lp && links[j].fromNode in reach
    {
      if links[i].toNode == lp && links[i].fromNode in reach {
        found := found + {i};
      }
    }
  }

  /** The owner of a node is the loop around it with the smallest body. */
  ghost predicate IsOwner(w: Workflow, id: NodeId, lp: NodeId) {
    LoopAround(w, lp, id) && forall m :: LoopAround(w, m, id) ==> |Body(w, lp)| <= |Body(w, m)|
  }

  ghost predicate Owned(w: Workflow, id: NodeId) {
    exists lp :: LoopAround(w, lp, id)
  }

  /** The ids of the loops, in node order. */
  function LoopIds(nodes: seq<NodeInstance>): (ids: seq<NodeId>)
    ensures forall lp :: lp in ids <==> exists n :: n in nodes && IsLoop(n) && n.id == lp
  {
    if nodes == [] then []
    else
      var front, last := nodes[..|nodes| - 1], nodes[|nodes| - 1];
      assert nodes == front + [last];
      LoopIds(front) + if IsLoop(last) then [last.id] else []
  }

  /** The `k`-th loop has the smallest body of those that hold the node, and is the first such. */
  ghost predicate FirstSmallest(w: Workflow, id: NodeId, k: nat) {
    var ids := LoopIds(w.nodes);
    && k < |ids| && id in Body(w, ids[k])
    && forall j :: 0 <= j < |ids| && id in Body(w, ids[j]) ==>
         |Body(w, ids[k])| <= |Body(w, ids[j])| && (j < k ==> |Body(w, ids[k])| < |Body(w, ids[j])|)
  }

  ghost predicate FirstOwner(w: Workflow, id: NodeId, lp: NodeId) {
    exists k: nat :: FirstSmallest(w, id, k) && LoopIds(w.nodes)[k] == lp
  }

  /** So a node has one owner at most. */
  lemma OneOwner(w: Workflow, id: NodeId, a: NodeId, b: NodeId)
    requires FirstOwner(w, id, a) && FirstOwner(w, id, b)
    ensures a == b
  {
    var k: nat :| FirstSmallest(w, id, k) && LoopIds(w.nodes)[k] == a;
    var j: nat :| FirstSmallest(w, id, j) && LoopIds(w.nodes)[j] == b;
    assert k == j;
  }

  method LoopOwners(w: Workflow, back: set<nat>) returns (owner: map<NodeId, NodeId>)
    requires back == BackIndexes(w)
    ensures owner.Keys <= Ids(w.nodes)
    ensures forall n :: n in w.nodes ==> (n.id in owner <==> Owned(w, n.id))
    ensures forall id :: id in owner ==> IsOwner(w, id, owner[id]) && FirstOwner(w, id, owner[id])
  {
    var bodies := Bodies(w, Without(w.connections, back));
    owner := ChooseOwners(w.nodes, bodies);
    forall id ensures Held(bodies, id) <==> Owned(w, id) { HeldIsOwned(w, bodies, id); }
    forall id | id in owner ensures IsOwner(w, id, owner[id]) && FirstOwner(w, id, owner[id]) {
      ChosenOwns(w, bodies, id, owner[id]);
      ChosenIsFirst(w, bodies, id, owner[id]);
    }
  }

  ghost predicate Held(bodies: seq<(NodeId, set<NodeId>)>, id: NodeId) {
    exists b :: b in bodies && id in b.1
  }

  ghost predicate Chosen(bodies: seq<(NodeId, set<NodeId>)>, id: NodeId, lp: NodeId) {
    exists k :: 0 <= k < |bodies| && bodies[k].0 == lp && ChosenAt(bodies, id, k)
  }

  ghost predicate ChosenAt(bodies: seq<(NodeId, set<NodeId>)>, id: NodeId, k: nat)
    requires k < |bodies|
  {
    && id in bodies[k].1
    && (forall j :: 0 <= j < |bodies| && id in bodies[j].1 ==> |bodies[k].1| <= |bodies[j].1|)
    && forall j :: 0 <= j < k && id in bodies[j].1 ==> |bodies[k].1| < |bodies[j].1|
  }

  method ChooseOwners(nodes: seq<NodeInstance>, bodies: seq<(NodeId, set<NodeId>)>) returns (owner: map<NodeId, NodeId>)
    ensures owner.Keys <= Ids(nodes)
    ensures forall n :: n in nodes ==> (n.id in owner <==> Held(bodies, n.id))
    ensures forall id :: id in owner ==> Chosen(bodies, id, owner[id])
  {
    owner := map[];
    for k := 0 to |nodes|
      invariant owner.Keys <= Ids(nodes)
      invariant forall id :: id in owner ==> Chosen(bodies, id, owner[id])
      invariant forall j :: 0 <= j < k ==> (nodes[j].id in owner <==> Held(bodies, nodes[j].id))
    {
      var best := Smallest(bodies, nodes[k].id);
      if best < |bodies| {
        assert ChosenAt(bodies, nodes[k].id, best);
        assert Chosen(bodies, nodes[k].id, bodies[best].0);
        owner := owner[nodes[k].id := bodies[best].0];
      }
    }
  }

  lemma LoopAroundListed(w: Workflow, bodies: seq<(NodeId, set<NodeId>)>, lp: NodeId, id: NodeId) returns (j: nat)
    requires BodiesOf(w, bodies, |w.nodes|) && LoopAround(w, lp, id)
    ensures j < |bodies| && bodies[j] == (lp, Body(w, lp))
  {
    assert w.nodes[..|w.nodes|] == w.nodes;
    assert lp in LoopIds(w.nodes);
    j :| 0 <= j < |bodies| && LoopIds(w.nodes)[j] == lp;
  }

  lemma HeldIsOwned(w: Workflow, bodies: seq<(NodeId, set<NodeId>)>, id: NodeId)
    requires BodiesOf(w, bodies, |w.nodes|)
    ensures Held(bodies, id) <==> Owned(w, id)
  {
    assert w.nodes[..|w.nodes|] == w.nodes;
    if Held(bodies, id) {
      var b :| b in bodies && id in b.1;
      assert b.0 in LoopIds(w.nodes);
      assert LoopAround(w, b.0, id);
    }
    if Owned(w, id) {
      var lp :| LoopAround(w, lp, id);
      var j := LoopAroundListed(w, bodies, lp, id);
      assert bodies[j] in bodies;
    }
  }

  lemma ChosenOwns(w: Workflow, bodies: seq<(NodeId, set<NodeId>)>, id: NodeId, lp: NodeId)
    requires BodiesOf(w, bodies, |w.nodes|) && Chosen(bodies, id, lp)
    ensures IsOwner(w, id, lp)
  {
    var k :| 0 <= k < |bodies| && bodies[k].0 == lp && ChosenAt(bodies, id, k);
    assert w.nodes[..|w.nodes|] == w.nodes;
    assert lp in LoopIds(w.nodes);
    assert LoopAround(w, lp, id);
    forall m | LoopAround(w, m, id) ensures |Body(w, lp)| <= |Body(w, m)| {
      var j := LoopAroundListed(w, bodies, m, id);
    }
  }

  lemma ChosenIsFirst(w: Workflow, bodies: seq<(NodeId, set<NodeId>)>, id: NodeId, lp: NodeId)
    requires BodiesOf(w, bodies, |w.nodes|) && Chosen(bodies, id, lp)
    ensures FirstOwner(w, id, lp)
  {
    var k :| 0 <= k < |bodies| && bodies[k].0 == lp && ChosenAt(bodies, id, k);
    assert w.nodes[..|w.nodes|] == w.nodes;
    assert FirstSmallest(w, id, k);
  }

  /** The bodies of the loops among the first `upto` nodes, in order. */
  ghost predicate BodiesOf(w: Workflow, bodies: seq<(NodeId, set<NodeId>)>, upto: nat)
    requires upto <= |w.nodes|
  {
    var ids := LoopIds(w.nodes[..upto]);
    |bodies| == |ids| && forall j :: 0 <= j < |ids| ==> bodies[j] == (ids[j], Body(w, ids[j]))
  }

  method Bodies(w: Workflow, links: seq<Connection>) returns (bodies: seq<(NodeId, set<NodeId>)>)
    requires links == ForwardLinks(w)
    ensures BodiesOf(w, bodies, |w.nodes|)
  {
    bodies := [];
    for k := 0 to |w.nodes|
      invariant BodiesOf(w, bodies, k)
    {
      var lp := w.nodes[k];
      OneMoreBody(w, bodies, k);
      if IsLoop(lp) {
        var body := BodyOf(w, links, lp.id);
        bodies := bodies + [(lp.id, body)];
      }
    }
  }

  method BodyOf(w: Workflow, links: seq<Connection>, lp: NodeId) returns (body: set<NodeId>)
    requires links == ForwardLinks(w)
    ensures body == Body(w, lp)
  {
    var seeds := Seeds(links, lp, {});
    assert LoopSeeds(links, lp) - {} == LoopSeeds(links, lp);
    body := Flood(links, seeds, lp);
  }

  lemma OneMoreBody(w: Workflow, bodies: seq<(NodeId, set<NodeId>)>, k: nat)
    requires k < |w.nodes| && BodiesOf(w, bodies, k)
    ensures var own := [(w.nodes[k].id, Body(w, w.nodes[k].id))];
            BodiesOf(w, if IsLoop(w.nodes[k]) then bodies + own else bodies, k + 1)
  {
    assert w.nodes[..k + 1][..k] == w.nodes[..k];
  }

  /** The first of the smallest bodies that hold `id`; past the end when none does. */
  method Smallest(bodies: seq<(NodeId, set<NodeId>)>, id: NodeId) returns (best: nat)
    ensures best <= |bodies|
    ensures best == |bodies| <==> forall b :: b in bodies ==> id !in b.1
    ensures best < |bodies| ==>
              id in bodies[best].1 && forall b :: b in bodies && id in b.1 ==> |bodies[best].1| <= |b.1|
    ensures forall j :: 0 <= j < best < |bodies| && id in bodies[j].1 ==> |bodies[best].1| < |bodies[j].1|
  {
    best := |bodies|;
    for k := 0 to |bodies|
      invariant best == |bodies| || best < k
      invariant best == |bodies| <==> forall j :: 0 <= j < k ==> id !in bodies[j].1
      invariant best < |bodies| ==>
                  id in bodies[best].1
                  && forall j :: 0 <= j < k && id in bodies[j].1 ==> |bodies[best].1| <= |bodies[j].1|
      invariant forall j :: 0 <= j < best < |bodies| && id in bodies[j].1 ==> |bodies[best].1| < |bodies[j].1|
    {
      if id in bodies[k].1 && (best == |bodies| || |bodies[k].1| < |bodies[best].1|) {
        best := k;
      }
    }
  }
}
