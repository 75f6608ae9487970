/** Loops and what they own form trees (`loop_owners`, src/engine.rs): what lies under a node, what feeds into it from
    outside, and which nodes of one list must come before which. */
module LoopTrees {

  import opened Workflows
  import opened Reachability
  import opened LoopLayout
  import opened TopologicalOrder
  import opened LoopNesting
  import opened NodeRuns
  import opened RunLists

  // ---- The tree under a node ------------------------------------------------------------------------------------

  ghost predicate Owns(owner: map<NodeId, NodeId>, lp: NodeId, x: NodeId) {
    x in owner && owner[x] == lp
  }

  /** Each node on the way is owned by the next. */
  ghost predicate Climbs(owner: map<NodeId, NodeId>, p: seq<NodeId>) {
    |p| > 0 && forall i, k :: 0 <= i < k == i + 1 < |p| ==> Owns(owner, p[k], p[i])
  }

  lemma {:induction false} ClimbStep(owner: map<NodeId, NodeId>, p: seq<NodeId>, i: nat)
    requires Climbs(owner, p) && i + 1 < |p|
    ensures p[i] in owner && owner[p[i]] == p[i + 1]
  {
    assert Owns(owner, p[i + 1], p[i]);
  }

  ghost predicate Inside(owner: map<NodeId, NodeId>, x: NodeId, id: NodeId) {
    exists p :: Climbs(owner, p) && p[0] == x && p[|p| - 1] == id
  }

  /** A node with all it owns, and all that owns in turn. */
  ghost function Within(s: Setup, id: NodeId): set<NodeId> {
    set x | x in s.owner.Keys + {id} && Inside(s.owner, x, id)
  }

  lemma InOwnTree(s: Setup, id: NodeId)
    ensures id in Within(s, id)
  {
    var p := [id];
    assert Climbs(s.owner, p) && p[0] == id && p[|p| - 1] == id;
  }

  lemma {:induction false} Dropped(owner: map<NodeId, NodeId>, p: seq<NodeId>, i: nat)
    requires Climbs(owner, p) && i < |p|
    ensures Climbs(owner, p[i..])
  {
    var q := p[i..];
    forall j, k | 0 <= j < k == j + 1 < |q| ensures Owns(owner, q[k], q[j]) {
      assert Owns(owner, p[i + k], p[i + j]);
    }
  }

  lemma {:induction false} Taken(owner: map<NodeId, NodeId>, p: seq<NodeId>, i: nat)
    requires Climbs(owner, p) && 0 < i <= |p|
    ensures Climbs(owner, p[..i])
  {
    var q := p[..i];
    forall j, k | 0 <= j < k == j + 1 < |q| ensures Owns(owner, q[k], q[j]) {
      assert Owns(owner, p[k], p[j]);
    }
  }

  /** What a node owns is in its tree. */
  lemma OwnedInTree(s: Setup, x: NodeId, id: NodeId)
    requires x in s.owner && s.owner[x] in Within(s, id)
    ensures x in Within(s, id)
  {
    var p :| Climbs(s.owner, p) && p[0] == s.owner[x] && p[|p| - 1] == id;
    var q := [x] + p;
    forall i, k | 0 <= i < k == i + 1 < |q| ensures Owns(s.owner, q[k], q[i]) {
      if i > 0 { assert Owns(s.owner, p[k - 1], p[i - 1]); }
    }
    assert q[0] == x && q[|q| - 1] == id;
  }

  /** The owner of a node in a tree is in it too. */
  lemma OwnerInTree(s: Setup, x: NodeId, id: NodeId)
    requires x in Within(s, id) && x != id
    ensures x in s.owner && s.owner[x] in Within(s, id)
  {
    var p :| Climbs(s.owner, p) && p[0] == x && p[|p| - 1] == id;
    ClimbStep(s.owner, p, 0);
    Dropped(s.owner, p, 1);
    var q := p[1..];
    assert q[0] == s.owner[x] && q[|q| - 1] == id;
    if |p| > 2 { ClimbStep(s.owner, p, 1); }
  }

  /** What is under a node is in the tree of one of the nodes it owns. */
  lemma BranchOf(s: Setup, x: NodeId, id: NodeId) returns (m: NodeId)
    requires x in Within(s, id) && x != id
    ensures m in s.owner && s.owner[m] == id && x in Within(s, m)
  {
    var p :| Climbs(s.owner, p) && p[0] == x && p[|p| - 1] == id;
    m := p[|p| - 2];
    ClimbStep(s.owner, p, |p| - 2);
    Taken(s.owner, p, |p| - 1);
    var q := p[..|p| - 1];
    assert q[0] == x && q[|q| - 1] == m;
  }

  // ---- Trees of one list are apart ------------------------------------------------------------------------------

  lemma OwnerIsLarger(s: Setup, order: seq<NodeInstance>, x: NodeId)
    requires Planned(s, order) && x in s.owner
    ensures |Body(s.w, x)| < |Body(s.w, s.owner[x])| && s.owner[x] in Ids(s.w.nodes)
  {
    assert IsOwner(s.w, x, s.owner[x]);
    assert LoopAround(s.w, s.owner[x], x);
    OwnedLoopIsSmaller(s.w, order, s.owner[x], x);
  }

  /** Bodies grow on the way up. */
  lemma {:induction false} ClimbGrows(s: Setup, order: seq<NodeInstance>, p: seq<NodeId>)
    requires Planned(s, order) && Climbs(s.owner, p)
    ensures |p| == 1 || |Body(s.w, p[0])| < |Body(s.w, p[|p| - 1])|
  {
    if |p| > 1 {
      Taken(s.owner, p, |p| - 1);
      var q := p[..|p| - 1];
      ClimbGrows(s, order, q);
      assert q[|q| - 1] == p[|p| - 2];
      ClimbStep(s.owner, p, |p| - 2);
      OwnerIsLarger(s, order, p[|p| - 2]);
    }
  }

  lemma {:induction false} SameClimb(owner: map<NodeId, NodeId>, p: seq<NodeId>, q: seq<NodeId>, i: nat)
    requires Climbs(owner, p) && Climbs(owner, q) && p[0] == q[0] && i < |p| && i < |q|
    ensures p[i] == q[i]
  {
    if i > 0 {
      SameClimb(owner, p, q, i - 1);
      ClimbStep(owner, p, i - 1);
      ClimbStep(owner, q, i - 1);
    }
  }

  /** A node's owner is not in the tree of the node, nor in that of another node it owns. */
  lemma OwnerNotUnder(s: Setup, order: seq<NodeInstance>, x: NodeId)
    requires Planned(s, order) && x in s.owner
    ensures s.owner[x] !in Within(s, x)
  {
    if s.owner[x] in Within(s, x) {
      var p :| Climbs(s.owner, p) && p[0] == s.owner[x] && p[|p| - 1] == x;
      ClimbGrows(s, order, p);
      OwnerIsLarger(s, order, x);
    }
  }

  /** A node strictly above another one does not have the same owner. */
  lemma NotAbove(s: Setup, order: seq<NodeInstance>, a: NodeId, b: NodeId, p: seq<NodeId>)
    requires Planned(s, order) && Climbs(s.owner, p) && p[0] == b && p[|p| - 1] == a && |p| > 1
    ensures OwnerOf(s.owner, a) != OwnerOf(s.owner, b)
  {
    ClimbStep(s.owner, p, 0);
    if OwnerOf(s.owner, a) == OwnerOf(s.owner, b) {
      ClimbGrows(s, order, p);
      Dropped(s.owner, p, 1);
      ClimbGrows(s, order, p[1..]);
      OwnerIsLarger(s, order, a);
    }
  }

  lemma LongerClimb(s: Setup, order: seq<NodeInstance>, p: seq<NodeId>, q: seq<NodeId>)
    requires Planned(s, order) && Climbs(s.owner, p) && Climbs(s.owner, q) && p[0] == q[0] && |p| < |q|
    ensures OwnerOf(s.owner, p[|p| - 1]) != OwnerOf(s.owner, q[|q| - 1])
  {
    var rest := q[|p| - 1..];
    SameClimb(s.owner, p, q, |p| - 1);
    Dropped(s.owner, q, |p| - 1);
    assert rest[0] == p[|p| - 1] && rest[|rest| - 1] == q[|q| - 1];
    NotAbove(s, order, q[|q| - 1], p[|p| - 1], rest);
  }

  lemma SameEnds(owner: map<NodeId, NodeId>, p: seq<NodeId>, q: seq<NodeId>)
    requires Climbs(owner, p) && Climbs(owner, q) && p[0] == q[0] && |p| == |q|
    ensures p[|p| - 1] == q[|q| - 1]
  {
    SameClimb(owner, p, q, |p| - 1);
  }

  /** Two nodes with one owner, or both with none, share nothing. */
  lemma TreesApart(s: Setup, order: seq<NodeInstance>, a: NodeId, b: NodeId, x: NodeId)
    requires Planned(s, order) && a != b && OwnerOf(s.owner, a) == OwnerOf(s.owner, b) && x in Within(s, a)
    ensures x !in Within(s, b)
  {
    if x in Within(s, b) {
      var p :| Climbs(s.owner, p) && p[0] == x && p[|p| - 1] == a;
      var q :| Climbs(s.owner, q) && q[0] == x && q[|q| - 1] == b;
      ClimbsApart(s, order, p, q);
    }
  }

  lemma ClimbsApart(s: Setup, order: seq<NodeInstance>, p: seq<NodeId>, q: seq<NodeId>)
    requires Planned(s, order) && Climbs(s.owner, p) && Climbs(s.owner, q) && p[0] == q[0]
    requires p[|p| - 1] != q[|q| - 1]
    ensures OwnerOf(s.owner, p[|p| - 1]) != OwnerOf(s.owner, q[|q| - 1])
  {
    if |p| < |q| {
      LongerClimb(s, order, p, q);
    } else if |q| < |p| {
      LongerClimb(s, order, q, p);
    } else {
      SameEnds(s.owner, p, q);
    }
  }

  /** Every node is in the tree of a top-level node. */
  lemma {:induction false} RootOf(s: Setup, order: seq<NodeInstance>, x: NodeId) returns (r: NodeId)
    requires Planned(s, order) && x in Ids(s.w.nodes)
    ensures r in Ids(s.w.nodes) && r !in s.owner && x in Within(s, r)
    decreases |Ids(s.w.nodes)| + 1 - |Body(s.w, x)|
  {
    BodyInIds(s, order, x);
    if x in s.owner {
      OwnerIsLarger(s, order, x);
      BodyInIds(s, order, s.owner[x]);
      r := RootOf(s, order, s.owner[x]);
      OwnedInTree(s, x, r);
    } else {
      r := x;
      InOwnTree(s, x);
    }
  }

  // ---- The lists that run ---------------------------------------------------------------------------------------

  /** The top level, or one loop. */
  ghost predicate IsPlace(s: Setup, at: Option<NodeId>) {
    at.Some? ==> exists n :: n in s.w.nodes && IsLoop(n) && n.id == at.value
  }

  function ListAt(s: Setup, order: seq<NodeInstance>, at: Option<NodeId>): seq<NodeInstance> {
    OwnedBy(order, s.owner, at)
  }

  /** All that runs there: every node, or everything under the loop. */
  ghost function Under(s: Setup, at: Option<NodeId>): set<NodeId> {
    match at
    case None => Ids(s.w.nodes)
    case Some(lp) => Within(s, lp) - {lp}
  }

  lemma {:induction false} InList(s: Setup, order: seq<NodeInstance>, at: Option<NodeId>, id: NodeId)
    requires Planned(s, order) && id in Ids(s.w.nodes) && OwnerOf(s.owner, id) == at
    ensures id in Ids(ListAt(s, order, at))
  {
    var n :| n in s.w.nodes && n.id == id;
    OrderNodes(s, order, n);
  }

  lemma {:induction false} Listing(s: Setup, order: seq<NodeInstance>, at: Option<NodeId>, n: NodeInstance)
    requires Planned(s, order) && n in ListAt(s, order, at)
    ensures n in s.w.nodes && OwnerOf(s.owner, n.id) == at
  {
    OrderNodes(s, order, n);
  }

  /** What is under a place is in the tree of one of its nodes. */
  lemma Branch(s: Setup, order: seq<NodeInstance>, at: Option<NodeId>, x: NodeId) returns (id: NodeId)
    requires Planned(s, order) && x in Under(s, at)
    ensures id in Ids(ListAt(s, order, at)) && x in Within(s, id)
  {
    if at.None? {
      id := RootOf(s, order, x);
    } else {
      id := BranchOf(s, x, at.value);
    }
    InList(s, order, at, id);
  }

  /** A tree holds the trees of all its nodes. */
  lemma InsideAlso(s: Setup, x: NodeId, m: NodeId, id: NodeId)
    requires x in Within(s, m) && m in s.owner && s.owner[m] == id
    ensures x in Within(s, id)
  {
    var p :| Climbs(s.owner, p) && p[0] == x && p[|p| - 1] == m;
    var q := p + [id];
    forall i, k | 0 <= i < k == i + 1 < |q| ensures Owns(s.owner, q[k], q[i]) {
      if k < |p| { assert Owns(s.owner, p[k], p[i]); }
    }
    assert q[0] == x && q[|q| - 1] == id;
  }

  lemma InTreeOfNode(s: Setup, id: NodeId, x: NodeId)
    requires s.owner.Keys <= Ids(s.w.nodes) && id in Ids(s.w.nodes) && x in Within(s, id)
    ensures x in Ids(s.w.nodes)
  {
  }

  lemma StrictlyUnder(s: Setup, order: seq<NodeInstance>, m: NodeId, x: NodeId)
    requires Planned(s, order) && m in s.owner && x in Within(s, m)
    ensures x in Within(s, s.owner[m]) && x != s.owner[m]
  {
    InsideAlso(s, x, m, s.owner[m]);
    OwnerNotUnder(s, order, m);
  }

  lemma NodeUnder(s: Setup, order: seq<NodeInstance>, at: Option<NodeId>, id: NodeId, x: NodeId)
    requires Planned(s, order) && id in Ids(s.w.nodes) && OwnerOf(s.owner, id) == at && x in Within(s, id)
    ensures x in Under(s, at)
  {
    if at.None? { InTreeOfNode(s, id, x); } else { StrictlyUnder(s, order, id, x); }
  }

  lemma TreeUnder(s: Setup, order: seq<NodeInstance>, at: Option<NodeId>, n: NodeInstance)
    requires Planned(s, order) && n in ListAt(s, order, at)
    ensures Within(s, n.id) <= Under(s, at)
  {
    Listing(s, order, at, n);
    forall x | x in Within(s, n.id) ensures x in Under(s, at) { NodeUnder(s, order, at, n.id, x); }
  }

  // ---- Who feeds whom -------------------------------------------------------------------------------------------

  /** The nodes with a link into a node's tree: their items may arrive during its turn. */
  ghost function Feeding(s: Setup, id: NodeId): set<NodeId> {
    set c | c in s.w.connections && c.toNode in Within(s, id) :: c.fromNode
  }

  /** What a node's turn may read and write. */
  ghost function Sight(s: Setup, id: NodeId): set<NodeId> {
    Within(s, id) + Feeding(s, id)
  }

  ghost function View(s: Setup, at: Option<NodeId>): set<NodeId> {
    match at
    case None => Ids(s.w.nodes)
    case Some(lp) => Sight(s, lp)
  }

  /** A path of forward links between nodes of one list. */
  ghost predicate ListPath(s: Setup, at: Option<NodeId>, p: seq<NodeId>) {
    Path(s.Links(), p) && forall x :: x in p ==> OwnerOf(s.owner, x) == at
  }

  /** The list runs `x` before `y`. */
  ghost predicate Before(s: Setup, x: NodeId, y: NodeId) {
    exists p :: |p| > 1 && p[0] == x && p[|p| - 1] == y && ListPath(s, OwnerOf(s.owner, y), p)
  }

  lemma FirstStep(s: Setup, x: NodeId, y: NodeId) returns (c: Connection)
    requires Before(s, x, y)
    ensures c in s.Links() && c.fromNode == x && OwnerOf(s.owner, c.toNode) == OwnerOf(s.owner, y)
  {
    var p :| |p| > 1 && p[0] == x && p[|p| - 1] == y && ListPath(s, OwnerOf(s.owner, y), p);
    assert Linked(s.Links(), p[0], p[1]);
    c :| c in s.Links() && c.fromNode == p[0] && c.toNode == p[1];
    assert p[1] in p;
  }

  /** Something in the tree of `x` feeds something in the tree of `y`. */
  ghost predicate FeedsInto(s: Setup, x: NodeId, y: NodeId) {
    exists c :: c in s.w.connections && c.fromNode in Within(s, x) && c.toNode in Within(s, y)
  }

  /** Two nodes of one list, one of which feeds into the other, neither always first. */
  ghost predicate Loose(s: Setup, x: NodeId, y: NodeId) {
    && FeedsInto(s, x, y) && x in Ids(s.w.nodes) && y in Ids(s.w.nodes)
    && x != y && OwnerOf(s.owner, x) == OwnerOf(s.owner, y)
    && !Before(s, x, y) && !Before(s, y, x)
  }

  /** Of two nodes of one list, one of which feeds into the other, one always comes first. */
  ghost predicate Settled(s: Setup) {
    forall x, y :: !Loose(s, x, y)
  }

  /** What feeds into one node's tree is in another's: one of the two always comes first. */
  lemma OneComesFirst(s: Setup, a: NodeId, b: NodeId, x: NodeId)
    requires Settled(s) && a in Ids(s.w.nodes) && b in Ids(s.w.nodes) && a != b
    requires OwnerOf(s.owner, a) == OwnerOf(s.owner, b) && x in Within(s, a) && x in Feeding(s, b)
    ensures Before(s, a, b) || Before(s, b, a)
  {
    assert FeedsInto(s, a, b);
    assert !Loose(s, a, b);
  }
}
