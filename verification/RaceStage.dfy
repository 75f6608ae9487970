/** A node beside a loop that feeds a node in the loop's tree, and a way to cast the nodes of the workflow
    (src/engine.rs) so that it shows which of the two ran first: the feeder sends a marker, and the node it feeds
    fails on seeing it. */
module RaceStage {

  import opened JsonValues
  import opened Workflows
  import opened Sequences
  import opened TopologicalOrder
  import opened NodeRuns
  import opened RunLists
  import opened LoopTrees
  import opened Layouts

  // ---- The contest ----------------------------------------------------------------------------------------------

  /** A feeder, the loop beside it, a node in the loop's tree and the link between the two. */
  datatype Race = Race(f: NodeId, lp: NodeId, q: NodeId, c: Connection, roles: Roles)

  /** Names for the three node types of the cast and for the marker. */
  datatype Roles = Roles(sends: string, marks: string, watches: string, mark: string)

  ghost predicate GoodRoles(r: Roles) {
    && r.sends != LOOP_TYPE && r.marks != LOOP_TYPE && r.watches != LOOP_TYPE
    && r.sends != r.marks && r.sends != r.watches && r.marks != r.watches
  }

  ghost predicate PlainId(s: Setup, id: NodeId) {
    id in Ids(s.w.nodes) && forall n :: n in s.w.nodes && n.id == id ==> !IsLoop(n)
  }

  ghost predicate LoopId(s: Setup, id: NodeId) {
    exists n :: n in s.w.nodes && IsLoop(n) && n.id == id
  }

  /** The link carries what `c` carries. */
  ghost predicate Hot(g: Race, d: Connection) {
    d.fromNode == g.f && d.error == g.c.error && (d.error || d.fromOutput == g.c.fromOutput)
  }

  ghost predicate SendsTo(s: Setup, a: NodeId, b: NodeId) {
    exists d :: d in s.Links() && d.fromNode == a && d.toNode == b && !d.error
  }

  /** The node where items enter a list: the start, or one on the loop's output 1. */
  ghost predicate Entry(s: Setup, order: seq<NodeInstance>, at: Option<NodeId>, x: NodeId) {
    match at
    case None => order != [] && order[0].id == x && PlainId(s, x)
    case Some(lp) => exists d :: d in s.Links() && d.fromNode == lp && d.fromOutput == 1 && !d.error && d.toNode == x
  }

  /** Items that enter the list come along here: through plain nodes, by links that are not error links. */
  ghost predicate LivePath(s: Setup, order: seq<NodeInstance>, at: Option<NodeId>, p: seq<NodeId>) {
    && |p| > 0 && Entry(s, order, at, p[0]) && ListPath(s, at, p)
    && forall i, k :: 0 <= i < k == i + 1 < |p| ==> SendsTo(s, p[i], p[k]) && PlainId(s, p[i])
  }

  ghost predicate Live(s: Setup, order: seq<NodeInstance>, id: NodeId) {
    exists p :: LivePath(s, order, OwnerOf(s.owner, id), p) && p[|p| - 1] == id
  }

  /** What it takes for the race to show: the feeder and the node it feeds do work of their own, the output between them
      feeds no loop, the feeder gets items, and so does every loop around the node it feeds. */
  ghost predicate Contest(s: Setup, order: seq<NodeInstance>, g: Race) {
    && PlainId(s, g.f) && PlainId(s, g.q) && LoopId(s, g.lp)
    && g.c in s.Links() && g.c.fromNode == g.f && g.c.toNode == g.q
    && OwnerOf(s.owner, g.f) == OwnerOf(s.owner, g.lp) && g.q in Within(s, g.lp)
    && (forall d :: d in s.w.connections && Hot(g, d) ==> PlainId(s, d.toNode))
    && (forall d :: d in s.w.connections ==> d.toInput < MAX_INPUTS)
    && Live(s, order, g.f)
    && forall m :: LoopId(s, m) && g.q in Within(s, m) ==> Live(s, order, m)
  }

  /** Neither always comes before the other. */
  ghost predicate Untied(s: Setup, g: Race) {
    !Before(s, g.f, g.lp) && !Before(s, g.lp, g.f)
  }

  // ---- The cast -------------------------------------------------------------------------------------------------

  const SENT := Item(Null, Null)

  /** The marker: what a node that fails sends on its error route. */
  function Mark(g: Race): Item {
    ErrorItem(g.roles.mark)
  }

  function Role(g: Race, id: NodeId): string {
    if id == g.f then g.roles.marks else if id == g.q then g.roles.watches else g.roles.sends
  }

  function Cast(g: Race, n: NodeInstance): NodeInstance {
    Plainly(n.id, if IsLoop(n) then LOOP_TYPE else Role(g, n.id))
  }

  function CastAll(g: Race, nodes: seq<NodeInstance>): seq<NodeInstance> {
    seq(|nodes|, i requires 0 <= i < |nodes| => Cast(g, nodes[i]))
  }

  /** More ports than any link names. */
  function Ports(links: seq<Connection>): (ports: nat)
    ensures forall c :: c in links ==> c.fromOutput < ports
  {
    if links == [] then 0 else Max(links[0].fromOutput + 1, Ports(links[1..]))
  }

  /** One item on each port. */
  function Everywhere(ports: nat): NodeOutput {
    seq(ports, k requires k >= 0 => [SENT])
  }

  /** The marker on one port, or as a failure. */
  function Marking(g: Race, ports: nat): Called {
    if g.c.error then Failed(g.roles.mark)
    else if g.c.fromOutput < ports then Produced(Everywhere(ports)[g.c.fromOutput := [Mark(g)]])
    else Produced(Everywhere(ports))
  }

  function SendingWork(ports: nat): NodeWork {
    (parameters, settings, items, groups, all) => Produced(Everywhere(ports))
  }

  function MarkingWork(g: Race, ports: nat): NodeWork {
    (parameters, settings, items, groups, all) => Marking(g, ports)
  }

  function WatchingWork(g: Race, ports: nat): NodeWork {
    (parameters, settings, items, groups, all) => if Mark(g) in items then Unresolved else Produced(Everywhere(ports))
  }

  function Works(g: Race, ports: nat): map<string, NodeType> {
    map[g.roles.sends := NodeType(false, SendingWork(ports)), g.roles.marks := NodeType(false, MarkingWork(g, ports)),
        g.roles.watches := NodeType(false, WatchingWork(g, ports)), LOOP_TYPE := NodeType(false, SendingWork(ports))]
  }

  function Stage(s: Setup, order: seq<NodeInstance>, g: Race): Setup {
    Setup(Workflow(CastAll(g, s.w.nodes), s.w.connections), s.back, s.owner, Works(g, Ports(s.w.connections)),
          if order == [] then None else Some(order[0].id), None, map[])
  }

  lemma CastLooks(g: Race, n: NodeInstance)
    requires GoodRoles(g.roles)
    ensures SameLook(n, Cast(g, n))
  {
  }

  lemma CastSame(g: Race, nodes: seq<NodeInstance>)
    requires GoodRoles(g.roles)
    ensures SameNodes(nodes, CastAll(g, nodes))
  {
    forall i | 0 <= i < |nodes| ensures SameLook(nodes[i], CastAll(g, nodes)[i]) { CastLooks(g, nodes[i]); }
  }

  // ---- Its plan -------------------------------------------------------------------------------------------------

  lemma DistinctNodes(w: Workflow, order: seq<NodeInstance>)
    requires IsOrder(w, order)
    ensures DistinctIds(w.nodes)
  {
    assert |multiset(order)| == |multiset(w.nodes)|;
    IdsCount(order);
    IdsCount(w.nodes);
    forall id ensures id in Ids(order) <==> id in Ids(w.nodes) { SameNodesSameIds(w.nodes, order, id); }
    assert Ids(order) == Ids(w.nodes);
  }

  lemma CastElement(g: Race, a: seq<NodeInstance>, b: seq<NodeInstance>, m: NodeInstance)
    requires multiset(a) == multiset(b) && m in CastAll(g, a)
    ensures m in CastAll(g, b)
  {
    var i :| 0 <= i < |a| && CastAll(g, a)[i] == m;
    assert a[i] in multiset(b);
    var j :| 0 <= j < |b| && b[j] == a[i];
    assert CastAll(g, b)[j] == m;
  }

  lemma DistinctAreOnce(nodes: seq<NodeInstance>)
    requires DistinctIds(nodes)
    ensures NoRepeats(nodes)
  {
  }

  lemma CastBag(g: Race, w: Workflow, order: seq<NodeInstance>)
    requires IsOrder(w, order) && GoodRoles(g.roles)
    ensures multiset(CastAll(g, order)) == multiset(CastAll(g, w.nodes))
  {
    var a, b := CastAll(g, order), CastAll(g, w.nodes);
    DistinctNodes(w, order);
    CastSame(g, order);
    CastSame(g, w.nodes);
    SameDistinct(order, a);
    SameDistinct(w.nodes, b);
    DistinctAreOnce(a);
    DistinctAreOnce(b);
    forall m ensures m in a <==> m in b {
      if m in a { CastElement(g, order, w.nodes, m); }
      if m in b { CastElement(g, w.nodes, order, m); }
    }
    SameElementsSameMultiset(a, b);
  }

  lemma StagePlanned(s: Setup, order: seq<NodeInstance>, g: Race)
    requires Planned(s, order) && GoodRoles(g.roles)
    ensures SamePlan(s, order, Stage(s, order, g), CastAll(g, order)) && Planned(Stage(s, order, g), CastAll(g, order))
  {
    CastSame(g, s.w.nodes);
    CastSame(g, order);
    CastBag(g, s.w, order);
    PlanSame(s, order, Stage(s, order, g), CastAll(g, order));
  }

  // ---- The contest stays the same -------------------------------------------------------------------------------

  lemma KindsSame(s: Setup, t: Setup, id: NodeId)
    requires SameLayout(s.w, t.w)
    ensures PlainId(s, id) ==> PlainId(t, id)
    ensures LoopId(s, id) ==> LoopId(t, id)
  {
    SameIds(s.w.nodes, t.w.nodes);
    Turned(s.w, t.w);
    if PlainId(s, id) {
      forall m | m in t.w.nodes && m.id == id ensures !IsLoop(m) { var n := Counterpart(t.w.nodes, s.w.nodes, m); }
    }
    if LoopId(s, id) { LoopsSame(s.w, t.w, id); }
  }

  lemma EntrySame(s: Setup, order: seq<NodeInstance>, t: Setup, order': seq<NodeInstance>, at: Option<NodeId>,
      x: NodeId)
    requires SamePlan(s, order, t, order') && Entry(s, order, at, x)
    ensures Entry(t, order', at, x)
  {
    if at.None? {
      assert SameLook(order[0], order'[0]);
      KindsSame(s, t, x);
    }
  }

  lemma LiveSame(s: Setup, order: seq<NodeInstance>, t: Setup, order': seq<NodeInstance>, id: NodeId)
    requires SamePlan(s, order, t, order') && Live(s, order, id)
    ensures Live(t, order', id)
  {
    var at := OwnerOf(s.owner, id);
    var p :| LivePath(s, order, at, p) && p[|p| - 1] == id;
    EntrySame(s, order, t, order', at, p[0]);
    forall i, k | 0 <= i < k == i + 1 < |p| ensures SendsTo(t, p[i], p[k]) && PlainId(t, p[i]) {
      assert SendsTo(s, p[i], p[k]) && PlainId(s, p[i]);
      KindsSame(s, t, p[i]);
    }
    assert LivePath(t, order', at, p);
  }

  lemma ContestSame(s: Setup, order: seq<NodeInstance>, t: Setup, order': seq<NodeInstance>, g: Race)
    requires SamePlan(s, order, t, order') && Contest(s, order, g)
    ensures Contest(t, order', g)
  {
    KindsSame(s, t, g.f);
    KindsSame(s, t, g.q);
    KindsSame(s, t, g.lp);
    TreesSame(s, t, g.lp);
    forall d | d in t.w.connections && Hot(g, d) ensures PlainId(t, d.toNode) { KindsSame(s, t, d.toNode); }
    LiveSame(s, order, t, order', g.f);
    Turned(s.w, t.w);
    forall m | LoopId(t, m) && g.q in Within(t, m) ensures Live(t, order', m) {
      KindsSame(t, s, m);
      TreesSame(s, t, m);
      LiveSame(s, order, t, order', m);
    }
  }

  lemma UntiedSame(s: Setup, t: Setup, g: Race)
    requires SameLayout(s.w, t.w) && s.back == t.back && s.owner == t.owner && Untied(s, g)
    ensures Untied(t, g)
  {
    if Before(t, g.f, g.lp) { BeforeSame(t, s, g.f, g.lp); }
    if Before(t, g.lp, g.f) { BeforeSame(t, s, g.lp, g.f); }
  }
}
