/** When the timing of a run with loops does matter (src/engine.rs): if a node and a loop beside it race, there are node
    types for which one order of turns fails the run and another one does not. With `RunsAgree`, exactly when. */
module Races {

  import opened Workflows
  import opened Reachability
  import opened NodeRuns
  import opened RunLists
  import opened LoopTrees
  import opened RunsAgree
  import opened WorkflowRun
  import opened Schedules
  import opened Layouts
  import opened RaceStage
  import opened RaceTurns
  import opened LoopFirst
  import opened FeederFirst

  // ---- Putting off the one or the other -------------------------------------------------------------------------

  /** A node and what its list runs after it. */
  ghost function FromOn(s: Setup, x: NodeId): set<NodeId> {
    set y | y in Ids(s.w.nodes) && (y == x || Before(s, x, y))
  }

  lemma StepOn(s: Setup, x: NodeId, c: Connection)
    requires c in s.Links() && OwnerOf(s.owner, c.fromNode) == OwnerOf(s.owner, c.toNode)
    requires c.fromNode == x || Before(s, x, c.fromNode)
    ensures Before(s, x, c.toNode)
  {
    var y, z := c.fromNode, c.toNode;
    assert Linked(s.Links(), y, z);
    var p := [x];
    if y != x {
      p :| |p| > 1 && p[0] == x && p[|p| - 1] == y && ListPath(s, OwnerOf(s.owner, y), p);
    }
    PathOn(s, p, z);
  }

  lemma PathOn(s: Setup, p: seq<NodeId>, z: NodeId)
    requires |p| > 0 && Linked(s.Links(), p[|p| - 1], z) && OwnerOf(s.owner, p[|p| - 1]) == OwnerOf(s.owner, z)
    requires |p| > 1 ==> ListPath(s, OwnerOf(s.owner, p[|p| - 1]), p)
    ensures Before(s, p[0], z)
  {
    var q, at := p + [z], OwnerOf(s.owner, z);
    forall i, k | 0 <= i < k == i + 1 < |q| ensures Linked(s.Links(), q[i], q[k]) {
      if k < |p| { assert Linked(s.Links(), p[i], p[k]); }
    }
    forall y | y in q ensures OwnerOf(s.owner, y) == at {
      if y in p && |p| == 1 { assert y == p[0]; }
    }
    assert q[0] == p[0] && q[|q| - 1] == z && ListPath(s, at, q);
  }

  lemma CanPutOff(s: Setup, order: seq<NodeInstance>, x: NodeId)
    requires Planned(s, order)
    ensures Deferred(s, FromOn(s, x))
  {
    forall c | c in s.Links() && c.fromNode in FromOn(s, x) &&
      OwnerOf(s.owner, c.fromNode) == OwnerOf(s.owner, c.toNode)
      ensures c.toNode in FromOn(s, x)
    {
      StepOn(s, x, c);
      LinkEnds(s, c);
    }
  }

  // ---- The two runs ---------------------------------------------------------------------------------------------

  lemma NothingMarked(g: Race)
    ensures Clear(g, NOTHING) && !Marked(g, NOTHING)
  {
  }

  lemma AtTheTop(t: Setup, order: seq<NodeInstance>, g: Race)
    requires Racing(t, order, g)
    ensures g.f in Under(t, None) && g.lp in Ids(t.w.nodes) && IsPlace(t, None)
  {
    var n :| n in t.w.nodes && IsLoop(n) && n.id == g.lp;
  }

  /** With the feeder put off the run goes well. */
  lemma {:induction false} LoopWins(t: Setup, order: seq<NodeInstance>, g: Race) returns (a: Log)
    requires Racing(t, order, g) && Untied(t, g)
    ensures IsRun(t, order, None, a) && a.start == NOTHING && a.ok
  {
    var late := FromOn(t, g.f);
    CanPutOff(t, order, g.f);
    AtTheTop(t, order, g);
    PlainBeside(t, order, g);
    NothingMarked(g);
    a := RunExists(t, order, late, None, NOTHING);
    RunGoes(t, order, g, late, None, a);
  }

  /** With the loop put off it fails. */
  lemma {:induction false} FeederWins(t: Setup, order: seq<NodeInstance>, g: Race) returns (a: Log)
    requires Racing(t, order, g) && Untied(t, g)
    ensures IsRun(t, order, None, a) && a.start == NOTHING && !a.ok
  {
    var late := FromOn(t, g.lp);
    CanPutOff(t, order, g.lp);
    AtTheTop(t, order, g);
    PlainBeside(t, order, g);
    a := RunExists(t, order, late, None, NOTHING);
    FeederFirstFails(t, order, g, late, None, a);
  }

  /** What an execution whose top-level nodes ran that way returns. */
  function ResultOf(t: Setup, a: Log): Execution {
    if a.ok then FirstOutputs(t.w, a.end) else NodeFailed
  }

  lemma {:induction false} RunIsExecution(t: Setup, order: seq<NodeInstance>, g: Race, a: Log)
    requires Racing(t, order, g) && IsRun(t, order, None, a) && a.start == NOTHING
    ensures RanInOrder(t, order, a.turns, a.end, ResultOf(t, a))
  {
    var n :| n in t.w.nodes && IsLoop(n) && n.id == g.lp;
  }

  /** A result that an execution can have. */
  ghost predicate Happens(t: Setup, order: seq<NodeInstance>, r: Execution) {
    exists turns, end :: RanInOrder(t, order, turns, end, r)
  }

  lemma RacingStage(s: Setup, order: seq<NodeInstance>, g: Race) returns (t: Setup, order': seq<NodeInstance>)
    requires Planned(s, order) && Contest(s, order, g) && Untied(s, g) && GoodRoles(g.roles)
    ensures SamePlan(s, order, t, order') && Racing(t, order', g) && Untied(t, g)
  {
    t, order' := Stage(s, order, g), CastAll(g, order);
    StagePlanned(s, order, g);
    StageStaged(s, order, g);
    ContestSame(s, order, t, order', g);
    UntiedSame(s, t, g);
  }

  /** In every layout in which a node feeds into a loop beside it while neither always comes first, there are node
      types with which the execution fails or not, depending on which of the two has its turn first. */
  lemma RaceMatters(s: Setup, order: seq<NodeInstance>, g: Race)
    returns (t: Setup, order': seq<NodeInstance>, r: Execution)
    requires Planned(s, order) && Contest(s, order, g) && Untied(s, g) && GoodRoles(g.roles)
    ensures SamePlan(s, order, t, order') && Planned(t, order')
    ensures Happens(t, order', NodeFailed) && r.Outputs? && Happens(t, order', r)
  {
    t, order' := RacingStage(s, order, g);
    var a := LoopWins(t, order', g);
    var b := FeederWins(t, order', g);
    RunIsExecution(t, order', g, a);
    RunIsExecution(t, order', g, b);
    r := ResultOf(t, a);
  }

  // ---- Exactly when it matters ----------------------------------------------------------------------------------

  /** Whatever its nodes do, the workflow's executions have one result. */
  ghost predicate TimingIrrelevant(s: Setup, order: seq<NodeInstance>) {
    forall t, order', r, r' ::
      SamePlan(s, order, t, order') && Planned(t, order') && Happens(t, order', r) && Happens(t, order', r') ==> r == r'
  }

  /** Where there is a race at all, there is one that shows. */
  ghost predicate RacesShow(s: Setup, order: seq<NodeInstance>) {
    forall x, y :: Loose(s, x, y) ==> exists g: Race :: Contest(s, order, g) && Untied(s, g)
  }

  lemma SettledIsIrrelevant(s: Setup, order: seq<NodeInstance>)
    requires Planned(s, order) && Settled(s)
    ensures TimingIrrelevant(s, order)
  {
    forall t, order', r, r' | SamePlan(s, order, t, order') && Planned(t, order') && Happens(t, order', r) &&
      Happens(t, order', r')
      ensures r == r'
    {
      var turns, end :| RanInOrder(t, order', turns, end, r);
      var turns', end' :| RanInOrder(t, order', turns', end', r');
      SettledSame(s, order, t, order');
      SettledExecutionsAgree(t, order', turns, end, r, turns', end', r');
    }
  }

  lemma ContestAnyRoles(s: Setup, order: seq<NodeInstance>, g: Race, roles: Roles)
    requires Contest(s, order, g) && Untied(s, g)
    ensures Contest(s, order, g.(roles := roles)) && Untied(s, g.(roles := roles))
  {
    var h := g.(roles := roles);
    assert forall d :: Hot(h, d) ==> Hot(g, d);
  }

  lemma SomeRoles() returns (roles: Roles)
    ensures GoodRoles(roles)
  {
    roles := Roles("sends", "marks", "watches", "mark");
    assert |LOOP_TYPE| == 9 && |roles.sends| == |roles.marks| == 5 && |roles.watches| == 7;
    assert roles.sends[0] == 's' && roles.marks[0] == 'm';
  }

  /** The condition is exact, wherever races show: the executions of a workflow have one result, whatever its nodes do,
      exactly when it is settled. */
  lemma SettledIffIrrelevant(s: Setup, order: seq<NodeInstance>)
    requires Planned(s, order) && RacesShow(s, order)
    ensures Settled(s) <==> TimingIrrelevant(s, order)
  {
    if Settled(s) {
      SettledIsIrrelevant(s, order);
    } else {
      var x, y :| Loose(s, x, y);
      var g: Race :| Contest(s, order, g) && Untied(s, g);
      var roles := SomeRoles();
      ContestAnyRoles(s, order, g, roles);
      var t, order', r := RaceMatters(s, order, g.(roles := roles));
      assert r != NodeFailed;
    }
  }
}
