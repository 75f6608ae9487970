/** `Run::run_graph` and `run_loop` (src/engine.rs), loops included, as a step system: all nodes that run, at the top
    level and in the body of every loop that is in a pass, advance in any interleaving. */
module LoopSteps {

  import opened Workflows
  import opened LoopLayout
  import opened TopologicalOrder
  import opened NodeRuns
  import opened LoopBatches
  import opened RunLists
  import opened RunLogs
  import opened LoopTrees
  import opened RunsAgree
  import Steps = RunGraph

  // ---- The steps ------------------------------------------------------------------------------------------------

  /** What a loop still has to send, what its body sent so far and what came back. */
  datatype Circuit = Circuit(queue: seq<Item>, totals: map<NodeId, NodeOutput>, done: seq<Item>)

  /** How far a node has come in the present run of its list. A plain node reads its inputs and runs, stores its error
      items, then its output; a loop is between two passes or inside one. */
  datatype Task =
    | Idle
    | Begun
    | Ran(o: Outcome)
    | Reported(o: Outcome)
    | Between(c: Circuit)
    | Inside(c: Circuit)
    | Finished

  datatype Config = Config(st: RunState, tasks: map<NodeId, Task>, status: Steps.Status)

  const INITIAL := Config(NOTHING, map[], Steps.Going)

  function TaskOf(k: Config, id: NodeId): Task {
    if id in k.tasks then k.tasks[id] else Idle
  }

  predicate Busy(task: Task) {
    !task.Idle? && !task.Finished?
  }

  function Put(k: Config, id: NodeId, task: Task): Config {
    k.(tasks := k.tasks[id := task])
  }

  /** The nodes of its own list that feed it have finished (`deps`). */
  ghost predicate FeedersDone(s: Setup, k: Config, id: NodeId) {
    forall c ::
      c in s.Links() && c.toNode == id && c.fromNode != id && OwnerOf(s.owner, c.fromNode) == OwnerOf(s.owner, id)
      ==> TaskOf(k, c.fromNode).Finished?
  }

  /** The list is being run: it is the top-level list, or the body of a loop in a pass. */
  predicate Active(k: Config, at: Option<NodeId>) {
    at.Some? ==> TaskOf(k, at.value).Inside?
  }

  ghost predicate Start(s: Setup, k: Config, k': Config, n: NodeInstance) {
    && Active(k, OwnerOf(s.owner, n.id)) && TaskOf(k, n.id).Idle? && FeedersDone(s, k, n.id)
    && k' == Put(k, n.id, Begun)
  }

  /** The node reads what arrived and runs, or enters its loop; a failure ends the whole run. */
  ghost predicate Read(s: Setup, k: Config, k': Config, n: NodeInstance) {
    TaskOf(k, n.id).Begun? &&
    match NodeOutcome(s, k.st, n)
    case Fails => k' == k.(status := Steps.Broken)
    case Stores(output, errors, status, reused) => k' == Put(k, n.id, Ran(Stores(output, errors, status, reused)))
    case EntersLoop(input) => k' == Put(k, n.id, Between(Circuit(input, map[], [])))
  }

  ghost predicate Report(k: Config, k': Config, n: NodeInstance) {
    && TaskOf(k, n.id).Ran? && TaskOf(k, n.id).o.Stores?
    && var o := TaskOf(k, n.id).o;
       k' == Put(k.(st := StoreErrors(k.st, n.id, o)), n.id, Reported(o))
  }

  ghost predicate Finish(k: Config, k': Config, n: NodeInstance) {
    && TaskOf(k, n.id).Reported? && TaskOf(k, n.id).o.Stores?
    && k' == Put(k.(st := StoreOutput(k.st, n.id, TaskOf(k, n.id).o)), n.id, Finished)
  }

  function NextBatch(queue: seq<Item>, size: nat): seq<Item> {
    if |queue| < size then queue else queue[..size]
  }

  /** The loop takes a batch, clears what its body left and offers the batch; its body's list starts afresh. */
  ghost predicate BeginPass(s: Setup, order: seq<NodeInstance>, k: Config, k': Config, n: NodeInstance) {
    && TaskOf(k, n.id).Between? && TaskOf(k, n.id).c.queue != []
    && var c, body := TaskOf(k, n.id).c, OwnedNodes(s, order, n);
       var batch := NextBatch(c.queue, BatchSize(n.parameters));
       k' == Config(BeforePass(k.st, body, n.id, batch),
                    (k.tasks - Ids(body))[n.id := Inside(c.(queue := c.queue[|batch|..]))], k.status)
  }

  /** Nothing of the list runs, and nothing can start. */
  ghost predicate Quiet(s: Setup, order: seq<NodeInstance>, k: Config, at: Option<NodeId>) {
    forall n :: n in ListAt(s, order, at) ==>
      !Busy(TaskOf(k, n.id)) && (TaskOf(k, n.id).Idle? ==> !FeedersDone(s, k, n.id))
  }

  /** The body's list is through: its output joins the totals, and what the return links bring back joins "done". */
  ghost predicate EndPass(s: Setup, order: seq<NodeInstance>, k: Config, k': Config, n: NodeInstance) {
    && TaskOf(k, n.id).Inside? && Quiet(s, order, k, Some(n.id))
    && var c := TaskOf(k, n.id).c;
       k' == Put(k, n.id, Between(Circuit(
         c.queue, AddAll(OwnedNodes(s, order, n), k.st, c.totals),
         c.done + BroughtBack(BackLinksInto(s.w.connections, s.back, n.id), k.st))))
  }

  ghost predicate EndLoop(k: Config, k': Config, n: NodeInstance) {
    && TaskOf(k, n.id).Between? && TaskOf(k, n.id).c.queue == []
    && var c := TaskOf(k, n.id).c;
       k' == Put(k.(st := AfterPasses(k.st, c.totals, n.id, c.done)), n.id, Finished)
  }

  ghost predicate NodeStep(s: Setup, order: seq<NodeInstance>, k: Config, k': Config, n: NodeInstance) {
    || Start(s, k, k', n)
    || Read(s, k, k', n)
    || Report(k, k', n)
    || Finish(k, k', n)
    || BeginPass(s, order, k, k', n)
    || EndPass(s, order, k, k', n)
    || EndLoop(k, k', n)
  }

  /** The top-level list is through. */
  ghost predicate BreakOut(s: Setup, order: seq<NodeInstance>, k: Config, k': Config) {
    Quiet(s, order, k, None) && k' == k.(status := Steps.Succeeded)
  }

  ghost predicate Next(s: Setup, order: seq<NodeInstance>, k: Config, k': Config) {
    k.status == Steps.Going &&
    (BreakOut(s, order, k, k') || exists n :: n in s.w.nodes && NodeStep(s, order, k, k', n))
  }

  ghost predicate StepAt(s: Setup, order: seq<NodeInstance>, t: seq<Config>, i: nat)
    requires i + 1 < |t|
  {
    Next(s, order, t[i], t[i + 1])
  }

  ghost predicate Trace(s: Setup, order: seq<NodeInstance>, t: seq<Config>) {
    && |t| > 0
    && t[0] == INITIAL
    && forall i: nat :: i + 1 < |t| ==> StepAt(s, order, t, i)
  }

  // ---- What every step keeps ------------------------------------------------------------------------------------

  /** A node that runs has its list run around it. */
  ghost predicate Enclosed(s: Setup, k: Config, id: NodeId) {
    Busy(TaskOf(k, id)) ==> Active(k, OwnerOf(s.owner, id))
  }

  ghost predicate Supplied(s: Setup, k: Config, n: NodeInstance) {
    !TaskOf(k, n.id).Idle? ==> FeedersDone(s, k, n.id)
  }

  /** What a node's task may be: results to store are such, and only loops circle. */
  ghost predicate Fitting(s: Setup, order: seq<NodeInstance>, task: Task, n: NodeInstance) {
    match task
    case Ran(o) => o.Stores?
    case Reported(o) => o.Stores?
    case Between(c) => IsLoop(n) && c.totals.Keys <= Ids(OwnedNodes(s, order, n))
    case Inside(c) => IsLoop(n) && c.totals.Keys <= Ids(OwnedNodes(s, order, n))
    case _ => true
  }

  ghost predicate Sane(s: Setup, order: seq<NodeInstance>, k: Config) {
    && (forall id :: Enclosed(s, k, id))
    && (forall n :: n in s.w.nodes ==> Supplied(s, k, n))
    && (forall n :: n in s.w.nodes ==> Fitting(s, order, TaskOf(k, n.id), n))
    && forall id :: id !in Ids(s.w.nodes) ==> SameEntries(NOTHING, k.st, id)
  }

  /** A step in which only one node's task changes, not back to idle, and no finished one. */
  ghost predicate Moves(k: Config, k': Config, n: NodeInstance) {
    && (forall id :: id != n.id ==> TaskOf(k', id) == TaskOf(k, id))
    && !TaskOf(k, n.id).Finished? && !TaskOf(k', n.id).Idle?
  }

  lemma MovesKeepSupplied(s: Setup, k: Config, k': Config, n: NodeInstance, m: NodeInstance)
    requires Moves(k, k', n) && Supplied(s, k, m) && (m.id == n.id ==> FeedersDone(s, k, n.id))
    ensures Supplied(s, k', m)
  {
    forall c | c in s.Links() && c.toNode == m.id && c.fromNode != m.id && FeedersDone(s, k, m.id)
      && OwnerOf(s.owner, c.fromNode) == OwnerOf(s.owner, m.id)
      ensures TaskOf(k', c.fromNode).Finished?
    {
      assert TaskOf(k, c.fromNode).Finished?;
    }
  }

  lemma MovesKeepEnclosed(s: Setup, k: Config, k': Config, n: NodeInstance, id: NodeId)
    requires Moves(k, k', n) && Enclosed(s, k, id) && Enclosed(s, k, n.id) && OwnerOf(s.owner, n.id) != Some(n.id)
    requires TaskOf(k, n.id).Idle? ==> Active(k, OwnerOf(s.owner, n.id))
    requires TaskOf(k, n.id).Inside? && OwnerOf(s.owner, id) == Some(n.id) ==> !Busy(TaskOf(k, id))
    ensures Enclosed(s, k', id)
  {
  }

  lemma OwnerIsOther(s: Setup, order: seq<NodeInstance>, n: NodeInstance)
    requires Planned(s, order) && n in s.w.nodes
    ensures OwnerOf(s.owner, n.id) != Some(n.id)
  {
    if n.id in s.owner {
      OwnerNotUnder(s, order, n.id);
      InOwnTree(s, n.id);
    }
  }

  lemma {:induction false} TotalsStayOwned(s: Setup, order: seq<NodeInstance>, n: NodeInstance, st: RunState,
      totals: map<NodeId, NodeOutput>)
    requires Planned(s, order) && n in s.w.nodes && IsLoop(n) && totals.Keys <= Ids(OwnedNodes(s, order, n))
    ensures AddAll(OwnedNodes(s, order, n), st, totals).Keys <= Ids(OwnedNodes(s, order, n))
  {
    var body := OwnedNodes(s, order, n);
    PlannedIsNested(s, order);
    assert NestedLoop(s, order, n);
    forall id | id in AddAll(body, st, totals) ensures id in Ids(body) { AddAllAdds(body, st, totals, id); }
  }

  /** Two states that differ in one node's tree only. */
  ghost predicate WritesIn(s: Setup, a: RunState, b: RunState, id: NodeId) {
    forall x :: x !in Within(s, id) ==> SameEntries(a, b, x)
  }

  lemma BodyInTree(s: Setup, order: seq<NodeInstance>, n: NodeInstance)
    requires Planned(s, order)
    ensures Ids(OwnedNodes(s, order, n)) <= Within(s, n.id) && n.id in Within(s, n.id)
  {
    InOwnTree(s, n.id);
    forall m | m in OwnedNodes(s, order, n) ensures m.id in Within(s, n.id) {
      Listing(s, order, Some(n.id), m);
      OwnedInTree(s, m.id, n.id);
    }
  }

  lemma PassWrites(s: Setup, order: seq<NodeInstance>, st: RunState, n: NodeInstance, batch: seq<Item>)
    requires Planned(s, order)
    ensures WritesIn(s, st, BeforePass(st, OwnedNodes(s, order, n), n.id, batch), n.id)
  {
    BodyInTree(s, order, n);
  }

  lemma EndWrites(s: Setup, order: seq<NodeInstance>, st: RunState, n: NodeInstance, c: Circuit)
    requires Planned(s, order) && c.totals.Keys <= Ids(OwnedNodes(s, order, n))
    ensures WritesIn(s, st, AfterPasses(st, c.totals, n.id, c.done), n.id)
  {
    BodyInTree(s, order, n);
    forall x | x !in Within(s, n.id) ensures SameEntries(st, AfterPasses(st, c.totals, n.id, c.done), x) {
      assert x !in c.totals && x != n.id;
    }
  }

  lemma StoreWrites(s: Setup, st: RunState, id: NodeId, o: Outcome)
    requires o.Stores?
    ensures WritesIn(s, st, StoreErrors(st, id, o), id) && WritesIn(s, st, StoreOutput(st, id, o), id)
  {
    InOwnTree(s, id);
  }

  /** What a node's next step makes of the state. */
  function StateAfter(s: Setup, order: seq<NodeInstance>, st: RunState, task: Task, n: NodeInstance): RunState {
    match task
    case Ran(o) => if o.Stores? then StoreErrors(st, n.id, o) else st
    case Reported(o) => if o.Stores? then StoreOutput(st, n.id, o) else st
    case Between(c) =>
      if c.queue == [] then AfterPasses(st, c.totals, n.id, c.done)
      else BeforePass(st, OwnedNodes(s, order, n), n.id, NextBatch(c.queue, BatchSize(n.parameters)))
    case _ => st
  }

  lemma StepState(s: Setup, order: seq<NodeInstance>, k: Config, k': Config, n: NodeInstance)
    requires NodeStep(s, order, k, k', n)
    ensures k'.st == StateAfter(s, order, k.st, TaskOf(k, n.id), n)
  {
  }

  lemma StateWrites(s: Setup, order: seq<NodeInstance>, st: RunState, task: Task, n: NodeInstance)
    requires Planned(s, order) && Fitting(s, order, task, n)
    ensures WritesIn(s, st, StateAfter(s, order, st, task, n), n.id)
  {
    match task
    case Ran(o) => StoreWrites(s, st, n.id, o);
    case Reported(o) => StoreWrites(s, st, n.id, o);
    case Between(c) =>
      if c.queue == [] {
        EndWrites(s, order, st, n, c);
      } else {
        PassWrites(s, order, st, n, NextBatch(c.queue, BatchSize(n.parameters)));
      }
    case _ =>
  }

  /** A node's step writes in its own tree only. */
  lemma StepWrites(s: Setup, order: seq<NodeInstance>, k: Config, k': Config, n: NodeInstance)
    requires Planned(s, order) && n in s.w.nodes && NodeStep(s, order, k, k', n)
    requires Fitting(s, order, TaskOf(k, n.id), n)
    ensures WritesIn(s, k.st, k'.st, n.id)
  {
    StepState(s, order, k, k', n);
    StateWrites(s, order, k.st, TaskOf(k, n.id), n);
  }

  lemma NodeIdIn(s: Setup, order: seq<NodeInstance>, n: NodeInstance, x: NodeId)
    requires Planned(s, order) && n in s.w.nodes && x !in Ids(s.w.nodes)
    ensures x !in Within(s, n.id)
  {
    if x in Within(s, n.id) { InTreeOfNode(s, n.id, x); }
  }

  /** Every step but the begin of a pass moves one node's task. */
  lemma StepMoves(s: Setup, order: seq<NodeInstance>, k: Config, k': Config, n: NodeInstance)
    requires NodeStep(s, order, k, k', n) && !BeginPass(s, order, k, k', n) && k'.status != Steps.Broken
    ensures Moves(k, k', n)
  {
  }

  lemma SameNode(s: Setup, order: seq<NodeInstance>, m: NodeInstance, n: NodeInstance)
    requires Planned(s, order) && m in s.w.nodes && n in s.w.nodes && m.id == n.id
    ensures m == n
  {
    OrderNodes(s, order, m);
    OrderNodes(s, order, n);
  }

  lemma StepFits(s: Setup, order: seq<NodeInstance>, k: Config, k': Config, n: NodeInstance)
    requires Planned(s, order) && n in s.w.nodes && NodeStep(s, order, k, k', n) && k'.status != Steps.Broken
    requires Fitting(s, order, TaskOf(k, n.id), n)
    ensures Fitting(s, order, TaskOf(k', n.id), n)
  {
    if Read(s, k, k', n) {
      OnlyLoopsEnter(s, k.st, n);
    } else if EndPass(s, order, k, k', n) {
      TotalsStayOwned(s, order, n, k.st, TaskOf(k, n.id).c.totals);
    }
  }

  lemma NothingRunsIn(s: Setup, order: seq<NodeInstance>, k: Config, n: NodeInstance, id: NodeId)
    requires Planned(s, order) && OwnerOf(s.owner, id) == Some(n.id) && Enclosed(s, k, id)
    requires !TaskOf(k, n.id).Inside? || Quiet(s, order, k, Some(n.id))
    ensures !Busy(TaskOf(k, id))
  {
    if TaskOf(k, n.id).Inside? {
      InList(s, order, Some(n.id), id);
      var m :| m in ListAt(s, order, Some(n.id)) && m.id == id;
    }
  }

  lemma StaysEnclosed(s: Setup, order: seq<NodeInstance>, k: Config, k': Config, n: NodeInstance, id: NodeId)
    requires Planned(s, order) && n in s.w.nodes && NodeStep(s, order, k, k', n) && k'.status != Steps.Broken
    requires !BeginPass(s, order, k, k', n) && Enclosed(s, k, id) && Enclosed(s, k, n.id)
    ensures Enclosed(s, k', id)
  {
    StepMoves(s, order, k, k', n);
    OwnerIsOther(s, order, n);
    StepInside(s, order, k, k', n);
    if OwnerOf(s.owner, id) == Some(n.id) && TaskOf(k, n.id).Inside? { NothingRunsIn(s, order, k, n, id); }
    MovesKeepEnclosed(s, k, k', n, id);
  }

  /** A loop leaves its pass when the body is quiet; a node starts in a list that runs. */
  lemma StepInside(s: Setup, order: seq<NodeInstance>, k: Config, k': Config, n: NodeInstance)
    requires NodeStep(s, order, k, k', n) && k'.status != Steps.Broken
    ensures TaskOf(k, n.id).Inside? ==> Quiet(s, order, k, Some(n.id))
    ensures TaskOf(k, n.id).Idle? ==> Active(k, OwnerOf(s.owner, n.id))
    ensures !TaskOf(k, n.id).Finished?
  {
  }

  /** The begin of a pass puts the body's nodes back, and leaves the others where they are. */
  lemma PassTasks(s: Setup, order: seq<NodeInstance>, k: Config, k': Config, n: NodeInstance, id: NodeId)
    requires BeginPass(s, order, k, k', n)
    ensures id == n.id ==> TaskOf(k', id).Inside?
    ensures id != n.id && id in Ids(OwnedNodes(s, order, n)) ==> TaskOf(k', id).Idle?
    ensures id != n.id && id !in Ids(OwnedNodes(s, order, n)) ==> TaskOf(k', id) == TaskOf(k, id)
  {
  }

  lemma OwnedIds(s: Setup, order: seq<NodeInstance>, n: NodeInstance, id: NodeId)
    requires Planned(s, order) && n in s.w.nodes
    ensures id in Ids(OwnedNodes(s, order, n)) <==> id in Ids(s.w.nodes) && OwnerOf(s.owner, id) == Some(n.id)
  {
    if id in Ids(OwnedNodes(s, order, n)) {
      var m :| m in OwnedNodes(s, order, n) && m.id == id;
      Listing(s, order, Some(n.id), m);
    } else if id in Ids(s.w.nodes) && OwnerOf(s.owner, id) == Some(n.id) {
      InList(s, order, Some(n.id), id);
    }
  }

  lemma OwnerIsNode(s: Setup, order: seq<NodeInstance>, id: NodeId)
    requires Planned(s, order) && id in s.owner
    ensures s.owner[id] in Ids(s.w.nodes)
  {
    OwnerIsLarger(s, order, id);
  }

  lemma ResetKeepsEnclosed(s: Setup, k: Config, k': Config, n: NodeInstance, id: NodeId, up: NodeId)
    requires TaskOf(k, n.id).Between? && TaskOf(k', n.id).Inside? && OwnerOf(s.owner, id) == Some(up)
    requires Enclosed(s, k, id) && Enclosed(s, k, up) && (Busy(TaskOf(k', id)) && id != n.id ==> Busy(TaskOf(k, id)))
    requires up != n.id && OwnerOf(s.owner, up) != Some(n.id) ==> TaskOf(k', up) == TaskOf(k, up)
    ensures Enclosed(s, k', id)
  {
    if Busy(TaskOf(k', id)) && up != n.id { assert TaskOf(k, up).Inside?; }
  }

  /** Where a pass begins, nothing under the body's nodes runs. */
  lemma PassEnclosed(s: Setup, order: seq<NodeInstance>, k: Config, k': Config, n: NodeInstance, id: NodeId)
    requires Planned(s, order) && n in s.w.nodes && BeginPass(s, order, k, k', n) && Enclosed(s, k, id)
    requires id in s.owner ==> Enclosed(s, k, s.owner[id])
    ensures Enclosed(s, k', id)
  {
    if id in s.owner {
      var up := s.owner[id];
      PassTasks(s, order, k, k', n, n.id);
      PassTasks(s, order, k, k', n, id);
      PassTasks(s, order, k, k', n, up);
      OwnerIsNode(s, order, id);
      OwnedIds(s, order, n, up);
      ResetKeepsEnclosed(s, k, k', n, id, up);
    }
  }

  lemma PassSupplied(s: Setup, order: seq<NodeInstance>, k: Config, k': Config, n: NodeInstance, m: NodeInstance)
    requires Planned(s, order) && n in s.w.nodes && m in s.w.nodes && BeginPass(s, order, k, k', n)
    requires Supplied(s, k, m)
    ensures Supplied(s, k', m)
  {
    PassTasks(s, order, k, k', n, m.id);
    OwnedIds(s, order, n, m.id);
    OwnerIsOther(s, order, n);
    if !TaskOf(k', m.id).Idle? {
      forall c | c in s.Links() && c.toNode == m.id && c.fromNode != m.id
        && OwnerOf(s.owner, c.fromNode) == OwnerOf(s.owner, m.id)
        ensures TaskOf(k', c.fromNode).Finished?
      {
        PassTasks(s, order, k, k', n, c.fromNode);
        OwnedIds(s, order, n, c.fromNode);
        assert TaskOf(k, c.fromNode).Finished?;
      }
    }
  }

  lemma StaysSupplied(s: Setup, order: seq<NodeInstance>, k: Config, k': Config, n: NodeInstance, m: NodeInstance)
    requires Planned(s, order) && n in s.w.nodes && m in s.w.nodes && NodeStep(s, order, k, k', n)
    requires k'.status != Steps.Broken && Supplied(s, k, m) && Supplied(s, k, n)
    ensures Supplied(s, k', m)
  {
    if BeginPass(s, order, k, k', n) {
      PassSupplied(s, order, k, k', n, m);
    } else {
      StepMoves(s, order, k, k', n);
      MovesKeepSupplied(s, k, k', n, m);
    }
  }

  lemma StaysFitting(s: Setup, order: seq<NodeInstance>, k: Config, k': Config, n: NodeInstance, m: NodeInstance)
    requires Planned(s, order) && n in s.w.nodes && m in s.w.nodes && NodeStep(s, order, k, k', n)
    requires k'.status != Steps.Broken && Fitting(s, order, TaskOf(k, n.id), n) && Fitting(s, order, TaskOf(k, m.id), m)
    ensures Fitting(s, order, TaskOf(k', m.id), m)
  {
    if m.id == n.id {
      SameNode(s, order, m, n);
      StepFits(s, order, k, k', n);
    } else if !BeginPass(s, order, k, k', n) {
      StepMoves(s, order, k, k', n);
    }
  }

  /** Every step that does not end the run in failure keeps all of this. */
  lemma SaneStep(s: Setup, order: seq<NodeInstance>, k: Config, k': Config, n: NodeInstance)
    requires Planned(s, order) && Sane(s, order, k) && n in s.w.nodes && NodeStep(s, order, k, k', n)
    requires k'.status != Steps.Broken
    ensures Sane(s, order, k')
  {
    forall id ensures Enclosed(s, k', id) {
      if BeginPass(s, order, k, k', n) {
        assert id in s.owner ==> Enclosed(s, k, s.owner[id]);
        PassEnclosed(s, order, k, k', n, id);
      } else {
        StaysEnclosed(s, order, k, k', n, id);
      }
    }
    forall m | m in s.w.nodes ensures Supplied(s, k', m) { StaysSupplied(s, order, k, k', n, m); }
    forall m | m in s.w.nodes ensures Fitting(s, order, TaskOf(k', m.id), m) { StaysFitting(s, order, k, k', n, m); }
    StepWrites(s, order, k, k', n);
    forall id | id !in Ids(s.w.nodes) ensures SameEntries(NOTHING, k'.st, id) { NodeIdIn(s, order, n, id); }
  }

  // ---- A list that is quiet is through --------------------------------------------------------------------------

  ghost predicate FinishedUpTo(k: Config, list: seq<NodeInstance>, i: nat)
    requires i <= |list|
  {
    forall j :: 0 <= j < i ==> TaskOf(k, list[j].id).Finished?
  }

  lemma {:induction false} FeedersFinished(s: Setup, order: seq<NodeInstance>, k: Config, at: Option<NodeId>, i: nat)
    requires Planned(s, order) && IsPlace(s, at) && i < |ListAt(s, order, at)|
    requires FinishedUpTo(k, ListAt(s, order, at), i)
    ensures FeedersDone(s, k, ListAt(s, order, at)[i].id)
  {
    var n := ListAt(s, order, at)[i];
    Listing(s, order, at, n);
    forall c | c in s.Links() && c.toNode == n.id && c.fromNode != n.id && OwnerOf(s.owner, c.fromNode) == at
      ensures TaskOf(k, c.fromNode).Finished?
    {
      var j := FeederListed(s, order, at, c, i);
    }
  }

  lemma {:induction false} QuietAt(s: Setup, order: seq<NodeInstance>, k: Config, at: Option<NodeId>, i: nat)
    requires Quiet(s, order, k, at) && i < |ListAt(s, order, at)| && FeedersDone(s, k, ListAt(s, order, at)[i].id)
    ensures TaskOf(k, ListAt(s, order, at)[i].id).Finished?
  {
    assert ListAt(s, order, at)[i] in ListAt(s, order, at);
  }

  ghost predicate FinishesNext(k: Config, list: seq<NodeInstance>, i: nat)
    requires i < |list|
  {
    FinishedUpTo(k, list, i) ==> TaskOf(k, list[i].id).Finished?
  }

  lemma {:induction false} FinishedAll(k: Config, list: seq<NodeInstance>, i: nat)
    requires i <= |list| && forall j :: 0 <= j < i ==> FinishesNext(k, list, j)
    ensures FinishedUpTo(k, list, i)
  {
    if i > 0 {
      FinishedAll(k, list, i - 1);
      assert FinishesNext(k, list, i - 1);
    }
  }

  /** When nothing of a list runs and nothing can start, all its nodes have finished. */
  lemma QuietIsThrough(s: Setup, order: seq<NodeInstance>, k: Config, at: Option<NodeId>)
    requires Planned(s, order) && IsPlace(s, at) && Quiet(s, order, k, at)
    ensures FinishedUpTo(k, ListAt(s, order, at), |ListAt(s, order, at)|)
  {
    var list := ListAt(s, order, at);
    forall i | 0 <= i < |list| ensures FinishesNext(k, list, i) {
      if FinishedUpTo(k, list, i) {
        FeedersFinished(s, order, k, at, i);
        QuietAt(s, order, k, at, i);
      }
    }
    FinishedAll(k, list, |list|);
  }

  // ---- There is always a step -----------------------------------------------------------------------------------

  /** A node that runs in a list none of whose loops is stuck. */
  lemma {:induction false} BusyCanStep(s: Setup, order: seq<NodeInstance>, k: Config, n: NodeInstance)
    returns (k': Config)
    requires Planned(s, order) && Sane(s, order, k) && n in s.w.nodes && Busy(TaskOf(k, n.id))
    requires TaskOf(k, n.id).Inside? ==> Quiet(s, order, k, Some(n.id))
    ensures NodeStep(s, order, k, k', n)
  {
    assert Fitting(s, order, TaskOf(k, n.id), n);
    match TaskOf(k, n.id)
    case Begun =>
      match NodeOutcome(s, k.st, n) {
        case Fails => k' := k.(status := Steps.Broken);
        case Stores(output, errors, status, reused) => k' := Put(k, n.id, Ran(Stores(output, errors, status, reused)));
        case EntersLoop(input) => k' := Put(k, n.id, Between(Circuit(input, map[], [])));
      }
      assert Read(s, k, k', n);
    case Ran(o) => k' := Put(k.(st := StoreErrors(k.st, n.id, o)), n.id, Reported(o));
    case Reported(o) => k' := Put(k.(st := StoreOutput(k.st, n.id, o)), n.id, Finished);
    case Between(c) =>
      if c.queue == [] {
        k' := Put(k.(st := AfterPasses(k.st, c.totals, n.id, c.done)), n.id, Finished);
      } else {
        var body, batch := OwnedNodes(s, order, n), NextBatch(c.queue, BatchSize(n.parameters));
        k' := Config(BeforePass(k.st, body, n.id, batch),
          (k.tasks - Ids(body))[n.id := Inside(c.(queue := c.queue[|batch|..]))], k.status);
      }
    case Inside(c) =>
      k' := Put(k, n.id, Between(Circuit(
        c.queue, AddAll(OwnedNodes(s, order, n), k.st, c.totals),
        c.done + BroughtBack(BackLinksInto(s.w.connections, s.back, n.id), k.st))));
  }

  lemma InsideIsLoop(s: Setup, order: seq<NodeInstance>, k: Config, n: NodeInstance)
    requires Sane(s, order, k) && n in s.w.nodes && TaskOf(k, n.id).Inside?
    ensures IsLoop(n)
  {
    assert Fitting(s, order, TaskOf(k, n.id), n);
  }

  lemma IdleCanStart(s: Setup, order: seq<NodeInstance>, k: Config, n: NodeInstance) returns (k': Config)
    requires TaskOf(k, n.id).Idle? && FeedersDone(s, k, n.id) && Active(k, OwnerOf(s.owner, n.id))
    ensures NodeStep(s, order, k, k', n)
  {
    k' := Put(k, n.id, Begun);
    assert Start(s, k, k', n);
  }

  /** In a list that runs and is not quiet, something can step: a node of it, or of a body inside it. */
  lemma {:induction false} ListCanStep(s: Setup, order: seq<NodeInstance>, k: Config, at: Option<NodeId>)
    returns (k': Config, n: NodeInstance)
    requires Planned(s, order) && Sane(s, order, k) && IsPlace(s, at) && Active(k, at) && !Quiet(s, order, k, at)
    ensures n in s.w.nodes && NodeStep(s, order, k, k', n)
    decreases DepthAt(s, at)
  {
    n :| n in ListAt(s, order, at) && (Busy(TaskOf(k, n.id)) || (TaskOf(k, n.id).Idle? && FeedersDone(s, k, n.id)));
    Listing(s, order, at, n);
    if TaskOf(k, n.id).Idle? {
      k' := IdleCanStart(s, order, k, n);
    } else if TaskOf(k, n.id).Inside? && !Quiet(s, order, k, Some(n.id)) {
      InsideIsLoop(s, order, k, n);
      BodySmaller(s, order, at, n);
      k', n := ListCanStep(s, order, k, Some(n.id));
    } else {
      k' := BusyCanStep(s, order, k, n);
    }
  }

  /** A run that is not over can go on. */
  lemma CanStep(s: Setup, order: seq<NodeInstance>, k: Config) returns (k': Config)
    requires Planned(s, order) && Sane(s, order, k) && k.status == Steps.Going
    ensures Next(s, order, k, k')
  {
    if Quiet(s, order, k, None) {
      k' := k.(status := Steps.Succeeded);
      assert BreakOut(s, order, k, k');
    } else {
      var n;
      k', n := ListCanStep(s, order, k, None);
    }
  }

  lemma InitialSane(s: Setup, order: seq<NodeInstance>)
    ensures Sane(s, order, INITIAL)
  {
  }

  lemma NextSane(s: Setup, order: seq<NodeInstance>, k: Config, k': Config)
    requires Planned(s, order) && Sane(s, order, k) && Next(s, order, k, k') && k'.status == Steps.Going
    ensures Sane(s, order, k')
  {
    var n :| n in s.w.nodes && NodeStep(s, order, k, k', n);
    SaneStep(s, order, k, k', n);
  }

  lemma TraceNext(s: Setup, order: seq<NodeInstance>, t: seq<Config>, i: nat)
    requires Trace(s, order, t) && i + 1 < |t|
    ensures t[i].status == Steps.Going && Next(s, order, t[i], t[i + 1])
  {
    assert StepAt(s, order, t, i);
  }

  lemma GoingBefore(s: Setup, order: seq<NodeInstance>, t: seq<Config>, i: nat)
    requires Trace(s, order, t) && i + 1 < |t|
    ensures t[i].status == Steps.Going
  {
    TraceNext(s, order, t, i);
  }

  lemma SaneOn(s: Setup, order: seq<NodeInstance>, t: seq<Config>, i: nat, j: nat)
    requires Planned(s, order) && Trace(s, order, t) && j == i + 1 < |t|
    requires Sane(s, order, t[i]) && t[j].status == Steps.Going
    ensures Sane(s, order, t[j])
  {
    TraceNext(s, order, t, i);
    NextSane(s, order, t[i], t[j]);
  }

  lemma {:induction false} TraceSane(s: Setup, order: seq<NodeInstance>, t: seq<Config>, i: nat)
    requires Planned(s, order) && Trace(s, order, t) && i < |t| && t[i].status == Steps.Going
    ensures Sane(s, order, t[i])
  {
    if i == 0 {
      InitialSane(s, order);
    } else {
      GoingBefore(s, order, t, i - 1);
      TraceSane(s, order, t, i - 1);
      SaneOn(s, order, t, i - 1, i);
    }
  }

  /** So no run gets stuck before it is over. */
  lemma RunsGoOn(s: Setup, order: seq<NodeInstance>, t: seq<Config>) returns (k': Config)
    requires Planned(s, order) && Trace(s, order, t) && t[|t| - 1].status == Steps.Going
    ensures Next(s, order, t[|t| - 1], k')
  {
    TraceSane(s, order, t, |t| - 1);
    k' := CanStep(s, order, t[|t| - 1]);
  }
}
