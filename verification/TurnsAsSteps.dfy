/** Runs of whole turns as runs of single steps (src/engine.rs): in whatever order the links allow the turns, the steps
    can happen in it. So the timing of single steps matters exactly when the order of turns does. */
module TurnsAsSteps {

  import opened Workflows
  import opened LoopLayout
  import opened NodeRuns
  import opened LoopBatches
  import opened RunLists
  import opened RunLogs
  import opened LoopTrees
  import opened RunsAgree
  import opened LoopSteps
  import opened StepsAgree
  import opened Layouts
  import opened Schedules
  import opened RaceStage
  import opened Races
  import Steps = RunGraph
  import Whole = WorkflowRun

  // ---- What steps can reach -------------------------------------------------------------------------------------

  ghost predicate Reached(s: Setup, order: seq<NodeInstance>, k: Config) {
    exists t :: Trace(s, order, t) && t[|t| - 1] == k
  }

  lemma StartReached(s: Setup, order: seq<NodeInstance>)
    ensures Reached(s, order, INITIAL)
  {
    var t := [INITIAL];
    assert Trace(s, order, t) && t[|t| - 1] == INITIAL;
  }

  lemma NextReached(s: Setup, order: seq<NodeInstance>, k: Config, k': Config)
    requires Reached(s, order, k) && Next(s, order, k, k')
    ensures Reached(s, order, k')
  {
    var t :| Trace(s, order, t) && t[|t| - 1] == k;
    var t' := t + [k'];
    forall i: nat | i + 1 < |t'| ensures StepAt(s, order, t', i) {
      if i + 1 < |t| { assert StepAt(s, order, t, i); }
    }
    assert Trace(s, order, t') && t'[|t'| - 1] == k';
  }

  lemma NodeReached(s: Setup, order: seq<NodeInstance>, k: Config, k': Config, n: NodeInstance)
    requires Reached(s, order, k) && k.status == Steps.Going && n in s.w.nodes && NodeStep(s, order, k, k', n)
    ensures Reached(s, order, k')
  {
    NextReached(s, order, k, k');
  }

  /** A run on its way, with the state `st`. */
  ghost predicate OnTheWay(s: Setup, order: seq<NodeInstance>, k: Config, st: RunState) {
    Planned(s, order) && Reached(s, order, k) && k.status == Steps.Going && k.st == st
  }

  /** Nothing has happened outside a set of nodes. */
  ghost predicate OnlyIn(k: Config, k': Config, ids: set<NodeId>) {
    forall x :: x !in ids ==> TaskOf(k', x) == TaskOf(k, x)
  }

  // ---- A plain turn ---------------------------------------------------------------------------------------------

  ghost predicate ReadyFor(s: Setup, order: seq<NodeInstance>, n: NodeInstance, t: Turn, k: Config) {
    && OnTheWay(s, order, k, t.before) && n in s.w.nodes && TurnRan(s, order, n, t)
    && Active(k, OwnerOf(s.owner, n.id)) && TaskOf(k, n.id).Idle? && FeedersDone(s, k, n.id)
  }

  lemma {:induction false} Starts(s: Setup, order: seq<NodeInstance>, n: NodeInstance, t: Turn, k: Config)
    returns (k': Config)
    requires ReadyFor(s, order, n, t, k)
    ensures OnTheWay(s, order, k', t.before) && k' == Put(k, n.id, Begun)
  {
    k' := Put(k, n.id, Begun);
    assert Start(s, k, k', n);
    NodeReached(s, order, k, k', n);
  }

  lemma {:induction false} Breaks(s: Setup, order: seq<NodeInstance>, n: NodeInstance, st: RunState, k: Config)
    returns (k': Config)
    requires OnTheWay(s, order, k, st) && n in s.w.nodes && TaskOf(k, n.id).Begun? && NodeOutcome(s, st, n).Fails?
    ensures Reached(s, order, k') && k'.status == Steps.Broken
  {
    k' := k.(status := Steps.Broken);
    assert Read(s, k, k', n);
    NodeReached(s, order, k, k', n);
  }

  lemma {:induction false} Stored(s: Setup, order: seq<NodeInstance>, n: NodeInstance, st: RunState, k: Config)
    returns (k': Config)
    requires OnTheWay(s, order, k, st) && n in s.w.nodes && TaskOf(k, n.id).Begun? && NodeOutcome(s, st, n).Stores?
    ensures OnTheWay(s, order, k', Store(st, n.id, NodeOutcome(s, st, n)))
    ensures TaskOf(k', n.id).Finished? && OnlyIn(k, k', {n.id})
  {
    var o := NodeOutcome(s, st, n);
    var k1 := Put(k, n.id, Ran(o));
    assert Read(s, k, k1, n);
    NodeReached(s, order, k, k1, n);
    var k2 := Put(k1.(st := StoreErrors(st, n.id, o)), n.id, Reported(o));
    assert Report(k1, k2, n);
    NodeReached(s, order, k1, k2, n);
    k' := Put(k2.(st := StoreOutput(k2.st, n.id, o)), n.id, Finished);
    assert Finish(k2, k', n);
    NodeReached(s, order, k2, k', n);
  }

  lemma {:induction false} Enters(s: Setup, order: seq<NodeInstance>, n: NodeInstance, st: RunState, k: Config)
    returns (k': Config)
    requires OnTheWay(s, order, k, st) && n in s.w.nodes && TaskOf(k, n.id).Begun?
    requires NodeOutcome(s, st, n).EntersLoop?
    ensures OnTheWay(s, order, k', st) && OnlyIn(k, k', {n.id})
    ensures TaskOf(k', n.id) == Between(Circuit(NodeOutcome(s, st, n).input, map[], []))
  {
    k' := Put(k, n.id, Between(Circuit(NodeOutcome(s, st, n).input, map[], [])));
    assert Read(s, k, k', n);
    NodeReached(s, order, k, k', n);
  }

  // ---- A loop's turn, and lists ---------------------------------------------------------------------------------

  /** Between two passes of a loop's turn. */
  ghost predicate AtBetween(s: Setup, order: seq<NodeInstance>, n: NodeInstance, t: Turn, k: Config, p: nat) {
    && n in s.w.nodes && IsLoop(n) && TurnRan(s, order, n, t)
    && p <= |t.passes| && OnTheWay(s, order, k, PassState(t.before, t.passes, p))
    && TaskOf(k, n.id).Between? && AtPass(s, order, n, t, TaskOf(k, n.id).c, p, p)
  }

  lemma {:induction false} EntersFirst(s: Setup, order: seq<NodeInstance>, n: NodeInstance, t: Turn, k: Config)
    requires n in s.w.nodes && TurnRan(s, order, n, t) && OnTheWay(s, order, k, t.before)
    requires NodeOutcome(s, t.before, n).EntersLoop?
    requires TaskOf(k, n.id) == Between(Circuit(NodeOutcome(s, t.before, n).input, map[], []))
    ensures AtBetween(s, order, n, t, k, 0)
  {
    OnlyLoopsEnter(s, t.before, n);
    assert t.passes[..0] == [];
  }

  /** The begin of a pass: the loop is inside, its body idle, the state the one the pass's run begins with. */
  lemma {:induction false} PassBegins(s: Setup, order: seq<NodeInstance>, n: NodeInstance, t: Turn, k: Config, p: nat)
    returns (k': Config)
    requires AtBetween(s, order, n, t, k, p) && p < |t.passes|
    ensures OnTheWay(s, order, k', PassLog(s, order, n, t.passes[p]).start) && PassRan(s, order, n, t.passes[p])
    ensures TaskOf(k', n.id).Inside? && AtPass(s, order, n, t, TaskOf(k', n.id).c, p, p + 1)
    ensures forall m :: m in OwnedNodes(s, order, n) ==> TaskOf(k', m.id).Idle?
    ensures OnlyIn(k, k', Within(s, n.id))
  {
    var c, body := TaskOf(k, n.id).c, OwnedNodes(s, order, n);
    var batch := NextBatch(c.queue, BatchSize(n.parameters));
    QueueSent(s, order, n, t, c, p);
    NextMatches(s, order, n, t, c, p);
    LoopTurnParts(s, order, n, t);
    PassIn(s, order, n, t.before, t.passes, p);
    k' := Config(BeforePass(k.st, body, n.id, batch),
      (k.tasks - Ids(body))[n.id := Inside(c.(queue := c.queue[|batch|..]))], k.status);
    assert BeginPass(s, order, k, k', n);
    NodeReached(s, order, k, k', n);
    BegunTasks(s, order, n, k, k');
  }

  lemma BegunTasks(s: Setup, order: seq<NodeInstance>, n: NodeInstance, k: Config, k': Config)
    requires Planned(s, order) && n in s.w.nodes && BeginPass(s, order, k, k', n)
    ensures forall m :: m in OwnedNodes(s, order, n) ==> TaskOf(k', m.id).Idle?
    ensures OnlyIn(k, k', Within(s, n.id))
  {
    OwnerIsOther(s, order, n);
    BodyInTree(s, order, n);
    forall m | m in OwnedNodes(s, order, n) ensures TaskOf(k', m.id).Idle? {
      Listing(s, order, Some(n.id), m);
      PassTasks(s, order, k, k', n, m.id);
    }
    forall x | x !in Within(s, n.id) ensures TaskOf(k', x) == TaskOf(k, x) { PassTasks(s, order, k, k', n, x); }
  }

  /** The end of a pass that went well. */
  lemma {:induction false} PassEnds(s: Setup, order: seq<NodeInstance>, n: NodeInstance, t: Turn, k: Config, p: nat)
    returns (k': Config)
    requires n in s.w.nodes && IsLoop(n) && TurnRan(s, order, n, t) && p < |t.passes| && t.passes[p].ok
    requires OnTheWay(s, order, k, t.passes[p].after)
    requires TaskOf(k, n.id).Inside? && AtPass(s, order, n, t, TaskOf(k, n.id).c, p, p + 1)
    requires forall m :: m in OwnedNodes(s, order, n) ==> TaskOf(k, m.id).Finished?
    ensures AtBetween(s, order, n, t, k', p + 1) && OnlyIn(k, k', {n.id})
  {
    var c := TaskOf(k, n.id).c;
    k' := Put(k, n.id, Between(Circled(s, order, k.st, n, c)));
    FinishedIsQuiet(s, order, k, Some(n.id));
    assert EndPass(s, order, k, k', n);
    NodeReached(s, order, k, k', n);
    PassCircled(s, order, k.st, n, t, c, p);
  }

  lemma FinishedIsQuiet(s: Setup, order: seq<NodeInstance>, k: Config, at: Option<NodeId>)
    requires forall m :: m in ListAt(s, order, at) ==> TaskOf(k, m.id).Finished?
    ensures Quiet(s, order, k, at)
  {
  }

  /** The end of a loop's turn. */
  lemma {:induction false} LoopEnds(s: Setup, order: seq<NodeInstance>, n: NodeInstance, t: Turn, k: Config)
    returns (k': Config)
    requires AtBetween(s, order, n, t, k, |t.passes|)
    ensures t.ok && OnTheWay(s, order, k', t.after) && TaskOf(k', n.id).Finished? && OnlyIn(k, k', {n.id})
  {
    var c := TaskOf(k, n.id).c;
    QueueSent(s, order, n, t, c, |t.passes|);
    assert t.passes[..|t.passes|] == t.passes;
    LoopTurnParts(s, order, n, t);
    LoopRanParts(s, order, n, NodeOutcome(s, t.before, n).input, t);
    k' := Put(k.(st := AfterPasses(k.st, c.totals, n.id, c.done)), n.id, Finished);
    assert EndLoop(k, k', n);
    NodeReached(s, order, k, k', n);
  }

  // ---- Whole turns, passes and lists ----------------------------------------------------------------------------

  /** After the first `j` turns of a list's run: their nodes have finished, the others are idle. */
  ghost predicate AtTurn(s: Setup, order: seq<NodeInstance>, at: Option<NodeId>, a: Log, k: Config, j: nat) {
    && IsRun(s, order, at, a) && j <= |a.turns| && OnTheWay(s, order, k, StateAt(a.start, a.turns, j)) && Active(k, at)
    && HadTurns(s, order, at, a, k, j)
  }

  ghost predicate HadTurns(s: Setup, order: seq<NodeInstance>, at: Option<NodeId>, a: Log, k: Config, j: nat)
    requires j <= |a.turns|
  {
    forall i :: 0 <= i < |ListAt(s, order, at)| ==> HadTurn(s, order, at, a, k, j, i)
  }

  ghost predicate HadTurn(s: Setup, order: seq<NodeInstance>, at: Option<NodeId>, a: Log, k: Config, j: nat, i: nat)
    requires j <= |a.turns| && i < |ListAt(s, order, at)|
  {
    TaskOf(k, ListAt(s, order, at)[i].id) == if i in RanBy(a.turns, j) then Finished else Idle
  }

  lemma {:induction false} NextReady(s: Setup, order: seq<NodeInstance>, at: Option<NodeId>, a: Log, k: Config, j: nat)
    requires AtTurn(s, order, at, a, k, j) && j < |a.turns|
    ensures a.turns[j].index < |ListAt(s, order, at)| && a.turns[j].index !in RanBy(a.turns, j)
    ensures ReadyFor(s, order, NodeAt(s, order, at, a, j), a.turns[j], k)
    ensures OwnerOf(s.owner, NodeAt(s, order, at, a, j).id) == at
  {
    TurnFacts(s, order, at, a, j);
    RanOneMore(s, order, at, a, j);
    assert HadTurn(s, order, at, a, k, j, a.turns[j].index);
    FeedersHad(s, order, at, a, k, j);
  }

  lemma {:induction false} FeedersHad(s: Setup, order: seq<NodeInstance>, at: Option<NodeId>, a: Log, k: Config, j: nat)
    requires AtTurn(s, order, at, a, k, j) && j < |a.turns| && a.turns[j].index < |ListAt(s, order, at)|
    requires Steps.Deps(s, ListAt(s, order, at), a.turns[j].index) <= RanBy(a.turns, j)
    ensures FeedersDone(s, k, NodeAt(s, order, at, a, j).id)
  {
    var n := NodeAt(s, order, at, a, j);
    TurnFacts(s, order, at, a, j);
    forall c | c in s.Links() && c.toNode == n.id && c.fromNode != n.id && OwnerOf(s.owner, c.fromNode) == at
      ensures TaskOf(k, c.fromNode).Finished?
    {
      var i := FeederListed(s, order, at, c, a.turns[j].index);
      assert HadTurn(s, order, at, a, k, j, i);
    }
  }

  lemma {:induction false} OneTurnOn(s: Setup, order: seq<NodeInstance>, at: Option<NodeId>, a: Log, k: Config,
      k': Config, j: nat)
    requires AtTurn(s, order, at, a, k, j) && j < |a.turns| && a.turns[j].index < |ListAt(s, order, at)|
    requires OnTheWay(s, order, k', a.turns[j].after) && TaskOf(k', NodeAt(s, order, at, a, j).id).Finished?
    requires OnlyIn(k, k', Within(s, NodeAt(s, order, at, a, j).id))
    ensures AtTurn(s, order, at, a, k', j + 1) && OnlyIn(k, k', Under(s, at))
  {
    TurnFacts(s, order, at, a, j);
    TreeUnder(s, order, at, NodeAt(s, order, at, a, j));
    LoopOutside(s, order, at);
    HadOneMore(s, order, at, a, k, k', j, j + 1);
  }

  lemma {:induction false} HadOneMore(s: Setup, order: seq<NodeInstance>, at: Option<NodeId>, a: Log, k: Config,
      k': Config, j: nat, next: nat)
    requires IsRun(s, order, at, a) && j < |a.turns| && a.turns[j].index < |ListAt(s, order, at)| && next == j + 1
    requires HadTurns(s, order, at, a, k, j) && TaskOf(k', NodeAt(s, order, at, a, j).id).Finished?
    requires OnlyIn(k, k', Within(s, NodeAt(s, order, at, a, j).id))
    ensures HadTurns(s, order, at, a, k', next)
  {
    forall i | 0 <= i < |ListAt(s, order, at)| ensures HadTurn(s, order, at, a, k', next, i) {
      OneMoreHad(s, order, at, a, k, k', j, i);
    }
  }

  lemma {:induction false} OneMoreHad(s: Setup, order: seq<NodeInstance>, at: Option<NodeId>, a: Log, k: Config,
      k': Config, j: nat, i: nat)
    requires IsRun(s, order, at, a) && j < |a.turns| && a.turns[j].index < |ListAt(s, order, at)|
    requires i < |ListAt(s, order, at)| && HadTurn(s, order, at, a, k, j, i)
    requires TaskOf(k', NodeAt(s, order, at, a, j).id).Finished?
    requires OnlyIn(k, k', Within(s, NodeAt(s, order, at, a, j).id))
    ensures HadTurn(s, order, at, a, k', j + 1, i)
  {
    RanOneMore(s, order, at, a, j);
    if i != a.turns[j].index { NeighbourApart(s, order, at, a.turns[j].index, i); }
  }

  lemma {:induction false} RanOneMore(s: Setup, order: seq<NodeInstance>, at: Option<NodeId>, a: Log, j: nat)
    requires IsRun(s, order, at, a) && j < |a.turns| && a.turns[j].index < |ListAt(s, order, at)|
    ensures RanBy(a.turns, j + 1) == RanBy(a.turns, j) + {a.turns[j].index} && a.turns[j].index !in RanBy(a.turns, j)
    ensures Steps.Deps(s, ListAt(s, order, at), a.turns[j].index) <= RanBy(a.turns, j)
  {
    RunParts(s, order, at, a);
    NextTurnReady(s, ListAt(s, order, at), a.turns, j);
  }

  lemma LoopOutside(s: Setup, order: seq<NodeInstance>, at: Option<NodeId>)
    ensures at.Some? ==> at.value !in Under(s, at)
  {
  }

  lemma NeighbourApart(s: Setup, order: seq<NodeInstance>, at: Option<NodeId>, i: nat, j: nat)
    requires Planned(s, order) && IsPlace(s, at) && i < |ListAt(s, order, at)| && j < |ListAt(s, order, at)| && i != j
    ensures ListAt(s, order, at)[j].id !in Within(s, ListAt(s, order, at)[i].id)
  {
    var list := ListAt(s, order, at);
    OtherIds(s, order, at, i, j);
    Listing(s, order, at, list[i]);
    Listing(s, order, at, list[j]);
    InOwnTree(s, list[j].id);
    TreesApart(s, order, list[j].id, list[i].id, list[j].id);
  }

  /** The turns of a list's run, one after another, as steps. */
  lemma {:induction false} TurnsStep(s: Setup, order: seq<NodeInstance>, at: Option<NodeId>, a: Log, k: Config, j: nat)
    returns (k': Config)
    requires AtTurn(s, order, at, a, k, j)
    ensures Reached(s, order, k')
    ensures a.ok ==> AtTurn(s, order, at, a, k', |a.turns|) && OnlyIn(k, k', Under(s, at))
    ensures !a.ok && j < |a.turns| ==> k'.status == Steps.Broken
    decreases a.turns, 1, |a.turns| - j
  {
    if j == |a.turns| {
      k' := k;
    } else {
      NextReady(s, order, at, a, k, j);
      var k1 := TurnSteps(s, order, NodeAt(s, order, at, a, j), a.turns[j], k);
      RunParts(s, order, at, a);
      if a.turns[j].ok {
        OneTurnOn(s, order, at, a, k, k1, j);
        k' := TurnsStep(s, order, at, a, k1, j + 1);
      } else {
        k' := k1;
      }
    }
  }

  lemma PutOnly(k: Config, id: NodeId, task: Task)
    ensures OnlyIn(k, Put(k, id, task), {id})
  {
  }

  lemma OnlyInTwice(k: Config, k1: Config, k2: Config, a: set<NodeId>, ids: set<NodeId>)
    requires OnlyIn(k, k1, a) && OnlyIn(k1, k2, ids) && a <= ids
    ensures OnlyIn(k, k2, ids)
  {
  }

  lemma {:induction false} BegunSteps(s: Setup, order: seq<NodeInstance>, n: NodeInstance, t: Turn, k: Config)
    returns (k': Config)
    requires OnTheWay(s, order, k, t.before) && n in s.w.nodes && TurnRan(s, order, n, t) && TaskOf(k, n.id).Begun?
    ensures Reached(s, order, k')
    ensures t.ok ==> OnTheWay(s, order, k', t.after) && TaskOf(k', n.id).Finished? && OnlyIn(k, k', Within(s, n.id))
    ensures !t.ok ==> k'.status == Steps.Broken
    decreases t, 3, 0
  {
    InOwnTree(s, n.id);
    if NodeOutcome(s, t.before, n).EntersLoop? {
      var k1 := Enters(s, order, n, t.before, k);
      EntersFirst(s, order, n, t, k1);
      k' := PassesStep(s, order, n, t, k1, 0);
      if t.ok { OnlyInTwice(k, k1, k', {n.id}, Within(s, n.id)); }
    } else {
      k' := PlainSteps(s, order, n, t, k);
    }
  }

  /** A turn, as steps. */
  lemma {:induction false} TurnSteps(s: Setup, order: seq<NodeInstance>, n: NodeInstance, t: Turn, k: Config)
    returns (k': Config)
    requires ReadyFor(s, order, n, t, k)
    ensures Reached(s, order, k')
    ensures t.ok ==> OnTheWay(s, order, k', t.after) && TaskOf(k', n.id).Finished? && OnlyIn(k, k', Within(s, n.id))
    ensures !t.ok ==> k'.status == Steps.Broken
    decreases t, 3
  {
    InOwnTree(s, n.id);
    var k1 := Starts(s, order, n, t, k);
    PutOnly(k, n.id, Begun);
    k' := BegunSteps(s, order, n, t, k1);
    if t.ok { OnlyInTwice(k, k1, k', {n.id}, Within(s, n.id)); }
  }

  lemma {:induction false} PlainSteps(s: Setup, order: seq<NodeInstance>, n: NodeInstance, t: Turn, k: Config)
    returns (k': Config)
    requires OnTheWay(s, order, k, t.before) && n in s.w.nodes && TurnRan(s, order, n, t) && TaskOf(k, n.id).Begun?
    requires !NodeOutcome(s, t.before, n).EntersLoop?
    ensures Reached(s, order, k')
    ensures t.ok ==> OnTheWay(s, order, k', t.after) && TaskOf(k', n.id).Finished? && OnlyIn(k, k', {n.id})
    ensures !t.ok ==> k'.status == Steps.Broken
  {
    if NodeOutcome(s, t.before, n).Fails? {
      k' := Breaks(s, order, n, t.before, k);
    } else {
      k' := Stored(s, order, n, t.before, k);
    }
  }

  /** The passes of a loop's turn and its end, as steps. */
  lemma {:induction false} PassesStep(s: Setup, order: seq<NodeInstance>, n: NodeInstance, t: Turn, k: Config, p: nat)
    returns (k': Config)
    requires AtBetween(s, order, n, t, k, p)
    ensures Reached(s, order, k')
    ensures t.ok ==> OnTheWay(s, order, k', t.after) && TaskOf(k', n.id).Finished? && OnlyIn(k, k', Within(s, n.id))
    ensures !t.ok ==> k'.status == Steps.Broken
    decreases t, 2, |t.passes| - p
  {
    InOwnTree(s, n.id);
    if p == |t.passes| {
      k' := LoopEnds(s, order, n, t, k);
    } else {
      PassDecides(s, order, n, t, p);
      var k1 := OnePassSteps(s, order, n, t, k, p);
      if t.passes[p].ok {
        k' := PassesStep(s, order, n, t, k1, p + 1);
      } else {
        k' := k1;
      }
    }
  }

  lemma {:induction false} OnePassSteps(s: Setup, order: seq<NodeInstance>, n: NodeInstance, t: Turn, k: Config, p: nat)
    returns (k': Config)
    requires AtBetween(s, order, n, t, k, p) && p < |t.passes|
    ensures Reached(s, order, k')
    ensures t.passes[p].ok ==> AtBetween(s, order, n, t, k', p + 1) && OnlyIn(k, k', Within(s, n.id))
    ensures !t.passes[p].ok ==> k'.status == Steps.Broken
    decreases t, 1
  {
    var k1 := PassBegins(s, order, n, t, k, p);
    k' := PassSteps(s, order, n, t.passes[p], k1);
    if t.passes[p].ok {
      InOwnTree(s, n.id);
      k' := PassEnds(s, order, n, t, k', p);
    }
  }

  lemma {:induction false} PassDecides(s: Setup, order: seq<NodeInstance>, n: NodeInstance, t: Turn, p: nat)
    requires n in s.w.nodes && IsLoop(n) && TurnRan(s, order, n, t) && p < |t.passes|
    ensures !t.passes[p].ok ==> !t.ok
  {
    LoopTurnParts(s, order, n, t);
    LoopRanParts(s, order, n, NodeOutcome(s, t.before, n).input, t);
  }

  /** The run of the body in a pass, as steps. */
  lemma {:induction false} PassSteps(s: Setup, order: seq<NodeInstance>, n: NodeInstance, p: Pass, k: Config)
    returns (k': Config)
    requires n in s.w.nodes && IsLoop(n) && PassRan(s, order, n, p)
    requires OnTheWay(s, order, k, PassLog(s, order, n, p).start)
    requires TaskOf(k, n.id).Inside? && forall m :: m in OwnedNodes(s, order, n) ==> TaskOf(k, m.id).Idle?
    ensures Reached(s, order, k')
    ensures p.ok ==> OnTheWay(s, order, k', p.after) && TaskOf(k', n.id) == TaskOf(k, n.id)
    ensures p.ok ==> OnlyIn(k, k', Within(s, n.id))
    ensures p.ok ==> forall m :: m in OwnedNodes(s, order, n) ==> TaskOf(k', m.id).Finished?
    ensures !p.ok ==> k'.status == Steps.Broken
    decreases p
  {
    var at, a := Some(n.id), PassLog(s, order, n, p);
    PassIsRun(s, order, n, p);
    ListIdle(s, order, at, a, k);
    k' := TurnsStep(s, order, at, a, k, 0);
    RunParts(s, order, at, a);
    if p.ok {
      ListFinished(s, order, at, a, k');
      LoopOutside(s, order, at);
    }
  }

  lemma {:induction false} ListIdle(s: Setup, order: seq<NodeInstance>, at: Option<NodeId>, a: Log, k: Config)
    requires IsRun(s, order, at, a) && OnTheWay(s, order, k, a.start) && Active(k, at)
    requires forall m :: m in ListAt(s, order, at) ==> TaskOf(k, m.id).Idle?
    ensures AtTurn(s, order, at, a, k, 0)
  {
    forall i | 0 <= i < |ListAt(s, order, at)| ensures HadTurn(s, order, at, a, k, 0, i) {
      assert ListAt(s, order, at)[i] in ListAt(s, order, at);
    }
  }

  lemma {:induction false} ListFinished(s: Setup, order: seq<NodeInstance>, at: Option<NodeId>, a: Log, k: Config)
    requires AtTurn(s, order, at, a, k, |a.turns|) && a.ok
    ensures forall m :: m in ListAt(s, order, at) ==> TaskOf(k, m.id).Finished?
    ensures k.st == a.end
  {
    RunEnd(s, order, at, a);
    forall m | m in ListAt(s, order, at) ensures TaskOf(k, m.id).Finished? {
      var i :| 0 <= i < |ListAt(s, order, at)| && ListAt(s, order, at)[i] == m;
      FinishedAt(s, order, at, a, k, i);
    }
  }

  lemma {:induction false} FinishedAt(s: Setup, order: seq<NodeInstance>, at: Option<NodeId>, a: Log, k: Config, i: nat)
    requires AtTurn(s, order, at, a, k, |a.turns|) && a.ok && i < |ListAt(s, order, at)|
    ensures TaskOf(k, ListAt(s, order, at)[i].id).Finished?
  {
    AllRan(s, order, at, a, i);
    assert HadTurn(s, order, at, a, k, |a.turns|, i);
  }

  lemma {:induction false} AllRan(s: Setup, order: seq<NodeInstance>, at: Option<NodeId>, a: Log, i: nat)
    requires IsRun(s, order, at, a) && a.ok && i < |ListAt(s, order, at)|
    ensures i in RanBy(a.turns, |a.turns|)
  {
    RunParts(s, order, at, a);
    AllHadTurns(ListAt(s, order, at), a.turns);
  }

  // ---- Every run of whole turns happens -------------------------------------------------------------------------

  /** Every run of whole turns, whatever the workflow, is one that the steps can take. */
  lemma {:induction false} TurnsAreSteps(s: Setup, order: seq<NodeInstance>, a: Log) returns (t: seq<Config>)
    requires IsRun(s, order, None, a) && a.start == NOTHING
    ensures Trace(s, order, t) && t[|t| - 1].status == if a.ok then Steps.Succeeded else Steps.Broken
    ensures a.ok ==> t[|t| - 1].st == a.end
  {
    StartReached(s, order);
    ListIdle(s, order, None, a, INITIAL);
    var k := TurnsStep(s, order, None, a, INITIAL, 0);
    RunParts(s, order, None, a);
    if a.ok {
      ListFinished(s, order, None, a, k);
      var k' := k.(status := Steps.Succeeded);
      assert BreakOut(s, order, k, k');
      NextReached(s, order, k, k');
      k := k';
    }
    t :| Trace(s, order, t) && t[|t| - 1] == k;
  }

  // ---- When the interleaving matters ----------------------------------------------------------------------------

  /** A result that some interleaving of single steps has. */
  ghost predicate StepsGive(s: Setup, order: seq<NodeInstance>, r: Whole.Execution) {
    exists t: seq<Config> :: EndsWith(s, order, t, r)
  }

  ghost predicate EndsWith(s: Setup, order: seq<NodeInstance>, t: seq<Config>, r: Whole.Execution) {
    Trace(s, order, t) && t[|t| - 1].status != Steps.Going && r == ResultAt(s, t[|t| - 1])
  }

  lemma TurnsGive(s: Setup, order: seq<NodeInstance>, r: Whole.Execution)
    requires Planned(s, order) && Happens(s, order, r)
    ensures StepsGive(s, order, r)
  {
    var turns, end :| Whole.RanInOrder(s, order, turns, end, r);
    Whole.ExecutionIsRun(s, order, turns, end, r);
    var t := TurnsAreSteps(s, order, Whole.LogOf(turns, end, r));
    assert EndsWith(s, order, t, r);
  }

  lemma {:induction false} StepsGiveOne(s: Setup, order: seq<NodeInstance>, r: Whole.Execution, r': Whole.Execution)
    requires Planned(s, order) && Settled(s) && StepsGive(s, order, r) && StepsGive(s, order, r')
    ensures r == r'
  {
    var t :| EndsWith(s, order, t, r);
    var t' :| EndsWith(s, order, t', r');
    var a := RunExists(s, order, {}, None, NOTHING);
    SettledStepsAgree(s, order, t, a);
    SettledStepsAgree(s, order, t', a);
  }

  /** Whatever its nodes do, all interleavings of the workflow's steps have one result. */
  ghost predicate InterleavingIrrelevant(s: Setup, order: seq<NodeInstance>) {
    forall t, order', r, r' ::
      SamePlan(s, order, t, order') && Planned(t, order') && StepsGive(t, order', r) && StepsGive(t, order', r')
      ==> r == r'
  }

  lemma SettledIsInterleavingIrrelevant(s: Setup, order: seq<NodeInstance>)
    requires Planned(s, order) && Settled(s)
    ensures InterleavingIrrelevant(s, order)
  {
    forall t, order', r, r' | SamePlan(s, order, t, order') && Planned(t, order') && StepsGive(t, order', r)
      && StepsGive(t, order', r')
      ensures r == r'
    {
      SettledSame(s, order, t, order');
      StepsGiveOne(t, order', r, r');
    }
  }

  /** The same exact condition for single steps: their interleaving never matters, whatever the nodes do, exactly when
      the workflow is settled, wherever races show. */
  lemma SettledIffInterleavingIrrelevant(s: Setup, order: seq<NodeInstance>)
    requires Planned(s, order) && RacesShow(s, order)
    ensures Settled(s) <==> InterleavingIrrelevant(s, order)
  {
    if Settled(s) {
      SettledIsInterleavingIrrelevant(s, order);
    } else {
      var x, y :| Loose(s, x, y);
      var g: Race :| Contest(s, order, g) && Untied(s, g);
      var roles := SomeRoles();
      ContestAnyRoles(s, order, g, roles);
      var t, order', r := RaceMatters(s, order, g.(roles := roles));
      TurnsGive(t, order', r);
      TurnsGive(t, order', Whole.NodeFailed);
    }
  }
}
