/** A whole run of the editor engine (src/engine.rs), loops included: `run_graph`, `run_node` and `run_loop`
    call each other until the innermost loop's body is done. Here a started node runs from start to end in
    one turn; which of the running nodes has its turn next is left open. Each method tells what happened as a log. */
module WorkflowRun {

  import opened Workflows
  import opened LoopLayout
  import opened TopologicalOrder
  import opened NodeRuns
  import opened LoopBatches
  import opened RunLists
  import opened RunLogs
  import Steps = RunGraph
  import Agree = RunsAgree
  import Trees = LoopTrees
  import opened NodeTurns
  import opened RunEnds
  import opened Sequences

  // ---- Choosing what runs next ----------------------------------------------------------------------------------

  /** When nothing runs and nothing can start, everything has finished: the first node that had not could start. */
  lemma {:induction false} NoStall(s: Setup, list: seq<NodeInstance>, finished: set<nat>, n: nat)
    requires Sorted(s.Links(), list) && n <= |list|
    requires forall i :: 0 <= i < |list| && Steps.Deps(s, list, i) <= finished ==> i in finished
    ensures forall i :: 0 <= i < n ==> i in finished
  {
    if n > 0 {
      NoStall(s, list, finished, n - 1);
      forall j | j in Steps.Deps(s, list, n - 1) ensures j in finished {
        var c :| c in s.Links() && c.fromNode == list[j].id && c.toNode == list[n - 1].id;
        assert j < n - 1;
      }
    }
  }

  ghost function UpTo(n: nat): (s: set<nat>)
    ensures forall i :: i in s <==> 0 <= i < n
  {
    if n == 0 then {} else UpTo(n - 1) + {n - 1}
  }

  /** Starts every node whose feeders have finished. */
  method Wave(s: Setup, list: seq<NodeInstance>, started: set<nat>, finished: set<nat>) returns (now: set<nat>)
    requires forall i :: i in started ==> i < |list|
    ensures forall i :: i in now <==> i in started || (0 <= i < |list| && Steps.Deps(s, list, i) <= finished)
  {
    now := started;
    for i := 0 to |list|
      invariant forall j :: j in now <==> j in started || (0 <= j < i && Steps.Deps(s, list, j) <= finished)
    {
      if i !in now && Steps.Deps(s, list, i) <= finished {
        now := now + {i};
      }
    }
  }

  // ---- The log as it grows --------------------------------------------------------------------------------------

  /** The turns so far, all good, and the nodes that have finished. */
  ghost predicate SoFar(s: Setup, order: seq<NodeInstance>, list: seq<NodeInstance>, start: RunState, turns: seq<Turn>,
      st: RunState, finished: set<nat>)
  {
    && TurnsRan(s, order, list, start, turns) && st == StateAt(start, turns, |turns|)
    && FeedersFirst(s, list, Indexes(turns)) && AllOk(turns, |turns|)
    && finished == RanBy(turns, |turns|)
  }

  lemma NoTurnsYet(s: Setup, order: seq<NodeInstance>, list: seq<NodeInstance>, start: RunState)
    ensures SoFar(s, order, list, start, [], start, {})
  {
  }

  lemma FeedersFirstStep(s: Setup, list: seq<NodeInstance>, ran: seq<nat>, i: nat)
    requires FeedersFirst(s, list, ran) && i < |list| && i !in ran
    requires forall j :: j in Steps.Deps(s, list, i) ==> j in ran
    ensures FeedersFirst(s, list, ran + [i])
  {
    var now := ran + [i];
    forall k, j | 0 <= k < |now| && now[k] < |list| && j in Steps.Deps(s, list, now[k]) ensures j in now[..k] {
      if k < |ran| {
        assert now[..k] == ran[..k];
      } else {
        assert now[..k] == ran;
      }
    }
  }

  lemma RanByAll(turns: seq<Turn>, i: nat)
    ensures i in RanBy(turns, |turns|) <==> i in Indexes(turns)
  {
    assert Indexes(turns)[..|turns|] == Indexes(turns);
  }

  lemma OneTurnMore(s: Setup, list: seq<NodeInstance>, turns: seq<Turn>, t: Turn)
    requires FeedersFirst(s, list, Indexes(turns)) && t.index < |list|
    requires t.index !in RanBy(turns, |turns|) && Steps.Deps(s, list, t.index) <= RanBy(turns, |turns|)
    ensures FeedersFirst(s, list, Indexes(turns + [t]))
    ensures RanBy(turns + [t], |turns| + 1) == RanBy(turns, |turns|) + {t.index}
  {
    var ran := Indexes(turns);
    assert ran[..|turns|] == ran;
    assert Indexes(turns + [t]) == ran + [t.index];
    assert (ran + [t.index])[..|turns| + 1] == ran + [t.index];
    FeedersFirstStep(s, list, ran, t.index);
  }

  lemma {:induction false} TurnAdded(s: Setup, order: seq<NodeInstance>, list: seq<NodeInstance>, start: RunState,
      turns: seq<Turn>, t: Turn)
    requires TurnsRan(s, order, list, start, turns) && t.before == StateAt(start, turns, |turns|)
    requires t.index < |list| && TurnRan(s, order, list[t.index], t)
    ensures TurnsRan(s, order, list, start, turns + [t])
    ensures StateAt(start, turns + [t], |turns| + 1) == t.after
  {
    var now := turns + [t];
    ChainGrows(start, turns, t);
    forall k | 0 <= k < |now| ensures now[k].index < |list| && TurnRan(s, order, list[now[k].index], now[k]) {
      if k < |turns| {
        TurnIn(s, order, list, start, turns, k);
        assert now[k] == turns[k];
      } else {
        assert now[k] == t;
      }
    }
  }

  lemma ChainGrows(start: RunState, turns: seq<Turn>, t: Turn)
    requires Chained(start, turns) && t.before == StateAt(start, turns, |turns|)
    ensures Chained(start, turns + [t]) && StateAt(start, turns + [t], |turns| + 1) == t.after
  {
    var now := turns + [t];
    forall k | 0 <= k < |now| ensures now[k].before == StateAt(start, now, k) {
      if k < |turns| {
        assert now[k] == turns[k];
      }
    }
  }

  /** A turn of a node whose feeders have finished goes on from there; if it fails the list is through. */
  lemma {:induction false} Grows(s: Setup, order: seq<NodeInstance>, list: seq<NodeInstance>, start: RunState,
      turns: seq<Turn>, t: Turn,
      finished: set<nat>)
    requires SoFar(s, order, list, start, turns, t.before, finished)
    requires t.index < |list| && t.index !in finished && Steps.Deps(s, list, t.index) <= finished
    requires TurnRan(s, order, list[t.index], t)
    ensures t.ok ==> SoFar(s, order, list, start, turns + [t], t.after, finished + {t.index})
    ensures !t.ok ==> GraphRan(s, order, list, start, turns + [t], t.after, false)
  {
    TurnAdded(s, order, list, start, turns, t);
    OneTurnMore(s, list, turns, t);
  }

  lemma {:induction false} ThroughWithAll(s: Setup, order: seq<NodeInstance>, list: seq<NodeInstance>,
      start: RunState, turns: seq<Turn>,
      st: RunState, finished: set<nat>)
    requires SoFar(s, order, list, start, turns, st, finished) && forall i :: 0 <= i < |list| ==> i in finished
    ensures GraphRan(s, order, list, start, turns, st, true)
  {
    forall i | 0 <= i < |list| ensures i in Indexes(turns) { RanByAll(turns, i); }
  }

  /** The passes so far, all good, and what they sent. */
  ghost predicate PassesSoFar(s: Setup, order: seq<NodeInstance>, lp: NodeInstance, start: RunState, passes: seq<Pass>,
      st: RunState)
  {
    && PassesRan(s, order, lp, start, passes) && st == PassState(start, passes, |passes|)
    && (passes != [] ==> Last(passes).ok)
  }

  lemma {:induction false} PassAdded(s: Setup, order: seq<NodeInstance>, lp: NodeInstance, start: RunState,
      passes: seq<Pass>, p: Pass)
    requires PassesSoFar(s, order, lp, start, passes, p.before) && PassRan(s, order, lp, p)
    ensures PassesRan(s, order, lp, start, passes + [p]) && p.after == PassState(start, passes + [p], |passes| + 1)
  {
    var now := passes + [p];
    PassChainGrows(start, passes, p);
    forall k | 0 <= k < |now| ensures PassRan(s, order, lp, now[k]) {
      if k < |passes| {
        PassIn(s, order, lp, start, passes, k);
        assert now[k] == passes[k];
      } else {
        assert now[k] == p;
      }
    }
  }

  lemma PassChainGrows(start: RunState, passes: seq<Pass>, p: Pass)
    requires PassesChained(start, passes) && p.before == PassState(start, passes, |passes|)
    requires passes != [] ==> Last(passes).ok
    ensures PassesChained(start, passes + [p])
  {
    var now := passes + [p];
    forall k | 0 <= k < |now| ensures now[k].before == PassState(start, now, k) {
      if k < |passes| {
        assert now[k] == passes[k];
      }
    }
    forall k | 0 <= k < |now| - 1 ensures now[k].ok {
      assert now[k] == passes[k];
    }
  }

  lemma NothingSent(input: seq<Item>, size: nat)
    ensures Batched([], input, input, size)
  {
    assert Sent([]) + input == input;
  }

  lemma NextBatch(passes: seq<Pass>, p: Pass, queue: seq<Item>, input: seq<Item>, size: nat, k: nat)
    requires Batched(passes, queue, input, size) && queue != [] && size > 0
    requires k == (if size <= |queue| then size else |queue|) && p.batch == queue[..k]
    ensures Batched(passes + [p], queue[k..], input, size)
  {
    NextPass([], passes, p);
    SplitQueue(Sent(passes), queue, k);
  }

  lemma SplitQueue(sent: seq<Item>, queue: seq<Item>, k: nat)
    requires k <= |queue|
    ensures (sent + queue[..k]) + queue[k..] == sent + queue
  {
    assert queue == queue[..k] + queue[k..];
  }

  lemma {:induction false} NextTotals(body: seq<NodeInstance>, passes: seq<Pass>, p: Pass)
    ensures Totals(body, passes + [p]) == AddAll(body, p.after, Totals(body, passes))
  {
    assert Front(passes + [p]) == passes && Last(passes + [p]) == p;
  }

  /** Between two passes: those made so far, what is still queued, the totals and what came back. */
  ghost predicate Looping(s: Setup, order: seq<NodeInstance>, lp: NodeInstance, start: RunState, passes: seq<Pass>,
      st: RunState, queue: seq<Item>, input: seq<Item>, totals: map<NodeId, NodeOutput>, done: seq<Item>)
  {
    && PassesSoFar(s, order, lp, start, passes, st)
    && Batched(passes, queue, input, BatchSize(lp.parameters))
    && totals == Totals(OwnedNodes(s, order, lp), passes)
    && done == Done(BackLinksInto(s.w.connections, s.back, lp.id), passes)
  }

  lemma LoopBegins(s: Setup, order: seq<NodeInstance>, lp: NodeInstance, start: RunState, input: seq<Item>)
    ensures Looping(s, order, lp, start, [], start, input, input, map[], [])
  {
    NothingSent(input, BatchSize(lp.parameters));
  }

  lemma PassBatched(lp: NodeInstance, passes: seq<Pass>, p: Pass, queue: seq<Item>, input: seq<Item>, k: nat)
    requires Batched(passes, queue, input, BatchSize(lp.parameters)) && queue != []
    requires k == Taken(lp, queue) && p.batch == queue[..k]
    ensures Batched(passes + [p], queue[k..], input, BatchSize(lp.parameters))
  {
    NextBatch(passes, p, queue, input, BatchSize(lp.parameters), k);
  }

  /** How many queued items the next batch takes. */
  function Taken(lp: NodeInstance, queue: seq<Item>): nat {
    var size := BatchSize(lp.parameters);
    if size <= |queue| then size else |queue|
  }

  lemma {:induction false} LoopGoesOn(s: Setup, order: seq<NodeInstance>, lp: NodeInstance, start: RunState,
      passes: seq<Pass>, p: Pass,
      queue: seq<Item>, input: seq<Item>, totals: map<NodeId, NodeOutput>, done: seq<Item>)
    requires Looping(s, order, lp, start, passes, p.before, queue, input, totals, done) && queue != []
    requires PassRan(s, order, lp, p) && p.ok && p.batch == queue[..Taken(lp, queue)]
    ensures var body, links := OwnedNodes(s, order, lp), BackLinksInto(s.w.connections, s.back, lp.id);
            Looping(s, order, lp, start, passes + [p], p.after, queue[Taken(lp, queue)..], input,
                    AddAll(body, p.after, totals), done + BroughtBack(links, p.after))
  {
    PassAdded(s, order, lp, start, passes, p);
    PassBatched(lp, passes, p, queue, input, Taken(lp, queue));
    NextPass(BackLinksInto(s.w.connections, s.back, lp.id), passes, p);
    NextTotals(OwnedNodes(s, order, lp), passes, p);
  }

  /** A loop's turn that breaks off in a pass. */
  lemma {:induction false} LoopBreaks(s: Setup, order: seq<NodeInstance>, lp: NodeInstance, start: RunState,
      passes: seq<Pass>, p: Pass,
      queue: seq<Item>, input: seq<Item>, totals: map<NodeId, NodeOutput>, done: seq<Item>, i: nat)
    requires Looping(s, order, lp, start, passes, p.before, queue, input, totals, done) && queue != []
    requires PassRan(s, order, lp, p) && !p.ok && p.batch == queue[..Taken(lp, queue)]
    ensures LoopRan(s, order, lp, input, Turn(i, start, p.after, passes + [p], false))
  {
    PassAdded(s, order, lp, start, passes, p);
    PassBatched(lp, passes, p, queue, input, Taken(lp, queue));
  }

  /** A loop's turn with all input used up. */
  lemma {:induction false} LoopEnds(s: Setup, order: seq<NodeInstance>, lp: NodeInstance, start: RunState,
      passes: seq<Pass>, st: RunState,
      input: seq<Item>, totals: map<NodeId, NodeOutput>, done: seq<Item>, i: nat)
    requires Looping(s, order, lp, start, passes, st, [], input, totals, done)
    ensures LoopRan(s, order, lp, input, Turn(i, start, AfterPasses(st, totals, lp.id, done), passes, true))
  {
  }

  // ---- The run --------------------------------------------------------------------------------------------------

  class Run {
    const s: Setup
    const order: seq<NodeInstance>
    var st: RunState

    constructor (s: Setup, order: seq<NodeInstance>)
      ensures this.s == s && this.order == order && st == NOTHING
    {
      this.s := s;
      this.order := order;
      st := NOTHING;
    }

    /** Node after node, each once its feeders have finished, until all have or one fails. */
    method RunGraph(list: seq<NodeInstance>, ghost scope: set<NodeId>, ghost depth: nat)
    returns (ok: bool, ghost turns: seq<Turn>)
      requires Nested(s, order) && Listed(s, list, scope, depth)
      modifies this
      ensures GraphRan(s, order, list, old(st), turns, st, ok)
      decreases depth, 2
    {
      var started: set<nat>, finished: set<nat> := {}, {};
      turns := [];
      NoTurnsYet(s, order, list, st);
      while true
        invariant forall i :: i in started ==> i < |list| && Steps.Deps(s, list, i) <= finished
        invariant finished <= started
        invariant SoFar(s, order, list, old(st), turns, st, finished)
        decreases UpTo(|list|) - finished
      {
        started := Wave(s, list, started, finished);
        var running := started - finished;
        if running == {} {
          NoStall(s, list, finished, |list|);
          ThroughWithAll(s, order, list, old(st), turns, st, finished);
          return true, turns;
        }
        var i :| i in running;
        ghost var t;
        ok, t := RunNode(list[i], i, list, scope, depth);
        Grows(s, order, list, old(st), turns, t, finished);
        turns := turns + [t];
        if !ok {
          return;
        }
        finished := finished + {i};
      }
    }

    /** One node's turn. */
    method RunNode(n: NodeInstance, ghost i: nat, ghost list: seq<NodeInstance>, ghost scope: set<NodeId>,
        ghost depth: nat)
    returns (ok: bool, ghost t: Turn)
      requires Nested(s, order) && n in s.w.nodes
      requires IsLoop(n) ==> GoodLoop(s.w, list, scope, depth, n.id)
      modifies this
      ensures t.index == i && t.before == old(st) && t.after == st && t.ok == ok
      ensures TurnRan(s, order, n, t)
      decreases depth, 1
    {
      ghost var before := st;
      var o := TakeTurn(s, st, n);
      ghost var passes := [];
      match o {
        case Fails =>
          ok := false;
        case Stores(_, _, _, _) =>
          st := Store(st, n.id, o);
          ok := true;
        case EntersLoop(input) =>
          OnlyLoopsEnter(s, st, n);
          ok, passes := RunLoop(n, input, i);
      }
      t := Turn(i, before, st, passes, ok);
    }

    /** A loop's turn: batch after batch, until the input is used up, then the totals. */
    method RunLoop(lp: NodeInstance, input: seq<Item>, ghost i: nat) returns (ok: bool, ghost passes: seq<Pass>)
      requires Nested(s, order) && lp in s.w.nodes && IsLoop(lp)
      modifies this
      ensures LoopRan(s, order, lp, input, Turn(i, old(st), st, passes, ok))
      decreases |Body(s.w, lp.id)|, 4
    {
      var body, backLinks := OwnedNodes(s, order, lp), BackLinksInto(s.w.connections, s.back, lp.id);
      var totals: map<NodeId, NodeOutput>, done: seq<Item>, queue := map[], [], input;
      passes := [];
      LoopBegins(s, order, lp, st, input);
      while queue != []
        invariant Looping(s, order, lp, old(st), passes, st, queue, input, totals, done)
        decreases |queue|
      {
        var k := Taken(lp, queue);
        ghost var p;
        ok, p := RunBody(lp, body, queue[..k]);
        if !ok {
          LoopBreaks(s, order, lp, old(st), passes, p, queue, input, totals, done, i);
          return false, passes + [p];
        }
        LoopGoesOn(s, order, lp, old(st), passes, p, queue, input, totals, done);
        passes := passes + [p];
        queue := queue[k..];
        totals := AddToTotals(body, st, totals);
        done := CollectReturns(backLinks, st, done);
      }
      LoopEnds(s, order, lp, old(st), passes, st, input, totals, done, i);
      st := AfterPasses(st, totals, lp.id, done);
      ok := true;
    }

    /** One batch through the body. */
    method RunBody(lp: NodeInstance, body: seq<NodeInstance>, batch: seq<Item>) returns (ok: bool, ghost p: Pass)
      requires Nested(s, order) && lp in s.w.nodes && IsLoop(lp) && body == OwnedNodes(s, order, lp)
      modifies this
      ensures p.batch == batch && p.before == old(st) && p.after == st && p.ok == ok
      ensures PassRan(s, order, lp, p)
      decreases |Body(s.w, lp.id)|, 3
    {
      ghost var before, turns := st, [];
      st := BeforePass(st, body, lp.id, batch);
      ok, turns := RunGraph(body, Body(s.w, lp.id), |Body(s.w, lp.id)|);
      p := Pass(batch, before, turns, st, ok);
    }
  }

  // ---- A whole execution ----------------------------------------------------------------------------------------

  datatype Execution = Unordered(error: OrderError) | NodeFailed | Outputs(items: map<NodeId, seq<Item>>)

  lemma {:induction false} NoOwners(order: seq<NodeInstance>, owner: map<NodeId, NodeId>)
    requires forall n :: n in order ==> n.id !in owner
    ensures OwnedBy(order, owner, None) == order
  {
    if order != [] {
      NoOwners(order[1..], owner);
      assert order == [order[0]] + order[1..];
    }
  }

  lemma FeederEarlier(s: Setup, order: seq<NodeInstance>, c: Connection, j: nat) returns (i: nat)
    requires Planned(s, order) && c in s.Links() && j < |order| && order[j].id == c.toNode
    ensures i < j && order[i].id == c.fromNode
  {
    ForwardLinkIff(s.w, c);
    var n :| n in s.w.nodes && n.id == c.fromNode;
    OrderNodes(s, order, n);
    i :| 0 <= i < |order| && order[i] == n;
  }

  /** Without loops every node is top-level and the whole order runs as one list. */
  lemma {:induction false} LoopFreeIsRunnable(s: Setup, order: seq<NodeInstance>)
    requires Planned(s, order) && LoopFree(s.w)
    ensures OwnedBy(order, s.owner, None) == order && Steps.Runnable(s, order)
  {
    forall n | n in order ensures n.id !in s.owner && !IsLoop(n) { OrderNodes(s, order, n); }
    NoOwners(order, s.owner);
    forall c, j | c in s.Links() && IsAt(order, j, c.toNode) ensures Preceded(order, j, c.fromNode) {
      var i := FeederEarlier(s, order, c, j);
      assert IsAt(order, i, c.fromNode);
    }
  }

  function FirstOutputs(w: Workflow, st: RunState): Execution {
    Outputs(map id | id in Ids(w.nodes) :: PortItems(OutputOf(st, id), 0))
  }

  /** The answer has exactly the workflow's nodes, each with the items on its first port, or none if it has no port. */
  ghost predicate GivesFirst(w: Workflow, end: RunState, items: map<NodeId, seq<Item>>) {
    && (forall id :: id in items <==> HasNode(w, id))
    && forall id :: id in items ==>
         items[id] == if id in end.produced && |end.produced[id]| > 0 then end.produced[id][0] else []
  }

  /** For an enabled start with a trigger that is not reused the answer has the trigger's items. */
  ghost predicate GivesTrigger(s: Setup, start: NodeInstance, end: RunState, items: map<NodeId, seq<Item>>) {
    s.trigger.Some? && !start.disabled && start.id !in end.reused ==>
      start.id in items && items[start.id] == s.trigger.value
  }

  /** For a loop that ran, what its return links brought back, pass after pass, all its input having been sent in. */
  ghost predicate GivesReturns(s: Setup, order: seq<NodeInstance>, lp: NodeInstance, turns: seq<Turn>, end: RunState,
      items: map<NodeId, seq<Item>>)
  {
    && lp.id in items
    && exists t ::
         && t in turns && PassesRan(s, order, lp, t.before, t.passes)
         && Concat(BatchesOf(t.passes)) == Received(s, end, lp.id) && items[lp.id] == AllReturned(s, t.passes, lp.id)
  }

  /** What the answer of a run that went well gives. */
  ghost predicate Answers(s: Setup, order: seq<NodeInstance>, turns: seq<Turn>, end: RunState,
      items: map<NodeId, seq<Item>>)
  {
    && GivesFirst(s.w, end, items)
    && (order != [] && s.start == Some(order[0].id) ==> GivesTrigger(s, order[0], end, items))
    && forall lp :: lp in OwnedBy(order, s.owner, None) && IsLoop(lp) && Active(s, end, lp) ==>
         GivesReturns(s, order, lp, turns, end, items)
  }

  lemma FirstGiven(w: Workflow, st: RunState)
    ensures GivesFirst(w, st, FirstOutputs(w, st).items)
  {
    forall id ensures id in FirstOutputs(w, st).items <==> HasNode(w, id) {
      if HasNode(w, id) { var n :| n in w.nodes && n.id == id; }
    }
  }

  ghost predicate RanWell(s: Setup, order: seq<NodeInstance>, a: Agree.Log) {
    Agree.IsRun(s, order, None, a) && a.ok && a.start == NOTHING
  }

  lemma {:induction false} ReturnsGiven(s: Setup, order: seq<NodeInstance>, a: Agree.Log, lp: NodeInstance,
      items: map<NodeId, seq<Item>>)
    requires RanWell(s, order, a) && GivesFirst(s.w, a.end, items)
    requires lp in OwnedBy(order, s.owner, None) && IsLoop(lp) && Active(s, a.end, lp)
    ensures GivesReturns(s, order, lp, a.turns, a.end, items)
  {
    var t := LoopsHold(s, order, None, a, lp);
    OrderNodes(s, order, lp);
    assert HasNode(s.w, lp.id);
  }

  lemma FirstOfOne(w: Workflow, end: RunState, items: map<NodeId, seq<Item>>, id: NodeId, out: seq<Item>)
    requires GivesFirst(w, end, items) && HasNode(w, id) && EndsWith(end, id, [out], [])
    ensures id in items && items[id] == out
  {
  }

  lemma {:induction false} TriggerGiven(s: Setup, order: seq<NodeInstance>, a: Agree.Log,
      items: map<NodeId, seq<Item>>)
    requires RanWell(s, order, a) && GivesFirst(s.w, a.end, items)
    requires order != [] && s.start == Some(order[0].id)
    ensures GivesTrigger(s, order[0], a.end, items)
  {
    if s.trigger.Some? && !order[0].disabled && order[0].id !in a.end.reused {
      StartHolds(s, order, a);
      OrderNodes(s, order, order[0]);
      FirstOfOne(s.w, a.end, items, order[0].id, s.trigger.value);
    }
  }

  lemma {:induction false} Answered(s: Setup, order: seq<NodeInstance>, a: Agree.Log)
    requires RanWell(s, order, a)
    ensures Answers(s, order, a.turns, a.end, FirstOutputs(s.w, a.end).items)
  {
    var items := FirstOutputs(s.w, a.end).items;
    FirstGiven(s.w, a.end);
    if order != [] && s.start == Some(order[0].id) { TriggerGiven(s, order, a, items); }
    forall lp | lp in OwnedBy(order, s.owner, None) && IsLoop(lp) && Active(s, a.end, lp)
      ensures GivesReturns(s, order, lp, a.turns, a.end, items)
    {
      ReturnsGiven(s, order, a, lp, items);
    }
  }

  lemma OrderHasNodes(w: Workflow, order: seq<NodeInstance>)
    requires IsOrder(w, order) && w.nodes != []
    ensures order != []
  {
    assert w.nodes[0] in multiset(w.nodes) && w.nodes[0] in multiset(order);
  }

  /** What a result says of a workflow that has an order: the top-level nodes ran, the log tells how, and the result is
      what they left or a failure; without loops it is that of running the nodes one by one in order. */
  ghost predicate RanInOrder(s: Setup, order: seq<NodeInstance>, turns: seq<Turn>, end: RunState, r: Execution) {
    && GraphRan(s, order, OwnedBy(order, s.owner, None), NOTHING, turns, end, r.Outputs?)
    && (r == if r.Outputs? then FirstOutputs(s.w, end) else NodeFailed)
    && (LoopFree(s.w) ==>
          var done := Steps.InOrder(s, order, |order|);
          r == if done.Completed? then FirstOutputs(s.w, done.st) else NodeFailed)
  }

  method RunOrdered(s: Setup, order: seq<NodeInstance>)
    returns (r: Execution, ghost turns: seq<Turn>, ghost end: RunState)
    requires Planned(s, order)
    ensures RanInOrder(s, order, turns, end, r)
    ensures r.Outputs? ==> Answers(s, order, turns, end, r.items)
  {
    var list := OwnedBy(order, s.owner, None);
    TopIsListed(s, order);
    PlannedIsNested(s, order);
    var run := new Run(s, order);
    var ok;
    ok, turns := run.RunGraph(list, Ids(s.w.nodes), |Ids(s.w.nodes)| + 1);
    end := run.st;
    r := if ok then FirstOutputs(s.w, run.st) else NodeFailed;
    if ok { Answered(s, order, Agree.Log(NOTHING, turns, end, true)); }
    if LoopFree(s.w) {
      LoopFreeIsRunnable(s, order);
      PlainRun(s, order, list, turns, end, ok);
    }
  }

  /** `execute_workflow_reusing`: it ends for every workflow, whatever its loops, with an error when there is no
      order, and otherwise having run in one. */
  method ExecuteWorkflow(w: Workflow, registry: map<string, NodeType>, trigger: Option<seq<Item>>,
      reuse: map<NodeId, NodeRun>)
    returns (r: Execution, ghost s: Setup, ghost order: seq<NodeInstance>, ghost turns: seq<Turn>, ghost end: RunState)
    ensures w.nodes == [] ==> r == Outputs(map[])
    ensures r.Unordered? <==> w.nodes != [] && !Orderable(w)
    ensures w.nodes != [] && Orderable(w) ==>
      && Planned(s, order) && order != [] && RanInOrder(s, order, turns, end, r)
      && s == Setup(w, s.back, s.owner, registry, Some(order[0].id), trigger, reuse)
      && (r.Outputs? ==> Answers(s, order, turns, end, r.items))
      && forall id :: id in s.owner ==> FirstOwner(w, id, s.owner[id])
  {
    order, turns, end := [], [], NOTHING;
    s := Setup(w, {}, map[], registry, None, trigger, reuse);
    if w.nodes == [] {
      r := Outputs(map[]);
      return;
    }
    var ordered := FindOrder(w);
    if ordered.Rejected? {
      r := Unordered(ordered.error);
      return;
    }
    var nodes := ordered.order;
    OrderHasNodes(w, nodes);
    var back := BackEdges(w);
    var owner := LoopOwners(w, back);
    var setup := Setup(w, back, owner, registry, Some(nodes[0].id), trigger, reuse);
    s, order := setup, nodes;
    r, turns, end := RunOrdered(setup, nodes);
  }

  /** The log of an execution that ran. */
  function LogOf(turns: seq<Turn>, end: RunState, r: Execution): Agree.Log {
    Agree.Log(NOTHING, turns, end, r.Outputs?)
  }

  lemma {:induction false} ExecutionIsRun(s: Setup, order: seq<NodeInstance>, turns: seq<Turn>, end: RunState,
      r: Execution)
    requires Planned(s, order) && RanInOrder(s, order, turns, end, r)
    ensures Agree.IsRun(s, order, None, LogOf(turns, end, r)) &&
        r == if r.Outputs? then FirstOutputs(s.w, end) else NodeFailed
  {
  }

  /** The result of an execution of a settled workflow does not depend on which ready node has its turn next. */
  lemma SettledExecutionsAgree(s: Setup, order: seq<NodeInstance>, turns: seq<Turn>, end: RunState, r: Execution,
      turns': seq<Turn>, end': RunState, r': Execution)
    requires Planned(s, order) && Trees.Settled(s) && RanInOrder(s, order, turns, end, r)
    requires RanInOrder(s, order, turns', end', r')
    ensures r == r'
  {
    ExecutionIsRun(s, order, turns, end, r);
    ExecutionIsRun(s, order, turns', end', r');
    Agree.SettledRunsAgree(s, order, LogOf(turns, end, r), LogOf(turns', end', r'));
  }
}
