/** The n8n-compatible stack machine (src/n8n/engine.rs): a stack of nodes to run, join sets that wait for the
    rest of their inputs, and run data that only grows. */
module StackMachine {

  import opened JsonValues
  import opened Workflows

  datatype FlowItem = FlowItem(json: Json, binary: Option<Json>, pairedItem: Option<Json>)

  type FlowOutput = seq<seq<FlowItem>>

  /** A node's place on the canvas, (x, y). */
  datatype Node = Node(name: NodeId, x: real, y: real)

  datatype Target = Target(node: NodeId, index: nat)

  /** For each node and each of its outputs, the inputs it leads to (src/n8n/workflow.rs). */
  datatype Flow = Flow(nodes: seq<Node>, links: map<NodeId, seq<seq<Target>>>)

  datatype Source = Source(node: NodeId, output: nat, run: nat)

  datatype Entry = Entry(node: NodeId, inputs: seq<Option<seq<FlowItem>>>, source: seq<Option<Source>>)

  /** One run of one node; no data when it stopped the workflow. */
  datatype Task = Task(source: seq<Option<Source>>, data: Option<FlowOutput>)

  type RunData = map<NodeId, seq<Task>>

  // ---- The workflow ---------------------------------------------------------------------------------------------

  function Find(nodes: seq<Node>, name: NodeId): Option<Node> {
    if nodes == [] then None
    else if nodes[0].name == name then Some(nodes[0])
    else Find(nodes[1..], name)
  }

  function OutputsOf(w: Flow, name: NodeId): seq<seq<Target>> {
    if name in w.links then w.links[name] else []
  }

  function Children(w: Flow, name: NodeId, output: nat): seq<Target> {
    var outs := OutputsOf(w, name);
    if output < |outs| then outs[output] else []
  }

  /** One more than the highest of `name`'s inputs these targets reach, 0 for none. */
  function InputsInTargets(ts: seq<Target>, name: NodeId): nat {
    if ts == [] then 0
    else Max(if ts[0].node == name then ts[0].index + 1 else 0, InputsInTargets(ts[1..], name))
  }

  function InputsInOutputs(outs: seq<seq<Target>>, name: NodeId): nat {
    if outs == [] then 0 else Max(InputsInTargets(outs[0], name), InputsInOutputs(outs[1..], name))
  }

  function InputsIn(w: Flow, nodes: seq<Node>, name: NodeId): nat {
    if nodes == [] then 0 else Max(InputsInOutputs(OutputsOf(w, nodes[0].name), name), InputsIn(w, nodes[1..], name))
  }

  function ConnectedInputs(w: Flow, name: NodeId): nat {
    InputsIn(w, w.nodes, name)
  }

  lemma {:induction false} TargetCounted(ts: seq<Target>, t: Target)
    requires t in ts
    ensures t.index < InputsInTargets(ts, t.node)
  {
    if ts[0] != t {
      TargetCounted(ts[1..], t);
    }
  }

  lemma {:induction false} OutputCounted(outs: seq<seq<Target>>, i: nat, t: Target)
    requires i < |outs| && t in outs[i]
    ensures t.index < InputsInOutputs(outs, t.node)
  {
    if i == 0 {
      TargetCounted(outs[0], t);
    } else {
      assert outs[1..][i - 1] == outs[i];
      OutputCounted(outs[1..], i - 1, t);
    }
  }

  lemma {:induction false} NodeCounted(w: Flow, nodes: seq<Node>, n: Node, output: nat, t: Target)
    requires n in nodes && t in Children(w, n.name, output)
    ensures t.index < InputsIn(w, nodes, t.node)
  {
    if nodes[0] == n {
      OutputCounted(OutputsOf(w, n.name), output, t);
    } else {
      NodeCounted(w, nodes[1..], n, output, t);
    }
  }

  lemma {:induction false} FindFinds(nodes: seq<Node>, name: NodeId)
    ensures Find(nodes, name).Some? <==> exists n :: n in nodes && n.name == name
    ensures Find(nodes, name).Some? ==> Find(nodes, name).value in nodes && Find(nodes, name).value.name == name
  {
    if nodes != [] && nodes[0].name != name {
      FindFinds(nodes[1..], name);
      assert nodes == [nodes[0]] + nodes[1..];
    }
  }

  /** A link always enters one of its target's connected inputs. */
  lemma {:induction false} TargetIndexConnected(w: Flow, name: NodeId, output: nat, t: Target)
    requires Find(w.nodes, name).Some? && t in Children(w, name, output)
    ensures t.index < ConnectedInputs(w, t.node)
  {
    FindFinds(w.nodes, name);
    NodeCounted(w, w.nodes, Find(w.nodes, name).value, output, t);
  }

  // ---- Run data -------------------------------------------------------------------------------------------------

  function RunsOf(rd: RunData, name: NodeId): seq<Task> {
    if name in rd then rd[name] else []
  }

  function PushTask(rd: RunData, name: NodeId, task: Task): RunData {
    rd[name := RunsOf(rd, name) + [task]]
  }

  function PushAll(rd: RunData, subs: seq<(NodeId, Task)>): RunData
    decreases |subs|
  {
    if subs == [] then rd else PushAll(PushTask(rd, subs[0].0, subs[0].1), subs[1..])
  }

  /** What a source names (`last_or_run_output`). */
  function OutputAt(rd: RunData, src: Source): seq<FlowItem> {
    var runs := RunsOf(rd, src.node);
    if src.run < |runs| && runs[src.run].data.Some? && src.output < |runs[src.run].data.value|
    then runs[src.run].data.value[src.output] else []
  }

  // ---- Scheduling -----------------------------------------------------------------------------------------------

  /** Items on their way to one input of a node. */
  datatype Parcel = Parcel(node: NodeId, slot: nat, items: seq<FlowItem>, source: Source)

  function ToTargets(w: Flow, ts: seq<Target>, items: seq<FlowItem>, src: Source): seq<Parcel> {
    if ts == [] then []
    else (if Find(w.nodes, ts[0].node).Some? then [Parcel(ts[0].node, ts[0].index, items, src)] else [])
         + ToTargets(w, ts[1..], items, src)
  }

  /** Everything one run sends, output by output, link by link; empty outputs send nothing. */
  function Parcels(w: Flow, name: NodeId, outputs: FlowOutput, run: nat, from: nat := 0): seq<Parcel>
    requires from <= |outputs|
    decreases |outputs| - from
  {
    if from == |outputs| then []
    else (if outputs[from] == [] then []
          else ToTargets(w, Children(w, name, from), outputs[from], Source(name, from, run)))
         + Parcels(w, name, outputs, run, from + 1)
  }

  predicate Full(e: Entry) {
    forall k :: 0 <= k < |e.inputs| ==> e.inputs[k].Some?
  }

  predicate Misses(e: Entry, node: NodeId, slot: nat) {
    e.node == node && slot < |e.inputs| && e.inputs[slot].None?
  }

  function Blank(node: NodeId, inputs: nat): Entry {
    Entry(node, seq(inputs, _ => None), seq(inputs, _ => None))
  }

  function PutIn(e: Entry, p: Parcel): Entry {
    if p.slot < |e.inputs| && p.slot < |e.source|
    then Entry(e.node, e.inputs[p.slot := Some(p.items)], e.source[p.slot := Some(p.source)])
    else e
  }

  /** Entries ready to run, and join sets still waiting. */
  datatype Pending = Pending(ready: seq<Entry>, waiting: seq<Entry>)

  /** Fills the first set that misses this input, a new one when none does; a full set stops waiting. */
  function Fill(waiting: seq<Entry>, p: Parcel, inputs: nat): Pending {
    if waiting == [] then
      var e := PutIn(Blank(p.node, inputs), p);
      if Full(e) then Pending([e], []) else Pending([], [e])
    else if Misses(waiting[0], p.node, p.slot) then
      var e := PutIn(waiting[0], p);
      if Full(e) then Pending([e], waiting[1..]) else Pending([], [e] + waiting[1..])
    else
      var rest := Fill(waiting[1..], p, inputs);
      Pending(rest.ready, [waiting[0]] + rest.waiting)
  }

  function Deliver(w: Flow, p: Parcel, pending: Pending): Pending {
    var inputs := ConnectedInputs(w, p.node);
    if inputs <= 1 then
      Pending(pending.ready + [Entry(p.node, [Some(p.items)], [Some(p.source)])], pending.waiting)
    else
      var filled := Fill(pending.waiting, p, inputs);
      Pending(pending.ready + filled.ready, filled.waiting)
  }

  function DeliverAll(w: Flow, ps: seq<Parcel>, pending: Pending): Pending {
    if ps == [] then pending else DeliverAll(w, ps[1..], Deliver(w, ps[0], pending))
  }

  function PositionOf(w: Flow, e: Entry): (real, real) {
    match Find(w.nodes, e.node)
    case Some(n) => (n.x, n.y)
    case None => (0.0, 0.0)
  }

  /** Strictly above, or level and strictly to the left. */
  predicate Before(a: (real, real), b: (real, real)) {
    a.1 < b.1 || (a.1 == b.1 && a.0 < b.0)
  }

  function InsertEntry(w: Flow, e: Entry, s: seq<Entry>): seq<Entry> {
    if s == [] || !Before(PositionOf(w, s[0]), PositionOf(w, e)) then [e] + s
    else [s[0]] + InsertEntry(w, e, s[1..])
  }

  /** A stable sort by (y, x). */
  function SortEntries(w: Flow, s: seq<Entry>): seq<Entry> {
    if s == [] then [] else InsertEntry(w, s[0], SortEntries(w, s[1..]))
  }

  function Schedule(w: Flow, v1: bool, ps: seq<Parcel>, stack: seq<Entry>, waiting: seq<Entry>)
    : (seq<Entry>, seq<Entry>)
  {
    var pending := DeliverAll(w, ps, Pending([], waiting));
    (if v1 then SortEntries(w, pending.ready) + stack else stack + pending.ready, pending.waiting)
  }

  // ---- The loop -------------------------------------------------------------------------------------------------

  /** What running a node gives: tasks of its sub-nodes and its outputs, or an end to the execution. One that fails
      for good leaves a task without data, the node asked for as the last one a task with its data, one that waits or
      is cut off none. */
  datatype Outcome =
    | Finished(subs: seq<(NodeId, Task)>, outputs: FlowOutput)
    | Ends(subs: seq<(NodeId, Task)>, own: Option<Option<FlowOutput>>)

  /** The run data with what the node and its sub-nodes leave. */
  function Recorded(rd: RunData, e: Entry, o: Outcome): RunData {
    var withSubs := PushAll(rd, o.subs);
    match o
    case Finished(_, outputs) => PushTask(withSubs, e.node, Task(e.source, Some(outputs)))
    case Ends(_, None) => withSubs
    case Ends(_, Some(data)) => PushTask(withSubs, e.node, Task(e.source, data))
  }

  /** `left` counts down from MAX_NODE_RUNS; `log` holds the entries run so far. */
  datatype Machine = Machine(
    stack: seq<Entry>, waiting: seq<Entry>, rd: RunData, log: seq<Entry>, left: nat, over: bool)

  const MAX_NODE_RUNS := 100_000

  predicate CanPop(m: Machine) {
    !m.over && (m.stack != [] || m.waiting != [])
  }

  /** The top of the stack; when it is empty, the oldest waiting set as it is. */
  function Popped(m: Machine): Entry
    requires CanPop(m)
  {
    if m.stack != [] then m.stack[0] else m.waiting[0]
  }

  function AfterPop(m: Machine): Machine
    requires CanPop(m)
  {
    if m.stack != [] then m.(stack := m.stack[1..]) else m.(waiting := m.waiting[1..])
  }

  function SentBy(w: Flow, rd: RunData, e: Entry, outputs: FlowOutput): seq<Parcel> {
    Parcels(w, e.node, outputs, |RunsOf(rd, e.node)|)
  }

  /** One turn of the loop, the node's work giving `o`. */
  function Turn(w: Flow, v1: bool, m: Machine, o: Outcome): Machine
    requires CanPop(m)
  {
    var e, rest := Popped(m), AfterPop(m);
    if m.left == 0 then rest.(over := true)
    else
      match o
      case Ends(_, _) => rest.(rd := Recorded(m.rd, e, o), log := m.log + [e], left := m.left - 1, over := true)
      case Finished(_, outputs) =>
        var next := Schedule(w, v1, SentBy(w, m.rd, e, outputs), rest.stack, rest.waiting);
        Machine(next.0, next.1, Recorded(m.rd, e, o), m.log + [e], m.left - 1, false)
  }

  /** A node's work, from its entry and the run data so far. */
  type Work = (Entry, RunData) -> Outcome

  function Loop(w: Flow, v1: bool, work: Work, m: Machine): Machine
    decreases m.left, !m.over
  {
    if CanPop(m) then Loop(w, v1, work, Turn(w, v1, m, work(Popped(m), m.rd))) else m
  }

  /** An execution begins with one entry and, for a partial run, an earlier run's data. */
  function Begin(e: Entry, rd: RunData): Machine {
    Machine([e], [], rd, [], MAX_NODE_RUNS, false)
  }

  /** Any execution, whatever the nodes do: turn after turn, sub-nodes never bearing the running node's name. */
  ghost predicate Run(w: Flow, v1: bool, t: seq<Machine>, os: seq<Outcome>, e: Entry, rd: RunData) {
    && |t| == |os| + 1
    && t[0] == Begin(e, rd)
    && forall n :: 0 <= n < |os| ==>
         CanPop(t[n]) && OwnSubs(Popped(t[n]), os[n]) && t[n + 1] == Turn(w, v1, t[n], os[n])
  }

  ghost predicate OwnSubs(e: Entry, o: Outcome) {
    forall sub :: sub in o.subs ==> sub.0 != e.node
  }

  lemma RunStep(w: Flow, v1: bool, t: seq<Machine>, os: seq<Outcome>, e: Entry, rd: RunData, n: nat)
    requires Run(w, v1, t, os, e, rd) && n < |os|
    ensures CanPop(t[n]) && OwnSubs(Popped(t[n]), os[n]) && t[n + 1] == Turn(w, v1, t[n], os[n])
  {
  }

  // ---- As the source runs it ------------------------------------------------------------------------------------

  class Engine {
    const w: Flow
    const v1: bool
    var stack: seq<Entry>
    var waiting: seq<Entry>
    var rd: RunData

    constructor (w: Flow, v1: bool, start: Entry)
      ensures this.w == w && this.v1 == v1 && stack == [start] && waiting == [] && rd == map[]
    {
      this.w, this.v1 := w, v1;
      stack, waiting, rd := [start], [], map[];
    }

    /** Fills the set at the first place where it is missing, or a new one. */
    method Place(p: Parcel, inputs: nat) returns (ready: seq<Entry>)
      modifies this`waiting
      ensures Pending(ready, waiting) == Fill(old(waiting), p, inputs)
    {
      var i := 0;
      while i < |waiting| && !Misses(waiting[i], p.node, p.slot)
        invariant 0 <= i <= |waiting| && waiting == old(waiting)
        invariant var rest := Fill(waiting[i..], p, inputs);
                  Fill(waiting, p, inputs) == Pending(rest.ready, waiting[..i] + rest.waiting)
      {
        SkipSet(waiting, i, p, inputs);
        i := i + 1;
      }
      ready := [];
      ghost var was := waiting;
      if i == |waiting| {
        waiting := waiting + [Blank(p.node, inputs)];
      }
      var e := PutIn(waiting[i], p);
      if Full(e) {
        ready := [e];
        waiting := waiting[..i] + waiting[i + 1..];
      } else {
        waiting := waiting[i := e];
      }
      PlacedAt(was, i, p, inputs, e);
      assert i == |was| ==> (was + [Blank(p.node, inputs)])[..i] == was[..i];
      assert i == |was| ==> (was + [Blank(p.node, inputs)])[i + 1..] == [];
      assert i == |was| ==> (was + [Blank(p.node, inputs)])[i := e] == was + [e];
    }

    /** The last goes on the stack first, so the first runs next. */
    method PushSorted(sorted: seq<Entry>)
      modifies this`stack
      ensures stack == sorted + old(stack)
    {
      for k := |sorted| downto 0
        invariant stack == sorted[k..] + old(stack)
      {
        assert [sorted[k]] + (sorted[k + 1..] + old(stack)) == sorted[k..] + old(stack);
        stack := [sorted[k]] + stack;
      }
    }

    method ScheduleChildren(e: Entry, outputs: FlowOutput, run: nat)
      modifies this`stack, this`waiting
      ensures (stack, waiting) == Schedule(w, v1, Parcels(w, e.node, outputs, run), old(stack), old(waiting))
    {
      var ps := Parcels(w, e.node, outputs, run);
      var ready: seq<Entry> := [];
      ghost var before := Pending([], waiting);
      for k := 0 to |ps|
        invariant DeliverAll(w, ps, before) == DeliverAll(w, ps[k..], Pending(ready, waiting))
        invariant stack == old(stack)
      {
        var p := ps[k];
        assert ps[k..][0] == p && ps[k..][1..] == ps[k + 1..];
        var inputs := ConnectedInputs(w, p.node);
        if inputs <= 1 {
          ready := ready + [Entry(p.node, [Some(p.items)], [Some(p.source)])];
        } else {
          var filled := Place(p, inputs);
          ready := ready + filled;
        }
      }
      if v1 {
        PushSorted(SortEntries(w, ready));
      } else {
        stack := stack + ready;
      }
    }

    /** A node has run and ends the execution: what it and its sub-nodes leave is recorded. */
    method Stop(e: Entry, subs: seq<(NodeId, Task)>, own: Option<Option<FlowOutput>>)
      modifies this`rd
      ensures rd == Recorded(old(rd), e, Ends(subs, own))
    {
      rd := PushAll(rd, subs);
      if own.Some? {
        rd := PushTask(rd, e.node, Task(e.source, own.value));
      }
    }

    /** A node has run: its task and its sub-nodes' are recorded and its children scheduled. */
    method Finish(e: Entry, subs: seq<(NodeId, Task)>, outputs: FlowOutput)
      modifies this
      ensures rd == Recorded(old(rd), e, Finished(subs, outputs))
      ensures (stack, waiting) == Schedule(w, v1, SentBy(w, old(rd), e, outputs), old(stack), old(waiting))
    {
      var run := |RunsOf(rd, e.node)|;
      rd := PushTask(PushAll(rd, subs), e.node, Task(e.source, Some(outputs)));
      ScheduleChildren(e, outputs, run);
    }

    /** Runs until nothing is left, an outcome ends it or too many nodes have run. */
    method Execute(work: Work) returns (log: seq<Entry>, left: nat, over: bool)
      modifies this
      ensures Machine(stack, waiting, rd, log, left, over) ==
              Loop(w, v1, work, Machine(old(stack), old(waiting), old(rd), [], MAX_NODE_RUNS, false))
    {
      log, left, over := [], MAX_NODE_RUNS, false;
      ghost var start := Machine(stack, waiting, rd, log, left, over);
      while !over && (stack != [] || waiting != [])
        invariant Loop(w, v1, work, start) == Loop(w, v1, work, Machine(stack, waiting, rd, log, left, over))
        decreases left, !over
      {
        ghost var m := Machine(stack, waiting, rd, log, left, over);
        var e;
        if stack != [] {
          e, stack := stack[0], stack[1..];
        } else {
          e, waiting := waiting[0], waiting[1..];
        }
        if left == 0 {
          over := true;
        } else {
          match work(e, rd) {
            case Ends(subs, own) =>
              Stop(e, subs, own);
              over := true;
            case Finished(subs, outputs) =>
              Finish(e, subs, outputs);
          }
          left := left - 1;
          log := log + [e];
        }
        assert Machine(stack, waiting, rd, log, left, over) == Turn(w, v1, m, work(Popped(m), m.rd));
      }
    }
  }

  lemma {:induction false} SkipSet(waiting: seq<Entry>, i: nat, p: Parcel, inputs: nat)
    requires i < |waiting| && !Misses(waiting[i], p.node, p.slot)
    ensures var rest, less := Fill(waiting[i..], p, inputs), Fill(waiting[i + 1..], p, inputs);
            rest.ready == less.ready && waiting[..i] + rest.waiting == waiting[..i + 1] + less.waiting
  {
    assert waiting[i..][1..] == waiting[i + 1..];
  }

  lemma {:induction false} PlacedAt(waiting: seq<Entry>, i: nat, p: Parcel, inputs: nat, e: Entry)
    requires i <= |waiting| && (i < |waiting| ==> Misses(waiting[i], p.node, p.slot))
    requires e == PutIn(if i < |waiting| then waiting[i] else Blank(p.node, inputs), p)
    ensures var rest := Fill(waiting[i..], p, inputs);
            rest.ready == (if Full(e) then [e] else []) &&
            waiting[..i] + rest.waiting ==
              (if Full(e) then waiting[..i] + (if i < |waiting| then waiting[i + 1..] else [])
               else if i < |waiting| then waiting[i := e] else waiting + [e])
  {
    if i < |waiting| {
      assert waiting[i..][1..] == waiting[i + 1..];
    }
  }
}
