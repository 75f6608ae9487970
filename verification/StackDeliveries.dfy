/** What a run of a node delivers (src/n8n/engine.rs): to every input that its outputs lead to, once for each link, and
    nothing else; and in an execution that nothing cuts short every delivery goes into a run. */
module StackDeliveries {

  import opened Sequences
  import opened Workflows
  import opened StackMachine
  import opened StackLineage
  import opened StackJoins
  import opened StackConservation
  import opened StackExecution
  import opened StackOrder

  // ---- What should be delivered ---------------------------------------------------------------------------------

  predicate IsNode(w: Flow, name: NodeId) {
    exists n :: n in w.nodes && n.name == name
  }

  /** How many links lead from the node's output to the input. */
  function LinksTo(w: Flow, name: NodeId, output: nat, to: NodeId, slot: nat): nat {
    if name in w.links && output < |w.links[name]| then multiset(w.links[name][output])[Target(to, slot)] else 0
  }

  predicate From(q: Parcel, name: NodeId, run: nat) {
    q.source.node == name && q.source.run == run
  }

  /** How often the delivery should be made by a run of the node: once for each link, if its output is not empty and the
      link's target is a node of the workflow. */
  function Due(w: Flow, name: NodeId, outputs: FlowOutput, run: nat, q: Parcel): nat {
    var o := q.source.output;
    if From(q, name, run) && o < |outputs| && q.items == outputs[o] != [] && IsNode(w, q.node)
    then LinksTo(w, name, o, q.node, q.slot)
    else 0
  }

  /** The same in order: output by output, link by link. */
  function DueInOrder(w: Flow, name: NodeId, outputs: FlowOutput, run: nat): seq<Parcel> {
    Concat(seq(|outputs|, o requires 0 <= o < |outputs| => OfOutput(w, name, outputs, run, o)))
  }

  function OfOutput(w: Flow, name: NodeId, outputs: FlowOutput, run: nat, o: nat): seq<Parcel>
    requires o < |outputs|
  {
    if outputs[o] == [] || name !in w.links || o >= |w.links[name]| then []
    else EachTarget(w, w.links[name][o], outputs[o], Source(name, o, run))
  }

  function EachTarget(w: Flow, ts: seq<Target>, items: seq<FlowItem>, src: Source): seq<Parcel> {
    Concat(seq(|ts|, j requires 0 <= j < |ts| => OneTarget(w, ts[j], items, src)))
  }

  function OneTarget(w: Flow, t: Target, items: seq<FlowItem>, src: Source): seq<Parcel> {
    if IsNode(w, t.node) then [Parcel(t.node, t.index, items, src)] else []
  }

  // ---- Counting what is sent ------------------------------------------------------------------------------------

  lemma {:induction false} NodeFound(w: Flow, name: NodeId)
    ensures Find(w.nodes, name).Some? <==> IsNode(w, name)
  {
    FindFinds(w.nodes, name);
  }

  lemma {:induction false} TargetsSent(w: Flow, ts: seq<Target>, items: seq<FlowItem>, src: Source, q: Parcel)
    ensures SentTimes(ToTargets(w, ts, items, src), q) ==
            if q.items == items && q.source == src && IsNode(w, q.node) then multiset(ts)[Target(q.node, q.slot)] else 0
  {
    if ts != [] {
      var rest := ToTargets(w, ts[1..], items, src);
      TargetsSent(w, ts[1..], items, src, q);
      NodeFound(w, ts[0].node);
      assert ts == [ts[0]] + ts[1..];
      assert multiset(ts) == multiset{ts[0]} + multiset(ts[1..]);
      var first := if IsNode(w, ts[0].node) then [Parcel(ts[0].node, ts[0].index, items, src)] else [];
      SentConcat(first, rest, q);
      OneSent(first, q);
    }
  }

  lemma {:induction false} OneSent(ps: seq<Parcel>, q: Parcel)
    requires |ps| <= 1
    ensures SentTimes(ps, q) == if ps != [] && ps[0] == q then 1 else 0
  {
    if ps != [] { assert ps[1..] == []; }
  }

  lemma {:induction false} OutputsSent(w: Flow, name: NodeId, outputs: FlowOutput, run: nat, from: nat, q: Parcel)
    requires from <= |outputs|
    ensures SentTimes(Parcels(w, name, outputs, run, from), q) ==
            if q.source.output >= from then Due(w, name, outputs, run, q) else 0
    decreases |outputs| - from
  {
    if from < |outputs| {
      OutputsSent(w, name, outputs, run, from + 1, q);
      var src := Source(name, from, run);
      var first := if outputs[from] == [] then [] else ToTargets(w, Children(w, name, from), outputs[from], src);
      if outputs[from] != [] { TargetsSent(w, Children(w, name, from), outputs[from], src, q); }
      SentConcat(first, Parcels(w, name, outputs, run, from + 1), q);
    }
  }

  // ---- And in which order ---------------------------------------------------------------------------------------

  lemma {:induction false} TargetsInOrder(w: Flow, ts: seq<Target>, items: seq<FlowItem>, src: Source)
    ensures ToTargets(w, ts, items, src) == EachTarget(w, ts, items, src)
  {
    if ts != [] {
      TargetsInOrder(w, ts[1..], items, src);
      NodeFound(w, ts[0].node);
      var parts := seq(|ts|, j requires 0 <= j < |ts| => OneTarget(w, ts[j], items, src));
      var rest := seq(|ts[1..]|, j requires 0 <= j < |ts[1..]| => OneTarget(w, ts[1..][j], items, src));
      assert parts == [parts[0]] + rest;
      ConcatCons(parts[0], rest);
    }
  }

  /** The parcels of the outputs from one on. */
  function OutputsFrom(w: Flow, name: NodeId, outputs: FlowOutput, run: nat, from: nat): seq<seq<Parcel>>
    requires from <= |outputs|
  {
    seq(|outputs| - from, i requires 0 <= i < |outputs| - from => OfOutput(w, name, outputs, run, from + i))
  }

  lemma {:induction false} ParcelsInOrder(w: Flow, name: NodeId, outputs: FlowOutput, run: nat, from: nat)
    requires from <= |outputs|
    ensures Parcels(w, name, outputs, run, from) == Concat(OutputsFrom(w, name, outputs, run, from))
    decreases |outputs| - from
  {
    if from < |outputs| {
      ParcelsInOrder(w, name, outputs, run, from + 1);
      var first, rest := OfOutput(w, name, outputs, run, from), OutputsFrom(w, name, outputs, run, from + 1);
      assert OutputsFrom(w, name, outputs, run, from) == [first] + rest;
      ConcatCons(first, rest);
      TargetsInOrder(w, Children(w, name, from), outputs[from], Source(name, from, run));
    }
  }

  // ---- Over the turns of an execution ---------------------------------------------------------------------------

  /** The turn is a run of a node that gave its outputs. */
  predicate Finishes(t: seq<Watched>, os: seq<Outcome>, n: nat)
    requires n < |os| < |t|
  {
    CanPop(t[n].m) && t[n].m.left > 0 && os[n].Finished?
  }

  /** The node that has the turn, and how many runs it had before. */
  function Runner(t: seq<Watched>, n: nat): Entry
    requires n < |t| && CanPop(t[n].m)
  {
    Popped(t[n].m)
  }

  function RunsBefore(t: seq<Watched>, n: nat): nat
    requires n < |t| && CanPop(t[n].m)
  {
    |RunsOf(t[n].m.rd, Runner(t, n).node)|
  }

  function DueIn(w: Flow, t: seq<Watched>, os: seq<Outcome>, n: nat, q: Parcel): nat
    requires n < |os| < |t| && CanPop(t[n].m)
  {
    if Finishes(t, os, n) then Due(w, Runner(t, n).node, os[n].outputs, RunsBefore(t, n), q) else 0
  }

  /** How often the delivery stands in the stack and the waiting sets. */
  ghost function Standing(m: Machine, q: Parcel): nat {
    HeldAll(m.stack, q) + HeldAll(m.waiting, q)
  }

  lemma {:induction false} SentMore(w: Flow, v1: bool, t: seq<Watched>, os: seq<Outcome>, e: Entry, rd: RunData, n: nat,
      q: Parcel)
    requires WatchedRun(w, v1, t, os, e, rd) && n < |os|
    ensures CanPop(t[n].m) && SentTimes(t[n + 1].sent, q) == SentTimes(t[n].sent, q) + DueIn(w, t, os, n, q)
  {
    WatchedStep(w, v1, t, os, e, rd, n);
    if Finishes(t, os, n) {
      var e, outputs, run := Runner(t, n), os[n].outputs, RunsBefore(t, n);
      OutputsSent(w, e.node, outputs, run, 0, q);
      SentConcat(t[n].sent, Parcels(w, e.node, outputs, run), q);
    }
  }

  /** With a run of a node each delivery comes to stand in the stack or a waiting set once for each link that its source
      names, if that output is not empty and the target exists; nothing else is delivered. */
  lemma {:induction false} DeliversExactly(w: Flow, v1: bool, t: seq<Watched>, os: seq<Outcome>, e: Entry, rd: RunData,
      n: nat, q: Parcel)
    requires WatchedRun(w, v1, t, os, e, rd) && n < |os| && n < MAX_NODE_RUNS
    ensures CanPop(t[n].m)
    ensures Standing(t[n + 1].m, q) + Held(Runner(t, n), q) == Standing(t[n].m, q) + DueIn(w, t, os, n, q)
  {
    WatchedStep(w, v1, t, os, e, rd, n);
    SentMore(w, v1, t, os, e, rd, n, q);
    DeliveriesConserved(w, v1, t, os, e, rd, n, q);
    DeliveriesConserved(w, v1, t, os, e, rd, n + 1, q);
    PopConserves(t[n].m, q);
  }

  // ---- Run data -------------------------------------------------------------------------------------------------

  /** The tasks of one node among those its sub-nodes report. */
  function TasksOf(subs: seq<(NodeId, Task)>, name: NodeId): seq<Task> {
    Concat(seq(|subs|, i requires 0 <= i < |subs| => if subs[i].0 == name then [subs[i].1] else []))
  }

  /** The task the node itself leaves: its outputs, or what the end of the execution says. */
  function OwnTask(e: Entry, o: Outcome): seq<Task> {
    match o
    case Finished(_, outputs) => [Task(e.source, Some(outputs))]
    case Ends(_, None) => []
    case Ends(_, Some(data)) => [Task(e.source, data)]
  }

  lemma {:induction false} TasksCons(sub: (NodeId, Task), subs: seq<(NodeId, Task)>, name: NodeId)
    ensures TasksOf([sub] + subs, name) == (if sub.0 == name then [sub.1] else []) + TasksOf(subs, name)
  {
    var all := [sub] + subs;
    var parts := seq(|all|, i requires 0 <= i < |all| => if all[i].0 == name then [all[i].1] else []);
    var rest := seq(|subs|, i requires 0 <= i < |subs| => if subs[i].0 == name then [subs[i].1] else []);
    assert parts == [parts[0]] + rest;
    ConcatCons(parts[0], rest);
  }

  lemma {:induction false} SubsRecorded(rd: RunData, subs: seq<(NodeId, Task)>, name: NodeId)
    ensures RunsOf(PushAll(rd, subs), name) == RunsOf(rd, name) + TasksOf(subs, name)
    decreases |subs|
  {
    if subs != [] {
      var first := if subs[0].0 == name then [subs[0].1] else [];
      SubsRecorded(PushTask(rd, subs[0].0, subs[0].1), subs[1..], name);
      assert subs == [subs[0]] + subs[1..];
      TasksCons(subs[0], subs[1..], name);
      Associates(RunsOf(rd, name), first, TasksOf(subs[1..], name));
    }
  }

  /** A turn leaves in the run data, node by node, the tasks of the sub-nodes and then the node's own, in this order and
      behind all that was there. */
  lemma {:induction false} RecordsExactly(w: Flow, v1: bool, t: seq<Watched>, os: seq<Outcome>, e: Entry, rd: RunData,
      n: nat, name: NodeId)
    requires WatchedRun(w, v1, t, os, e, rd) && n < |os| && t[n].m.left > 0
    ensures CanPop(t[n].m)
    ensures RunsOf(t[n + 1].m.rd, name) ==
            RunsOf(t[n].m.rd, name) + TasksOf(os[n].subs, name)
              + if name == Runner(t, n).node then OwnTask(Runner(t, n), os[n]) else []
  {
    WatchedStep(w, v1, t, os, e, rd, n);
    SubsRecorded(t[n].m.rd, os[n].subs, name);
  }

  // ---- Every delivery goes into a run ---------------------------------------------------------------------------

  lemma {:induction false} DataGrows(w: Flow, v1: bool, t: seq<Watched>, os: seq<Outcome>, e: Entry, rd: RunData,
      n: nat, m: nat, name: NodeId)
    requires WatchedRun(w, v1, t, os, e, rd) && n <= m <= |os|
    ensures RunsOf(t[n].m.rd, name) <= RunsOf(t[m].m.rd, name)
  {
    if n < m {
      DataGrows(w, v1, t, os, e, rd, n, m - 1, name);
      WatchedStep(w, v1, t, os, e, rd, m - 1);
      TurnGrows(w, v1, t[m - 1].m, os[m - 1]);
    }
  }

  /** The run has its number in the run data ever after, with its outputs. */
  lemma {:induction false} RunNumbered(w: Flow, v1: bool, t: seq<Watched>, os: seq<Outcome>, e: Entry, rd: RunData,
      n: nat, m: nat)
    requires WatchedRun(w, v1, t, os, e, rd) && n < m <= |os|
    ensures CanPop(t[n].m)
    ensures Finishes(t, os, n) ==>
              var runs, run := RunsOf(t[m].m.rd, Runner(t, n).node), RunsBefore(t, n);
              run < |runs| && runs[run] == Task(Runner(t, n).source, Some(os[n].outputs))
  {
    WatchedStep(w, v1, t, os, e, rd, n);
    if Finishes(t, os, n) {
      PushAllElsewhere(t[n].m.rd, os[n].subs, Runner(t, n).node);
      DataGrows(w, v1, t, os, e, rd, n + 1, m, Runner(t, n).node);
    }
  }

  /** No two turns are the same run of the same node. */
  lemma {:induction false} OtherRun(w: Flow, v1: bool, t: seq<Watched>, os: seq<Outcome>, e: Entry, rd: RunData, n: nat,
      m: nat, q: Parcel)
    requires WatchedRun(w, v1, t, os, e, rd) && n < |os| && m < |os| && n != m && CanPop(t[n].m) && CanPop(t[m].m)
    requires Finishes(t, os, n) && From(q, Runner(t, n).node, RunsBefore(t, n))
    ensures DueIn(w, t, os, m, q) == 0
  {
    if Finishes(t, os, m) && Runner(t, m).node == Runner(t, n).node {
      if n < m { RunNumbered(w, v1, t, os, e, rd, n, m); } else { RunNumbered(w, v1, t, os, e, rd, m, n); }
    }
  }

  lemma {:induction false} SentOnce(w: Flow, v1: bool, t: seq<Watched>, os: seq<Outcome>, e: Entry, rd: RunData, n: nat,
      m: nat, q: Parcel)
    requires WatchedRun(w, v1, t, os, e, rd) && n < |os| && m <= |os| && CanPop(t[n].m)
    requires Finishes(t, os, n) && From(q, Runner(t, n).node, RunsBefore(t, n))
    ensures SentTimes(t[m].sent, q) == if n < m then DueIn(w, t, os, n, q) else 0
  {
    if m > 0 {
      SentOnce(w, v1, t, os, e, rd, n, m - 1, q);
      SentNow(w, v1, t, os, e, rd, n, m - 1, q);
    } else {
      assert t[0].sent == [];
    }
  }

  lemma {:induction false} SentNow(w: Flow, v1: bool, t: seq<Watched>, os: seq<Outcome>, e: Entry, rd: RunData, n: nat,
      m: nat, q: Parcel)
    requires WatchedRun(w, v1, t, os, e, rd) && n < |os| && m < |os| && CanPop(t[n].m)
    requires Finishes(t, os, n) && From(q, Runner(t, n).node, RunsBefore(t, n))
    ensures SentTimes(t[m + 1].sent, q) == SentTimes(t[m].sent, q) + if n == m then DueIn(w, t, os, n, q) else 0
  {
    SentMore(w, v1, t, os, e, rd, m, q);
    if m != n { OtherRun(w, v1, t, os, e, rd, n, m, q); }
  }

  /** In an execution that nothing cuts short each delivery of each run goes into runs as often as links make it, and
      the run stands in the final run data with the outputs it delivered. */
  lemma EveryDeliveryRuns(w: Flow, v1: bool, work: Work, e: Entry, rd: RunData)
    returns (t: seq<Watched>, os: seq<Outcome>)
    requires SubsApart(work) && Find(w.nodes, e.node).Some?
    ensures var end := Loop(w, v1, work, Begin(e, rd));
            && WatchedRun(w, v1, t, os, e, rd) && End(t).m == end
            && (!end.over ==> forall n :: 0 <= n < |os| ==> DeliveredAll(w, t, os, e, end, n))
  {
    t, os := ExecutionConserves(w, v1, work, e, rd);
    var end := End(t).m;
    if !end.over {
      forall n | 0 <= n < |os| ensures DeliveredAll(w, t, os, e, end, n) {
        NotCutShort(w, v1, t, os, e, rd, n);
        RunNumbered(w, v1, t, os, e, rd, n, |os|);
        forall q: Parcel | From(q, Runner(t, n).node, RunsBefore(t, n))
          ensures HeldAll(end.log, q) == Due(w, Runner(t, n).node, os[n].outputs, RunsBefore(t, n), q) + Held(e, q)
        {
          SentOnce(w, v1, t, os, e, rd, n, |os|, q);
        }
      }
    }
  }

  /** All that the turn's run delivered went into runs. */
  ghost predicate DeliveredAll(w: Flow, t: seq<Watched>, os: seq<Outcome>, start: Entry, end: Machine, n: nat)
    requires n < |os| < |t|
  {
    && CanPop(t[n].m) && Finishes(t, os, n)
    && var name, run := Runner(t, n).node, RunsBefore(t, n);
       && run < |RunsOf(end.rd, name)| && RunsOf(end.rd, name)[run].data == Some(os[n].outputs)
       && forall q: Parcel :: From(q, name, run) ==>
            HeldAll(end.log, q) == Due(w, name, os[n].outputs, run, q) + Held(start, q)
  }

  /** In an execution that nothing cuts short every turn is a run that gives its outputs. */
  lemma {:induction false} NotCutShort(w: Flow, v1: bool, t: seq<Watched>, os: seq<Outcome>, e: Entry, rd: RunData,
      n: nat)
    requires WatchedRun(w, v1, t, os, e, rd) && n < |os| && !End(t).m.over
    ensures CanPop(t[n].m) && Finishes(t, os, n)
    decreases |os| - n
  {
    WatchedStep(w, v1, t, os, e, rd, n);
    if n + 1 < |os| { NotCutShort(w, v1, t, os, e, rd, n + 1); }
  }

  // ---- Where they stand -----------------------------------------------------------------------------------------

  /** Entries that hold the deliveries, one each. */
  ghost predicate Holding(es: seq<Entry>, ps: seq<Parcel>) {
    && |es| == |ps|
    && forall i :: 0 <= i < |es| ==> es[i] == Entry(ps[i].node, [Some(ps[i].items)], [Some(ps[i].source)])
  }

  lemma {:induction false} SentInOrder(w: Flow, v1: bool, t: seq<Watched>, os: seq<Outcome>, e: Entry, rd: RunData,
      n: nat)
    requires WatchedRun(w, v1, t, os, e, rd) && n < |os| && CanPop(t[n].m) && Finishes(t, os, n)
    ensures var due := DueInOrder(w, Runner(t, n).node, os[n].outputs, RunsBefore(t, n));
            && t[n + 1].sent == t[n].sent + due
            && SentBy(w, t[n].m.rd, Runner(t, n), os[n].outputs) == due
  {
    WatchedStep(w, v1, t, os, e, rd, n);
    var name, outputs, run := Runner(t, n).node, os[n].outputs, RunsBefore(t, n);
    ParcelsInOrder(w, name, outputs, run, 0);
    assert OutputsFrom(w, name, outputs, run, 0) ==
           seq(|outputs|, o requires 0 <= o < |outputs| => OfOutput(w, name, outputs, run, o));
  }

  /** Where no node has several inputs, v0 puts the deliveries behind the stack, output by output and link by link. */
  lemma {:induction false} V0AddsInOrder(w: Flow, t: seq<Watched>, os: seq<Outcome>, e: Entry, rd: RunData, n: nat)
    returns (added: seq<Entry>)
    requires SingleInputs(w) && WatchedRun(w, false, t, os, e, rd) && n < |os| && t[n].m.stack != []
    requires CanPop(t[n].m) && Finishes(t, os, n)
    ensures t[n + 1].m.stack == t[n].m.stack[1..] + added && t[n + 1].m.waiting == t[n].m.waiting
    ensures Holding(added, DueInOrder(w, Runner(t, n).node, os[n].outputs, RunsBefore(t, n)))
  {
    WatchedStep(w, false, t, os, e, rd, n);
    SentInOrder(w, false, t, os, e, rd, n);
    var ps := SentBy(w, t[n].m.rd, Runner(t, n), os[n].outputs);
    added := Made(ps);
    DeliveredAtOnce(w, ps, [], t[n].m.waiting);
    MadeEach(ps);
    assert [] + Made(ps) == Made(ps);
  }

  /** And v1 puts them on top, sorted by their nodes' places, those at one place in that order. */
  lemma {:induction false} V1AddsSorted(w: Flow, t: seq<Watched>, os: seq<Outcome>, e: Entry, rd: RunData, n: nat)
    returns (added: seq<Entry>, due: seq<Entry>)
    requires SingleInputs(w) && WatchedRun(w, true, t, os, e, rd) && n < |os| && t[n].m.stack != []
    requires CanPop(t[n].m) && Finishes(t, os, n)
    ensures t[n + 1].m.stack == added + t[n].m.stack[1..] && t[n + 1].m.waiting == t[n].m.waiting
    ensures Holding(due, DueInOrder(w, Runner(t, n).node, os[n].outputs, RunsBefore(t, n)))
    ensures DownThenRight(w, added) && forall place :: AtPlace(w, added, place) == AtPlace(w, due, place)
  {
    WatchedStep(w, true, t, os, e, rd, n);
    SentInOrder(w, true, t, os, e, rd, n);
    var ps := SentBy(w, t[n].m.rd, Runner(t, n), os[n].outputs);
    due := Made(ps);
    added := SortEntries(w, due);
    DeliveredAtOnce(w, ps, [], t[n].m.waiting);
    MadeEach(ps);
    assert [] + Made(ps) == Made(ps);
    ChildrenSortedStably(w, due, (0.0, 0.0));
    forall place ensures AtPlace(w, added, place) == AtPlace(w, due, place) { ChildrenSortedStably(w, due, place); }
  }
}
