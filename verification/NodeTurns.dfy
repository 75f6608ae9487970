/** What a node's turn leaves (`Run::run_node`, `Run::try_reuse`, src/engine.rs), case by case, in terms of what the
    links into it carried when it had its turn. */
module NodeTurns {

  import opened JsonValues
  import opened Workflows
  import opened Sequences
  import opened LoopLayout
  import opened NodeRuns
  import opened LoopBatches
  import opened RunLists
  import opened RunLogs

  // ---- What the links carry -------------------------------------------------------------------------------------

  /** The items on a link: its source's error items, or what the source sent on the link's port. */
  function Carried(st: RunState, c: Connection): seq<Item> {
    if c.error then
      if c.fromNode in st.errorProduced then st.errorProduced[c.fromNode] else []
    else if c.fromNode in st.produced && c.fromOutput < |st.produced[c.fromNode]| then
      st.produced[c.fromNode][c.fromOutput]
    else []
  }

  /** The `i`-th connection leads into the node and not back into a loop. */
  predicate LinkInto(s: Setup, i: int, id: NodeId) {
    0 <= i < |s.w.connections| && i !in s.back && s.w.connections[i].toNode == id
  }

  ghost predicate Linked(s: Setup, id: NodeId) {
    exists i :: LinkInto(s, i, id)
  }

  /** All that the links into the node carry, in connection order. */
  function Received(s: Setup, st: RunState, id: NodeId): seq<Item> {
    Concat(seq(|s.w.connections|, i requires 0 <= i < |s.w.connections| =>
      if LinkInto(s, i, id) then Carried(st, s.w.connections[i]) else []))
  }

  /** The same for one of its inputs. */
  function ReceivedOn(s: Setup, st: RunState, id: NodeId, input: nat): seq<Item> {
    Concat(seq(|s.w.connections|, i requires 0 <= i < |s.w.connections| =>
      if LinkInto(s, i, id) && s.w.connections[i].toInput == input then Carried(st, s.w.connections[i]) else []))
  }

  /** What arrived input by input, up to the last input that a link enters. */
  ghost predicate ByInput(s: Setup, st: RunState, id: NodeId, groups: seq<seq<Item>>) {
    && (forall k :: 0 <= k < |groups| ==> groups[k] == ReceivedOn(s, st, id, k))
    && (forall i :: LinkInto(s, i, id) ==> s.w.connections[i].toInput < |groups|)
    && (groups != [] ==> exists i :: LinkInto(s, i, id) && s.w.connections[i].toInput == |groups| - 1)
  }

  lemma CarriedArrives(st: RunState, c: Connection)
    ensures Arrived(st, c) == Carried(st, c)
  {
  }

  /** The parts of the connections from one on. */
  function PartsFrom(s: Setup, st: RunState, id: NodeId, from: nat): seq<seq<Item>>
    requires from <= |s.w.connections|
  {
    seq(|s.w.connections| - from, i requires 0 <= i < |s.w.connections| - from => PartAt(s, st, id, from + i))
  }

  function PartAt(s: Setup, st: RunState, id: NodeId, i: nat): seq<Item>
    requires i < |s.w.connections|
  {
    if LinkInto(s, i, id) then Carried(st, s.w.connections[i]) else []
  }

  lemma PartsStep(s: Setup, st: RunState, id: NodeId, from: nat)
    requires from < |s.w.connections|
    ensures Concat(PartsFrom(s, st, id, from)) == PartAt(s, st, id, from) + Concat(PartsFrom(s, st, id, from + 1))
  {
    assert PartsFrom(s, st, id, from) == [PartAt(s, st, id, from)] + PartsFrom(s, st, id, from + 1);
    ConcatCons(PartAt(s, st, id, from), PartsFrom(s, st, id, from + 1));
  }

  lemma {:induction false} GatherStep(s: Setup, st: RunState, id: NodeId, from: nat)
    requires from < |s.w.connections|
    ensures Gather(LinksFrom(s, from), st, id) == PartAt(s, st, id, from) + Gather(LinksFrom(s, from + 1), st, id)
  {
    CarriedArrives(st, s.w.connections[from]);
    if from !in s.back { assert LinksFrom(s, from)[1..] == LinksFrom(s, from + 1); }
  }

  lemma {:induction false} GatherFrom(s: Setup, st: RunState, id: NodeId, from: nat)
    requires from <= |s.w.connections|
    ensures Gather(LinksFrom(s, from), st, id) == Concat(PartsFrom(s, st, id, from))
    decreases |s.w.connections| - from
  {
    if from < |s.w.connections| {
      GatherFrom(s, st, id, from + 1);
      PartsStep(s, st, id, from);
      GatherStep(s, st, id, from);
    }
  }

  function LinksFrom(s: Setup, from: nat): seq<Connection>
    requires from <= |s.w.connections|
  {
    Without(s.w.connections, s.back, from)
  }

  /** What a node gathers is what the links into it carried. */
  lemma {:induction false} GatherIsReceived(s: Setup, st: RunState, id: NodeId)
    ensures Gather(s.Links(), st, id) == Received(s, st, id)
  {
    GatherFrom(s, st, id, 0);
    assert PartsFrom(s, st, id, 0) ==
           seq(|s.w.connections|, i requires 0 <= i < |s.w.connections| =>
             if LinkInto(s, i, id) then Carried(st, s.w.connections[i]) else []);
  }

  // ---- By input -------------------------------------------------------------------------------------------------

  /** The groups of the connections before one. */
  ghost predicate ByInputSoFar(s: Setup, st: RunState, id: NodeId, groups: seq<seq<Item>>, from: nat)
    requires from <= |s.w.connections|
  {
    && (forall k :: 0 <= k < |groups| ==> groups[k] == Concat(InputParts(s, st, id, k, from)))
    && (forall i :: LinkInto(s, i, id) && i < from ==> s.w.connections[i].toInput < |groups|)
    && (groups != [] ==> exists i :: LinkInto(s, i, id) && i < from && s.w.connections[i].toInput == |groups| - 1)
  }

  function InputParts(s: Setup, st: RunState, id: NodeId, input: nat, n: nat): seq<seq<Item>>
    requires n <= |s.w.connections|
  {
    seq(n, i requires 0 <= i < n =>
      if LinkInto(s, i, id) && s.w.connections[i].toInput == input then Carried(st, s.w.connections[i]) else [])
  }

  lemma {:induction false} NoneYet(s: Setup, st: RunState, id: NodeId, input: nat, n: nat)
    requires n <= |s.w.connections|
    requires forall i :: LinkInto(s, i, id) && i < n ==> s.w.connections[i].toInput != input
    ensures Concat(InputParts(s, st, id, input, n)) == []
  {
    if n > 0 {
      NoneYet(s, st, id, input, n - 1);
      assert InputParts(s, st, id, input, n)[..n - 1] == InputParts(s, st, id, input, n - 1);
    }
  }

  lemma {:induction false} PartsMore(s: Setup, st: RunState, id: NodeId, input: nat, n: nat)
    requires n < |s.w.connections|
    ensures Concat(InputParts(s, st, id, input, n + 1)) ==
            Concat(InputParts(s, st, id, input, n))
              + (if LinkInto(s, n, id) && s.w.connections[n].toInput == input then Carried(st, s.w.connections[n])
                 else [])
  {
    assert InputParts(s, st, id, input, n + 1)[..n] == InputParts(s, st, id, input, n);
  }

  function GroupsAfter(s: Setup, st: RunState, id: NodeId, groups: seq<seq<Item>>, n: nat): seq<seq<Item>>
    requires n < |s.w.connections|
  {
    var c := s.w.connections[n];
    if LinkInto(s, n, id) then AddToGroup(groups, c.toInput, Arrived(st, c)) else groups
  }

  lemma {:induction false} GroupAfter(s: Setup, st: RunState, id: NodeId, groups: seq<seq<Item>>, n: nat, k: nat)
    requires n < |s.w.connections| && ByInputSoFar(s, st, id, groups, n) && k < |GroupsAfter(s, st, id, groups, n)|
    ensures GroupsAfter(s, st, id, groups, n)[k] == Concat(InputParts(s, st, id, k, n + 1))
  {
    PartsMore(s, st, id, k, n);
    if k >= |groups| { NoneYet(s, st, id, k, n); }
    CarriedArrives(st, s.w.connections[n]);
  }

  lemma {:induction false} LastGroup(s: Setup, st: RunState, id: NodeId, groups: seq<seq<Item>>, n: nat)
    returns (i: int)
    requires n < |s.w.connections| && ByInputSoFar(s, st, id, groups, n) && GroupsAfter(s, st, id, groups, n) != []
    ensures LinkInto(s, i, id) && i < n + 1
    ensures s.w.connections[i].toInput == |GroupsAfter(s, st, id, groups, n)| - 1
  {
    if LinkInto(s, n, id) && |GroupsAfter(s, st, id, groups, n)| == s.w.connections[n].toInput + 1 {
      i := n;
    } else {
      i :| LinkInto(s, i, id) && i < n && s.w.connections[i].toInput == |groups| - 1;
    }
  }

  lemma {:induction false} OneLinkMore(s: Setup, st: RunState, id: NodeId, groups: seq<seq<Item>>, n: nat)
    requires n < |s.w.connections| && ByInputSoFar(s, st, id, groups, n)
    ensures ByInputSoFar(s, st, id, GroupsAfter(s, st, id, groups, n), n + 1)
  {
    var next := GroupsAfter(s, st, id, groups, n);
    forall k | 0 <= k < |next| ensures next[k] == Concat(InputParts(s, st, id, k, n + 1)) {
      GroupAfter(s, st, id, groups, n, k);
    }
    if next != [] { var i := LastGroup(s, st, id, groups, n); }
  }

  lemma {:induction false} GroupsFrom(s: Setup, st: RunState, id: NodeId, groups: seq<seq<Item>>, n: nat)
    requires n <= |s.w.connections| && ByInputSoFar(s, st, id, groups, n)
    ensures ByInputSoFar(s, st, id, Groups(LinksFrom(s, n), st, id, groups), |s.w.connections|)
    decreases |s.w.connections| - n
  {
    if n < |s.w.connections| {
      OneLinkMore(s, st, id, groups, n);
      GroupsFrom(s, st, id, GroupsAfter(s, st, id, groups, n), n + 1);
      if n !in s.back { assert LinksFrom(s, n)[1..] == LinksFrom(s, n + 1); }
    }
  }

  /** And its groups are what they carried by input. */
  lemma {:induction false} GroupsByInput(s: Setup, st: RunState, id: NodeId)
    ensures ByInput(s, st, id, Groups(s.Links(), st, id))
  {
    GroupsFrom(s, st, id, [], 0);
    var groups := Groups(s.Links(), st, id);
    forall k | 0 <= k < |groups| ensures groups[k] == ReceivedOn(s, st, id, k) {
      assert InputParts(s, st, id, k, |s.w.connections|) ==
             seq(|s.w.connections|, i requires 0 <= i < |s.w.connections| =>
               if LinkInto(s, i, id) && s.w.connections[i].toInput == k then Carried(st, s.w.connections[i]) else []);
    }
  }

  lemma LinksInto(s: Setup, id: NodeId)
    ensures HasIncoming(s.Links(), id) <==> Linked(s, id)
    ensures TooManyInputs(s.Links(), id) <==> exists i :: LinkInto(s, i, id) && s.w.connections[i].toInput >= 16
  {
    if HasIncoming(s.Links(), id) {
      var c :| c in s.Links() && c.toNode == id;
      var i :| 0 <= i < |s.w.connections| && i !in s.back && s.w.connections[i] == c;
      assert LinkInto(s, i, id);
    }
    if TooManyInputs(s.Links(), id) {
      var c :| c in s.Links() && c.toNode == id && c.toInput >= MAX_INPUTS;
      var i :| 0 <= i < |s.w.connections| && i !in s.back && s.w.connections[i] == c;
      assert LinkInto(s, i, id);
    }
    forall i | LinkInto(s, i, id) ensures s.w.connections[i] in s.Links() {}
  }

  // ---- The work of an ordinary node -----------------------------------------------------------------------------

  predicate HasErrorLink(s: Setup, id: NodeId) {
    exists i :: 0 <= i < |s.w.connections| && s.w.connections[i].fromNode == id && s.w.connections[i].error
  }

  /** The item that stands for a failed call. */
  function Failure(message: string): Item {
    Item(Object([("error", String(message))]), Object([]))
  }

  /** How often the node is called: once on all items, or once for each if its type runs per item and there are more. */
  function CallCount(t: NodeType, items: seq<Item>): nat {
    if t.runsPerItem && |items| > 1 then |items| else 1
  }

  /** What the `k`-th call gives. A node that runs per item sees no groups. */
  function Call(t: NodeType, n: NodeInstance, items: seq<Item>, groups: seq<seq<Item>>, k: nat): Called
    requires k < CallCount(t, items)
  {
    var batch := if t.runsPerItem && |items| > 1 then [items[k]] else items;
    t.work(n.parameters, n.settings, batch, if t.runsPerItem then [] else groups, items)
  }

  /** A call fails the run if its parameters cannot be resolved, or if it fails and the node has no error link and does
      not continue on failure. */
  predicate Fatal(s: Setup, n: NodeInstance, c: Called) {
    c.Unresolved? || (c.Failed? && !HasErrorLink(s, n.id) && !n.settings.continueOnFail)
  }

  /** What a call puts on a port: its items there, or a failure's item on port 0 if no error link takes it. */
  function OnPort(s: Setup, n: NodeInstance, c: Called, port: nat): seq<Item> {
    if c.Produced? then (if port < |c.out| then c.out[port] else [])
    else if c.Failed? && !HasErrorLink(s, n.id) && port == 0 then [Failure(c.message)]
    else []
  }

  function OnErrors(s: Setup, n: NodeInstance, c: Called): seq<Item> {
    if c.Failed? && HasErrorLink(s, n.id) then [Failure(c.message)] else []
  }

  /** How many ports a call fills. */
  function PortsOf(s: Setup, n: NodeInstance, c: Called): nat {
    if c.Produced? then |c.out| else if c.Failed? && !HasErrorLink(s, n.id) then 1 else 0
  }

  function AllOnPort(s: Setup, n: NodeInstance, t: NodeType, items: seq<Item>, groups: seq<seq<Item>>, port: nat)
    : seq<Item>
  {
    Concat(seq(CallCount(t, items), k requires 0 <= k < CallCount(t, items) =>
      OnPort(s, n, Call(t, n, items, groups, k), port)))
  }

  function AllErrors(s: Setup, n: NodeInstance, t: NodeType, items: seq<Item>, groups: seq<seq<Item>>): seq<Item> {
    Concat(seq(CallCount(t, items), k requires 0 <= k < CallCount(t, items) =>
      OnErrors(s, n, Call(t, n, items, groups, k))))
  }

  /** The calls fill that many ports: the largest number that one of them fills. */
  ghost predicate FillPorts(s: Setup, n: NodeInstance, t: NodeType, items: seq<Item>, groups: seq<seq<Item>>,
      size: nat)
  {
    && (forall k :: 0 <= k < CallCount(t, items) ==> PortsOf(s, n, Call(t, n, items, groups, k)) <= size)
    && exists k :: 0 <= k < CallCount(t, items) && PortsOf(s, n, Call(t, n, items, groups, k)) == size
  }

  /** The node's calls one after another: on each port what they put there, call by call, and no port more. */
  ghost predicate CallsGive(s: Setup, n: NodeInstance, t: NodeType, items: seq<Item>, groups: seq<seq<Item>>,
      out: NodeOutput, errors: seq<Item>)
  {
    && (forall port :: 0 <= port < |out| ==> out[port] == AllOnPort(s, n, t, items, groups, port))
    && errors == AllErrors(s, n, t, items, groups)
    && FillPorts(s, n, t, items, groups, |out|)
  }

  ghost predicate SomeFatal(s: Setup, n: NodeInstance, t: NodeType, items: seq<Item>, groups: seq<seq<Item>>) {
    exists k :: 0 <= k < CallCount(t, items) && Fatal(s, n, Call(t, n, items, groups, k))
  }

  function Batches(t: NodeType, items: seq<Item>): seq<seq<Item>> {
    if t.runsPerItem && |items| > 1 then OneByOne(items) else [items]
  }

  function Shown(t: NodeType, groups: seq<seq<Item>>): seq<seq<Item>> {
    if t.runsPerItem then [] else groups
  }

  function AllCalls(s: Setup, n: NodeInstance, t: NodeType, items: seq<Item>, groups: seq<seq<Item>>): Option<Calls> {
    CallEach(t.work, n, Batches(t, items), Shown(t, groups), items, ErrorRoute(s.w, n.id), Calls([], [], false))
  }

  lemma CallIs(t: NodeType, n: NodeInstance, items: seq<Item>, groups: seq<seq<Item>>, k: nat)
    requires k < CallCount(t, items)
    ensures |Batches(t, items)| == CallCount(t, items)
    ensures CallOn(t.work, n, Batches(t, items)[k], Shown(t, groups), items) == Call(t, n, items, groups, k)
  {
  }

  lemma ErrorLinkIs(s: Setup, id: NodeId)
    ensures ErrorRoute(s.w, id) <==> HasErrorLink(s, id)
  {
    if ErrorRoute(s.w, id) {
      var c :| c in s.w.connections && c.fromNode == id && c.error;
      var i :| 0 <= i < |s.w.connections| && s.w.connections[i] == c;
    }
  }

  lemma OnPortIs(s: Setup, n: NodeInstance, c: Called, port: nat)
    ensures CallSends(c, ErrorRoute(s.w, n.id), port) == OnPort(s, n, c, port)
    ensures CallErrs(c, ErrorRoute(s.w, n.id)) == OnErrors(s, n, c)
    ensures CallBreaks(c, n, ErrorRoute(s.w, n.id)) <==> Fatal(s, n, c)
  {
    ErrorLinkIs(s, n.id);
  }

  /** The parts of the calls on the batches from one on. */
  function PortParts(s: Setup, n: NodeInstance, work: NodeWork, batches: seq<seq<Item>>, groups: seq<seq<Item>>,
      all: seq<Item>, port: nat): seq<seq<Item>>
  {
    seq(|batches|, k requires 0 <= k < |batches| => OnPort(s, n, CallOn(work, n, batches[k], groups, all), port))
  }

  function ErrorParts(s: Setup, n: NodeInstance, work: NodeWork, batches: seq<seq<Item>>, groups: seq<seq<Item>>,
      all: seq<Item>): seq<seq<Item>>
  {
    seq(|batches|, k requires 0 <= k < |batches| => OnErrors(s, n, CallOn(work, n, batches[k], groups, all)))
  }

  lemma {:induction false} SentParts(s: Setup, n: NodeInstance, work: NodeWork, batches: seq<seq<Item>>,
      groups: seq<seq<Item>>, all: seq<Item>, port: nat)
    ensures AllSent(work, n, batches, groups, all, ErrorRoute(s.w, n.id), port) ==
            Concat(PortParts(s, n, work, batches, groups, all, port))
  {
    if batches != [] {
      var c := CallOn(work, n, batches[0], groups, all);
      SentParts(s, n, work, batches[1..], groups, all, port);
      OnPortIs(s, n, c, port);
      var rest := PortParts(s, n, work, batches[1..], groups, all, port);
      assert PortParts(s, n, work, batches, groups, all, port) == [OnPort(s, n, c, port)] + rest;
      ConcatCons(OnPort(s, n, c, port), rest);
    }
  }

  lemma {:induction false} ErrsParts(s: Setup, n: NodeInstance, work: NodeWork, batches: seq<seq<Item>>,
      groups: seq<seq<Item>>, all: seq<Item>)
    ensures AllErrs(work, n, batches, groups, all, ErrorRoute(s.w, n.id)) ==
            Concat(ErrorParts(s, n, work, batches, groups, all))
  {
    if batches != [] {
      var c := CallOn(work, n, batches[0], groups, all);
      ErrsParts(s, n, work, batches[1..], groups, all);
      OnPortIs(s, n, c, 0);
      var rest := ErrorParts(s, n, work, batches[1..], groups, all);
      assert ErrorParts(s, n, work, batches, groups, all) == [OnErrors(s, n, c)] + rest;
      ConcatCons(OnErrors(s, n, c), rest);
    }
  }

  /** The calls fill as many ports as the call that fills most. */
  lemma {:induction false} CallsFill(s: Setup, n: NodeInstance, work: NodeWork, batches: seq<seq<Item>>,
      groups: seq<seq<Item>>, all: seq<Item>, done: Calls)
    requires CallEach(work, n, batches, groups, all, ErrorRoute(s.w, n.id), done).Some?
    ensures var size := |CallEach(work, n, batches, groups, all, ErrorRoute(s.w, n.id), done).value.output|;
            && |done.output| <= size
            && (forall k :: 0 <= k < |batches| ==> PortsOf(s, n, CallOn(work, n, batches[k], groups, all)) <= size)
            && (size != |done.output| ==>
                  exists k :: 0 <= k < |batches| && PortsOf(s, n, CallOn(work, n, batches[k], groups, all)) == size)
  {
    if batches != [] {
      var c := CallOn(work, n, batches[0], groups, all);
      ErrorLinkIs(s, n.id);
      var next := AfterCall(done, c, ErrorRoute(s.w, n.id));
      assert |next.output| == Max(|done.output|, PortsOf(s, n, c));
      CallsFill(s, n, work, batches[1..], groups, all, next);
      var size := |CallEach(work, n, batches, groups, all, ErrorRoute(s.w, n.id), done).value.output|;
      forall k | 0 <= k < |batches| ensures PortsOf(s, n, CallOn(work, n, batches[k], groups, all)) <= size {
        if k > 0 { assert batches[k] == batches[1..][k - 1]; }
      }
      if size != |next.output| {
        var k :| 0 <= k < |batches[1..]| && PortsOf(s, n, CallOn(work, n, batches[1..][k], groups, all)) == size;
        assert batches[k + 1] == batches[1..][k];
      }
    }
  }

  lemma {:induction false} CallsGivePorts(s: Setup, n: NodeInstance, t: NodeType, items: seq<Item>,
      groups: seq<seq<Item>>, calls: Calls)
    requires AllCalls(s, n, t, items, groups) == Some(calls)
    ensures forall port :: 0 <= port < |calls.output| ==>
              calls.output[port] == AllOnPort(s, n, t, items, groups, port)
  {
    var work, batches, shown := t.work, Batches(t, items), Shown(t, groups);
    CallsMeaning(work, n, batches, shown, items, ErrorRoute(s.w, n.id));
    forall port | 0 <= port < |calls.output|
      ensures calls.output[port] == AllOnPort(s, n, t, items, groups, port)
    {
      SentParts(s, n, work, batches, shown, items, port);
      assert PortItems(calls.output, port) == calls.output[port];
      SamePortParts(s, n, t, items, groups, port);
    }
  }

  lemma SamePortParts(s: Setup, n: NodeInstance, t: NodeType, items: seq<Item>, groups: seq<seq<Item>>, port: nat)
    ensures Concat(PortParts(s, n, t.work, Batches(t, items), Shown(t, groups), items, port)) ==
            AllOnPort(s, n, t, items, groups, port)
  {
    forall k | 0 <= k < CallCount(t, items)
      ensures CallOn(t.work, n, Batches(t, items)[k], Shown(t, groups), items) == Call(t, n, items, groups, k)
    {
      CallIs(t, n, items, groups, k);
    }
    assert PortParts(s, n, t.work, Batches(t, items), Shown(t, groups), items, port) ==
           seq(CallCount(t, items), k requires 0 <= k < CallCount(t, items) =>
             OnPort(s, n, Call(t, n, items, groups, k), port));
  }

  lemma {:induction false} CallsGiveErrors(s: Setup, n: NodeInstance, t: NodeType, items: seq<Item>,
      groups: seq<seq<Item>>, calls: Calls)
    requires AllCalls(s, n, t, items, groups) == Some(calls)
    ensures calls.errors == AllErrors(s, n, t, items, groups)
  {
    var work, batches, shown := t.work, Batches(t, items), Shown(t, groups);
    CallsMeaning(work, n, batches, shown, items, ErrorRoute(s.w, n.id));
    ErrsParts(s, n, work, batches, shown, items);
    forall k | 0 <= k < CallCount(t, items)
      ensures CallOn(work, n, batches[k], shown, items) == Call(t, n, items, groups, k)
    {
      CallIs(t, n, items, groups, k);
    }
    assert ErrorParts(s, n, work, batches, shown, items) ==
           seq(CallCount(t, items), k requires 0 <= k < CallCount(t, items) =>
             OnErrors(s, n, Call(t, n, items, groups, k)));
  }

  lemma {:induction false} CallsGiveSize(s: Setup, n: NodeInstance, t: NodeType, items: seq<Item>,
      groups: seq<seq<Item>>, calls: Calls)
    requires AllCalls(s, n, t, items, groups) == Some(calls)
    ensures FillPorts(s, n, t, items, groups, |calls.output|)
  {
    var work, batches, shown := t.work, Batches(t, items), Shown(t, groups);
    CallsFill(s, n, work, batches, shown, items, Calls([], [], false));
    forall k | 0 <= k < CallCount(t, items)
      ensures |batches| == CallCount(t, items)
      ensures CallOn(work, n, batches[k], shown, items) == Call(t, n, items, groups, k)
    {
      CallIs(t, n, items, groups, k);
    }
    CallIs(t, n, items, groups, 0);
    if calls.output != [] {
      var k :| 0 <= k < |batches| && PortsOf(s, n, CallOn(work, n, batches[k], shown, items)) == |calls.output|;
      assert PortsOf(s, n, Call(t, n, items, groups, k)) == |calls.output|;
    } else {
      assert PortsOf(s, n, Call(t, n, items, groups, 0)) == 0;
    }
  }

  lemma {:induction false} CallsGo(s: Setup, n: NodeInstance, t: NodeType, items: seq<Item>, groups: seq<seq<Item>>)
    ensures AllCalls(s, n, t, items, groups).None? <==> SomeFatal(s, n, t, items, groups)
  {
    var work, batches, shown := t.work, Batches(t, items), Shown(t, groups);
    var routed := ErrorRoute(s.w, n.id);
    CallsMeaning(work, n, batches, shown, items, routed);
    forall k | 0 <= k < |batches|
      ensures k < CallCount(t, items)
      ensures CallBreaks(CallOn(work, n, batches[k], shown, items), n, routed) <==>
              Fatal(s, n, Call(t, n, items, groups, k))
    {
      CallIs(t, n, items, groups, 0);
      CallIs(t, n, items, groups, k);
      OnPortIs(s, n, Call(t, n, items, groups, k), 0);
    }
    if SomeCall(work, n, batches, shown, items, c => CallBreaks(c, n, routed)) {
      var b :| b in batches && CallBreaks(CallOn(work, n, b, shown, items), n, routed);
      var k :| 0 <= k < |batches| && batches[k] == b;
      assert Fatal(s, n, Call(t, n, items, groups, k));
    }
    if SomeFatal(s, n, t, items, groups) {
      CallIs(t, n, items, groups, 0);
      var k :| 0 <= k < CallCount(t, items) && Fatal(s, n, Call(t, n, items, groups, k));
      assert batches[k] in batches;
    }
  }

  /** An ordinary node's work fails the run if one of its calls does, and else gives what its calls give. */
  lemma {:induction false} ExecuteGives(s: Setup, n: NodeInstance, t: NodeType, items: seq<Item>,
      groups: seq<seq<Item>>)
    ensures var o := Execute(s, n, t, items, groups);
            && (o.Fails? <==> SomeFatal(s, n, t, items, groups))
            && (!o.Fails? ==> o.Stores? && !o.reused && CallsGive(s, n, t, items, groups, o.output, o.errors))
  {
    CallsGo(s, n, t, items, groups);
    var calls := AllCalls(s, n, t, items, groups);
    if calls.Some? {
      CallsGivePorts(s, n, t, items, groups, calls.value);
      CallsGiveErrors(s, n, t, items, groups, calls.value);
      CallsGiveSize(s, n, t, items, groups, calls.value);
    }
  }

  // ---- Which case a turn is -------------------------------------------------------------------------------------

  /** The node may keep its earlier record: it is no loop and in no loop's body, and all that feeds it was reused. */
  ghost predicate Reusable(s: Setup, seen: RunState, n: NodeInstance) {
    && n.id in s.reuse && n.nodeType != "core.loop" && n.id !in s.owner
    && forall i :: LinkInto(s, i, n.id) ==> s.w.connections[i].fromNode in seen.reused
  }

  /** A link into the node names an input past the sixteenth. */
  ghost predicate OutOfRange(s: Setup, id: NodeId) {
    exists i :: LinkInto(s, i, id) && s.w.connections[i].toInput >= 16
  }

  predicate Seeded(s: Setup, n: NodeInstance) {
    s.trigger.Some? && s.start == Some(n.id)
  }

  /** There are links into the node and nothing came along them. */
  ghost predicate Idle(s: Setup, seen: RunState, n: NodeInstance) {
    Linked(s, n.id) && Received(s, seen, n.id) == []
  }

  /** The node has to do what its type says. */
  ghost predicate Active(s: Setup, seen: RunState, n: NodeInstance) {
    !Reusable(s, seen, n) && !OutOfRange(s, n.id) && !n.disabled && !Seeded(s, n) && !Idle(s, seen, n)
  }

  /** The calls on what arrived give these items, and those error items. */
  ghost predicate WorkGives(s: Setup, seen: RunState, n: NodeInstance, out: NodeOutput, errors: seq<Item>) {
    && n.nodeType in s.registry
    && exists groups ::
         ByInput(s, seen, n.id, groups) &&
         CallsGive(s, n, s.registry[n.nodeType], Received(s, seen, n.id), groups, out, errors)
  }

  /** A call on what arrived fails the run. */
  ghost predicate WorkBreaks(s: Setup, seen: RunState, n: NodeInstance) {
    && n.nodeType in s.registry
    && exists groups ::
         ByInput(s, seen, n.id, groups) &&
         SomeFatal(s, n, s.registry[n.nodeType], Received(s, seen, n.id), groups)
  }

  lemma OneGrouping(s: Setup, st: RunState, id: NodeId, a: seq<seq<Item>>, b: seq<seq<Item>>)
    requires ByInput(s, st, id, a) && ByInput(s, st, id, b)
    ensures a == b
  {
    if a != [] { var i :| LinkInto(s, i, id) && s.w.connections[i].toInput == |a| - 1; }
    if b != [] { var i :| LinkInto(s, i, id) && s.w.connections[i].toInput == |b| - 1; }
  }

  lemma ReusableIs(s: Setup, seen: RunState, n: NodeInstance)
    ensures MayReuse(s, seen, n) <==> Reusable(s, seen, n)
  {
    if MayReuse(s, seen, n) {
      forall i | LinkInto(s, i, n.id) ensures s.w.connections[i].fromNode in seen.reused {
        assert s.w.connections[i] in s.Links();
      }
    }
    if Reusable(s, seen, n) {
      forall c | c in s.Links() && c.toNode == n.id ensures c.fromNode in seen.reused {
        var i :| 0 <= i < |s.w.connections| && i !in s.back && s.w.connections[i] == c;
        assert LinkInto(s, i, n.id);
      }
    }
  }

  /** What a node that keeps its record sends: what it recorded, or nothing on one port. */
  function RecordedOutput(r: NodeRun): NodeOutput {
    if r.outputs == [] then [[]] else r.outputs
  }

  /** How a turn without work of its own ends. */
  lemma {:induction false} RestOutcome(s: Setup, seen: RunState, n: NodeInstance)
    ensures var o := NodeOutcome(s, seen, n);
            && (Reusable(s, seen, n) ==>
                  o == Stores(RecordedOutput(s.reuse[n.id]), s.reuse[n.id].errorItems, Success, true))
            && (!Reusable(s, seen, n) && OutOfRange(s, n.id) ==> o.Fails?)
            && (!Reusable(s, seen, n) && !OutOfRange(s, n.id) ==>
                  && (n.disabled ==> o == Stores([Received(s, seen, n.id)], [], Skipped, false))
                  && (!n.disabled && Seeded(s, n) ==> o == Stores([s.trigger.value], [], Success, false))
                  && (!n.disabled && !Seeded(s, n) && n.nodeType !in s.registry ==> o.Fails?)
                  && (!n.disabled && !Seeded(s, n) && n.nodeType in s.registry && Idle(s, seen, n) ==>
                        o == Stores([], [], Skipped, false)))
  {
    ReusableIs(s, seen, n);
    LinksInto(s, n.id);
    GatherIsReceived(s, seen, n.id);
  }

  /** How a turn with work ends. */
  lemma {:induction false} WorkOutcome(s: Setup, seen: RunState, n: NodeInstance)
    requires Active(s, seen, n) && n.nodeType in s.registry
    ensures var o := NodeOutcome(s, seen, n);
            && (n.nodeType == "core.loop" ==> o == EntersLoop(Received(s, seen, n.id)))
            && (n.nodeType != "core.loop" ==>
                  && (o.Fails? <==> WorkBreaks(s, seen, n))
                  && (!o.Fails? ==> o.Stores? && !o.reused && WorkGives(s, seen, n, o.output, o.errors)))
  {
    ReusableIs(s, seen, n);
    LinksInto(s, n.id);
    GatherIsReceived(s, seen, n.id);
    GroupsByInput(s, seen, n.id);
    var t, items, groups := s.registry[n.nodeType], Received(s, seen, n.id), Groups(s.Links(), seen, n.id);
    ExecuteGives(s, n, t, items, groups);
    if WorkBreaks(s, seen, n) {
      var other :| ByInput(s, seen, n.id, other) && SomeFatal(s, n, t, items, other);
      OneGrouping(s, seen, n.id, groups, other);
    }
  }

  // ---- What a turn leaves ---------------------------------------------------------------------------------------

  /** The turn left this output and these error items at the node, and changed nothing else. */
  ghost predicate Leaves(t: Turn, id: NodeId, out: NodeOutput, errors: seq<Item>, reused: bool) {
    && t.ok && t.passes == []
    && t.after.produced == t.before.produced[id := out]
    && t.after.errorProduced ==
         (if errors == [] then t.before.errorProduced else t.before.errorProduced[id := errors])
    && t.after.reused == t.before.reused + if reused then {id} else {}
  }

  /** The turn failed the run and changed nothing. */
  ghost predicate Stops(t: Turn) {
    !t.ok && t.passes == [] && t.after == t.before
  }

  // ---- A loop's turn --------------------------------------------------------------------------------------------

  function BatchesOf(passes: seq<Pass>): seq<seq<Item>> {
    seq(|passes|, k requires 0 <= k < |passes| => passes[k].batch)
  }

  /** The connection leads back into the loop. */
  predicate ReturnInto(s: Setup, i: int, id: NodeId) {
    0 <= i < |s.w.connections| && i in s.back && s.w.connections[i].toNode == id
  }

  /** What the return links carry in a state, in connection order. */
  function Returned(s: Setup, st: RunState, id: NodeId): seq<Item> {
    Concat(seq(|s.w.connections|, i requires 0 <= i < |s.w.connections| =>
      if ReturnInto(s, i, id) then Carried(st, s.w.connections[i]) else []))
  }

  /** The same at the end of each pass, pass after pass. */
  function AllReturned(s: Setup, passes: seq<Pass>, id: NodeId): seq<Item> {
    Concat(seq(|passes|, k requires 0 <= k < |passes| => Returned(s, passes[k].after, id)))
  }

  function ReturnPart(s: Setup, st: RunState, id: NodeId, i: nat): seq<Item>
    requires i < |s.w.connections|
  {
    if ReturnInto(s, i, id) then Carried(st, s.w.connections[i]) else []
  }

  function ReturnParts(s: Setup, st: RunState, id: NodeId, from: nat): seq<seq<Item>>
    requires from <= |s.w.connections|
  {
    seq(|s.w.connections| - from, i requires 0 <= i < |s.w.connections| - from => ReturnPart(s, st, id, from + i))
  }

  lemma ReturnPartsStep(s: Setup, st: RunState, id: NodeId, from: nat)
    requires from < |s.w.connections|
    ensures Concat(ReturnParts(s, st, id, from)) ==
            ReturnPart(s, st, id, from) + Concat(ReturnParts(s, st, id, from + 1))
  {
    assert ReturnParts(s, st, id, from) == [ReturnPart(s, st, id, from)] + ReturnParts(s, st, id, from + 1);
    ConcatCons(ReturnPart(s, st, id, from), ReturnParts(s, st, id, from + 1));
  }

  lemma {:induction false} BackFrom(s: Setup, st: RunState, id: NodeId, from: nat)
    requires from <= |s.w.connections|
    ensures BroughtBack(BackLinksInto(s.w.connections, s.back, id, from), st) == Concat(ReturnParts(s, st, id, from))
    decreases |s.w.connections| - from
  {
    if from == |s.w.connections| {
      assert ReturnParts(s, st, id, from) == [];
    } else {
      ReturnPartsStep(s, st, id, from);
      BackStep(s, st, id, from);
      BackFrom(s, st, id, from + 1);
    }
  }

  lemma {:induction false} BackStep(s: Setup, st: RunState, id: NodeId, from: nat)
    requires from < |s.w.connections|
    ensures BroughtBack(BackLinksInto(s.w.connections, s.back, id, from), st) ==
            ReturnPart(s, st, id, from) + BroughtBack(BackLinksInto(s.w.connections, s.back, id, from + 1), st)
  {
    CarriedArrives(st, s.w.connections[from]);
    var found := BackLinksInto(s.w.connections, s.back, id, from);
    if ReturnInto(s, from, id) {
      assert found[1..] == BackLinksInto(s.w.connections, s.back, id, from + 1);
    } else {
      assert found == BackLinksInto(s.w.connections, s.back, id, from + 1);
    }
  }

  lemma {:induction false} DoneIsReturned(s: Setup, passes: seq<Pass>, id: NodeId)
    ensures Done(BackLinksInto(s.w.connections, s.back, id), passes) == AllReturned(s, passes, id)
  {
    if passes != [] {
      var front := Front(passes);
      DoneIsReturned(s, front, id);
      var st := Last(passes).after;
      BackFrom(s, st, id, 0);
      assert ReturnParts(s, st, id, 0) == seq(|s.w.connections|, i requires 0 <= i < |s.w.connections| =>
        if ReturnInto(s, i, id) then Carried(st, s.w.connections[i]) else []);
      var parts := seq(|passes|, k requires 0 <= k < |passes| => Returned(s, passes[k].after, id));
      assert parts[..|parts| - 1] == seq(|front|, k requires 0 <= k < |front| => Returned(s, front[k].after, id));
    }
  }

  lemma {:induction false} SentIsBatches(passes: seq<Pass>)
    ensures Sent(passes) == Concat(BatchesOf(passes))
  {
    if passes != [] {
      SentIsBatches(Front(passes));
      assert BatchesOf(passes)[..|passes| - 1] == BatchesOf(Front(passes));
    }
  }

  /** Nothing but the outputs of the loop and of the nodes it owns is changed. */
  ghost predicate OnlyOutputs(before: RunState, after: RunState, ids: set<NodeId>) {
    && after.errorProduced == before.errorProduced && after.reused == before.reused
    && forall id :: id !in ids ==>
         (id in after.produced <==> id in before.produced) && PortsSame(before, after, id)
  }

  ghost predicate PortsSame(a: RunState, b: RunState, id: NodeId) {
    id in a.produced && id in b.produced ==> a.produced[id] == b.produced[id]
  }

  /** A loop's turn: what arrived goes through the body in batches; if all goes well, what comes back leaves on its
      first port, with nothing on the second, and otherwise the turn breaks off in a pass. */
  ghost predicate Loops(s: Setup, order: seq<NodeInstance>, lp: NodeInstance, t: Turn) {
    && PassesRan(s, order, lp, t.before, t.passes) && GoodBatches(t.passes, BatchSize(lp.parameters))
    && if t.ok then
         && Concat(BatchesOf(t.passes)) == Received(s, t.before, lp.id)
         && lp.id in t.after.produced && t.after.produced[lp.id] == [AllReturned(s, t.passes, lp.id), []]
         && OnlyOutputs(PassState(t.before, t.passes, |t.passes|), t.after, Ids(OwnedNodes(s, order, lp)) + {lp.id})
       else
         && t.passes != [] && !t.passes[|t.passes| - 1].ok && t.after == t.passes[|t.passes| - 1].after
         && Concat(BatchesOf(t.passes)) <= Received(s, t.before, lp.id)
  }

  lemma {:induction false} LoopEndsOutputs(s: Setup, order: seq<NodeInstance>, lp: NodeInstance, input: seq<Item>,
      t: Turn)
    requires LoopEnded(s, order, lp, input, t)
    ensures OnlyOutputs(PassState(t.before, t.passes, |t.passes|), t.after, Ids(OwnedNodes(s, order, lp)) + {lp.id})
  {
    TotalsKeys(OwnedNodes(s, order, lp), t.passes);
  }

  lemma {:induction false} LoopWorks(s: Setup, order: seq<NodeInstance>, lp: NodeInstance, t: Turn)
    requires TurnRan(s, order, lp, t)
    requires Active(s, t.before, lp) && lp.nodeType in s.registry && lp.nodeType == "core.loop"
    ensures Loops(s, order, lp, t)
  {
    WorkOutcome(s, t.before, lp);
    var input := Received(s, t.before, lp.id);
    assert LoopRan(s, order, lp, input, t);
    SentIsBatches(t.passes);
    DoneIsReturned(s, t.passes, lp.id);
    if t.ok {
      assert Sent(t.passes) + [] == Sent(t.passes);
      LoopEndsOutputs(s, order, lp, input, t);
    }
  }

  // ---- All turns ------------------------------------------------------------------------------------------------

  /** What a turn does, by what the links into the node carried in the state it found. A node that may keep its record
      does. A link past the last input stops the run, even if the node is disabled. A disabled node sends what arrived,
      on one port. An enabled start with a trigger sends the trigger's items, on one port. Any other type must be known.
      A node that is linked to and gets nothing sends nothing on any port, whatever its work. A loop runs its body. Any
      other node is called, which stops the run exactly when one of its calls may not fail and does. */
  ghost predicate Fits(s: Setup, order: seq<NodeInstance>, n: NodeInstance, t: Turn) {
    var seen, runs := t.before, !Reusable(s, t.before, n) && !OutOfRange(s, n.id);
    && (Reusable(s, seen, n) ==> Leaves(t, n.id, RecordedOutput(s.reuse[n.id]), s.reuse[n.id].errorItems, true))
    && (!Reusable(s, seen, n) && OutOfRange(s, n.id) ==> Stops(t))
    && (runs && n.disabled ==> Leaves(t, n.id, [Received(s, seen, n.id)], [], false))
    && (runs && !n.disabled && Seeded(s, n) ==> Leaves(t, n.id, [s.trigger.value], [], false))
    && (runs && !n.disabled && !Seeded(s, n) && n.nodeType !in s.registry ==> Stops(t))
    && (runs && !n.disabled && !Seeded(s, n) && n.nodeType in s.registry && Idle(s, seen, n) ==>
          Leaves(t, n.id, [], [], false))
    && (Active(s, seen, n) && n.nodeType in s.registry ==>
          if n.nodeType == "core.loop" then Loops(s, order, n, t)
          else if WorkBreaks(s, seen, n) then Stops(t)
          else LeavesWork(s, n, t))
  }

  ghost predicate LeavesWork(s: Setup, n: NodeInstance, t: Turn) {
    exists out, errors :: WorkGives(s, t.before, n, out, errors) && Leaves(t, n.id, out, errors, false)
  }

  lemma {:induction false} WorkLeft(s: Setup, order: seq<NodeInstance>, n: NodeInstance, t: Turn)
    requires TurnRan(s, order, n, t) && Active(s, t.before, n) && n.nodeType in s.registry
    requires n.nodeType != "core.loop"
    ensures if WorkBreaks(s, t.before, n) then Stops(t) else LeavesWork(s, n, t)
  {
    WorkOutcome(s, t.before, n);
    var o := NodeOutcome(s, t.before, n);
    if o.Stores? { assert WorkGives(s, t.before, n, o.output, o.errors) && Leaves(t, n.id, o.output, o.errors, false); }
  }

  /** Every turn of every node, at the top level or in a pass, is one of these. */
  lemma {:induction false} TurnFits(s: Setup, order: seq<NodeInstance>, n: NodeInstance, t: Turn)
    requires TurnRan(s, order, n, t)
    ensures Fits(s, order, n, t)
  {
    RestOutcome(s, t.before, n);
    if Active(s, t.before, n) && n.nodeType in s.registry {
      if n.nodeType == "core.loop" { LoopWorks(s, order, n, t); } else { WorkLeft(s, order, n, t); }
    }
  }
}
