/** What running one node does (`Run::run_node`, `Run::try_reuse`, src/engine.rs), as a function of what
    the nodes before it produced. The work of a node type is an uninterpreted function of its parameters,
    settings and received items. */
module NodeRuns {

  import opened JsonValues
  import opened Workflows
  import opened Sequences
  import opened LoopLayout

  /** One call of a node: its output, a failure, or parameters whose expressions could not be resolved. */
  datatype Called = Produced(out: NodeOutput) | Failed(message: string) | Unresolved

  /** Parameters, settings, this call's items, the same items by input, and all items received. */
  type NodeWork = (Json, NodeSettings, seq<Item>, seq<seq<Item>>, seq<Item>) -> Called

  datatype NodeType = NodeType(runsPerItem: bool, work: NodeWork)

  datatype RunStatus = Success | Errored | Skipped

  /** A node's record in an execution (`NodeRun`, src/domain.rs). */
  datatype NodeRun = NodeRun(status: RunStatus, outputs: NodeOutput, errorItems: seq<Item>, fingerprint: Option<string>)

  datatype RunState = RunState(
    produced: map<NodeId, NodeOutput>, errorProduced: map<NodeId, seq<Item>>, reused: set<NodeId>)

  const NOTHING := RunState(map[], map[], {})

  /** What stays fixed during a run. */
  datatype Setup = Setup(
    w: Workflow, back: set<nat>, owner: map<NodeId, NodeId>, registry: map<string, NodeType>,
    start: Option<NodeId>, trigger: Option<seq<Item>>, reuse: map<NodeId, NodeRun>)
  {
    function Links(): seq<Connection> {
      Without(w.connections, back)
    }
  }

  /** How a node's turn ends: the whole run fails, the node's output and error items are stored, or it is
      a loop that now runs its body on some items. */
  datatype Outcome =
    | Fails
    | Stores(output: NodeOutput, errors: seq<Item>, status: RunStatus, reused: bool)
    | EntersLoop(input: seq<Item>)

  const MAX_INPUTS := 16

  // ---- What arrives at a node -----------------------------------------------------------------------------------

  function OutputOf(st: RunState, id: NodeId): NodeOutput {
    if id in st.produced then st.produced[id] else []
  }

  function ErrorsOf(st: RunState, id: NodeId): seq<Item> {
    if id in st.errorProduced then st.errorProduced[id] else []
  }

  function Arrived(st: RunState, c: Connection): seq<Item> {
    if c.error then ErrorsOf(st, c.fromNode) else PortItems(OutputOf(st, c.fromNode), c.fromOutput)
  }

  /** All items, link by link in connection order. */
  function Gather(links: seq<Connection>, st: RunState, id: NodeId): seq<Item> {
    if links == [] then []
    else (if links[0].toNode == id then Arrived(st, links[0]) else []) + Gather(links[1..], st, id)
  }

  /** Adds items to one group, making room for it first. */
  function AddToGroup(groups: seq<seq<Item>>, input: nat, items: seq<Item>): seq<seq<Item>> {
    seq(Max(|groups|, input + 1), k requires k >= 0 => PortItems(groups, k) + if k == input then items else [])
  }

  /** The same items by the input they arrive on. */
  function Groups(links: seq<Connection>, st: RunState, id: NodeId, groups: seq<seq<Item>> := []): seq<seq<Item>> {
    if links == [] then groups
    else if links[0].toNode == id then
      Groups(links[1..], st, id, AddToGroup(groups, links[0].toInput, Arrived(st, links[0])))
    else Groups(links[1..], st, id, groups)
  }

  predicate HasIncoming(links: seq<Connection>, id: NodeId) {
    exists c :: c in links && c.toNode == id
  }

  predicate TooManyInputs(links: seq<Connection>, id: NodeId) {
    exists c :: c in links && c.toNode == id && c.toInput >= MAX_INPUTS
  }

  // ---- Running it -----------------------------------------------------------------------------------------------

  function MergePorts(a: NodeOutput, b: NodeOutput): NodeOutput {
    seq(Max(|a|, |b|), k requires k >= 0 => PortItems(a, k) + PortItems(b, k))
  }

  function OntoFirstPort(out: NodeOutput, item: Item): NodeOutput {
    if out == [] then [[item]] else out[0 := out[0] + [item]]
  }

  function ErrorItem(message: string): Item {
    Item(Object([("error", String(message))]), Object([]))
  }

  /** The calls made so far for one node. */
  datatype Calls = Calls(output: NodeOutput, errors: seq<Item>, failed: bool)

  /** How one call of the node on a batch ends. */
  function CallOn(work: NodeWork, n: NodeInstance, batch: seq<Item>, groups: seq<seq<Item>>, all: seq<Item>): Called {
    work(n.parameters, n.settings, batch, groups, all)
  }

  /** A call that fails the whole run. */
  predicate CallBreaks(c: Called, n: NodeInstance, routed: bool) {
    c.Unresolved? || (c.Failed? && !routed && !n.settings.continueOnFail)
  }

  /** One call more: its output joins the others', or it becomes an error item. */
  function AfterCall(done: Calls, c: Called, routed: bool): Calls {
    match c
    case Produced(out) => done.(output := MergePorts(done.output, out))
    case Failed(message) =>
      if routed then Calls(done.output, done.errors + [ErrorItem(message)], true)
      else Calls(OntoFirstPort(done.output, ErrorItem(message)), done.errors, true)
    case Unresolved => done
  }

  /** Calls the node once per batch. A failed call becomes an error item when the node has an error route
      or continues on failure; otherwise, as with unresolved parameters, the run fails. */
  function CallEach(work: NodeWork, n: NodeInstance, batches: seq<seq<Item>>, groups: seq<seq<Item>>,
                    all: seq<Item>, routed: bool, done: Calls): Option<Calls>
  {
    if batches == [] then Some(done)
    else
      var c := CallOn(work, n, batches[0], groups, all);
      if CallBreaks(c, n, routed) then None
      else CallEach(work, n, batches[1..], groups, all, routed, AfterCall(done, c, routed))
  }

  /** What a call puts on one port: its items there, or a failure's error item on port 0 if no error route takes it. */
  function CallSends(c: Called, routed: bool, port: nat): seq<Item> {
    match c
    case Produced(out) => PortItems(out, port)
    case Failed(message) => if !routed && port == 0 then [ErrorItem(message)] else []
    case Unresolved => []
  }

  /** What a call sends on the error route. */
  function CallErrs(c: Called, routed: bool): seq<Item> {
    if c.Failed? && routed then [ErrorItem(c.message)] else []
  }

  function AllSent(work: NodeWork, n: NodeInstance, batches: seq<seq<Item>>, groups: seq<seq<Item>>, all: seq<Item>,
      routed: bool, port: nat): seq<Item>
  {
    if batches == [] then []
    else CallSends(CallOn(work, n, batches[0], groups, all), routed, port)
         + AllSent(work, n, batches[1..], groups, all, routed, port)
  }

  function AllErrs(work: NodeWork, n: NodeInstance, batches: seq<seq<Item>>, groups: seq<seq<Item>>, all: seq<Item>,
      routed: bool): seq<Item>
  {
    if batches == [] then []
    else CallErrs(CallOn(work, n, batches[0], groups, all), routed)
         + AllErrs(work, n, batches[1..], groups, all, routed)
  }

  ghost predicate SomeCall(work: NodeWork, n: NodeInstance, batches: seq<seq<Item>>, groups: seq<seq<Item>>,
      all: seq<Item>, p: Called -> bool)
  {
    exists b :: b in batches && p(CallOn(work, n, b, groups, all))
  }

  lemma SomeCallFirst(work: NodeWork, n: NodeInstance, batches: seq<seq<Item>>, groups: seq<seq<Item>>, all: seq<Item>,
      p: Called -> bool)
    requires batches != []
    ensures SomeCall(work, n, batches, groups, all, p) <==>
              p(CallOn(work, n, batches[0], groups, all)) || SomeCall(work, n, batches[1..], groups, all, p)
  {
    assert batches == [batches[0]] + batches[1..];
  }

  lemma OntoFirst(out: NodeOutput, item: Item, port: nat)
    ensures PortItems(OntoFirstPort(out, item), port) == PortItems(out, port) + if port == 0 then [item] else []
  {
  }

  lemma AfterCallAdds(done: Calls, c: Called, n: NodeInstance, routed: bool, port: nat)
    requires !CallBreaks(c, n, routed)
    ensures var next := AfterCall(done, c, routed);
            && PortItems(next.output, port) == PortItems(done.output, port) + CallSends(c, routed, port)
            && next.errors == done.errors + CallErrs(c, routed) && (next.failed <==> done.failed || c.Failed?)
  {
    if c.Failed? { OntoFirst(done.output, ErrorItem(c.message), port); }
  }

  lemma {:induction false} CallsSend(work: NodeWork, n: NodeInstance, batches: seq<seq<Item>>, groups: seq<seq<Item>>,
      all: seq<Item>, routed: bool, done: Calls, port: nat)
    requires CallEach(work, n, batches, groups, all, routed, done).Some?
    ensures var r := CallEach(work, n, batches, groups, all, routed, done).value;
            && PortItems(r.output, port) == PortItems(done.output, port)
              + AllSent(work, n, batches, groups, all, routed, port)
            && r.errors == done.errors + AllErrs(work, n, batches, groups, all, routed)
  {
    if batches != [] {
      var c := CallOn(work, n, batches[0], groups, all);
      AfterCallAdds(done, c, n, routed, port);
      CallsSend(work, n, batches[1..], groups, all, routed, AfterCall(done, c, routed), port);
      Associates(PortItems(done.output, port), CallSends(c, routed, port),
        AllSent(work, n, batches[1..], groups, all, routed, port));
      Associates(done.errors, CallErrs(c, routed), AllErrs(work, n, batches[1..], groups, all, routed));
    }
  }

  lemma {:induction false} CallsFail(work: NodeWork, n: NodeInstance, batches: seq<seq<Item>>, groups: seq<seq<Item>>,
      all: seq<Item>, routed: bool, done: Calls)
    ensures var r := CallEach(work, n, batches, groups, all, routed, done);
            && (r.None? <==> SomeCall(work, n, batches, groups, all, c => CallBreaks(c, n, routed)))
            && (r.Some? ==>
                  (r.value.failed <==>
                   done.failed || SomeCall(work, n, batches, groups, all, (c: Called) => c.Failed?)))
  {
    if batches != [] {
      var c := CallOn(work, n, batches[0], groups, all);
      SomeCallFirst(work, n, batches, groups, all, c => CallBreaks(c, n, routed));
      SomeCallFirst(work, n, batches, groups, all, (c: Called) => c.Failed?);
      if !CallBreaks(c, n, routed) {
        AfterCallAdds(done, c, n, routed, 0);
        CallsFail(work, n, batches[1..], groups, all, routed, AfterCall(done, c, routed));
      }
    }
  }

  /** The calls fail exactly when one of them may not fail and does; otherwise each port carries what the calls put on
      it, batch after batch, and so do the error items. */
  lemma {:induction false} CallsMeaning(work: NodeWork, n: NodeInstance, batches: seq<seq<Item>>,
      groups: seq<seq<Item>>, all: seq<Item>,
      routed: bool)
    ensures var r := CallEach(work, n, batches, groups, all, routed, Calls([], [], false));
            && (r.None? <==> SomeCall(work, n, batches, groups, all, c => CallBreaks(c, n, routed)))
            && (r.Some? ==>
                  && (forall port: nat ::
                        PortItems(r.value.output, port) == AllSent(work, n, batches, groups, all, routed, port))
                  && r.value.errors == AllErrs(work, n, batches, groups, all, routed)
                  && (r.value.failed <==> SomeCall(work, n, batches, groups, all, (c: Called) => c.Failed?)))
  {
    var none := Calls([], [], false);
    CallsFail(work, n, batches, groups, all, routed, none);
    var r := CallEach(work, n, batches, groups, all, routed, none);
    if r.Some? {
      CallsSend(work, n, batches, groups, all, routed, none, 0);
      forall port: nat ensures PortItems(r.value.output, port) == AllSent(work, n, batches, groups, all, routed, port) {
        CallsSend(work, n, batches, groups, all, routed, none, port);
      }
    }
  }

  function OneByOne(items: seq<Item>): seq<seq<Item>> {
    seq(|items|, i requires 0 <= i < |items| => [items[i]])
  }

  predicate ErrorRoute(w: Workflow, id: NodeId) {
    exists c :: c in w.connections && c.fromNode == id && c.error
  }

  function Execute(s: Setup, n: NodeInstance, t: NodeType, items: seq<Item>, groups: seq<seq<Item>>): Outcome {
    var batches := if t.runsPerItem && |items| > 1 then OneByOne(items) else [items];
    var shown := if t.runsPerItem then [] else groups;
    match CallEach(t.work, n, batches, shown, items, ErrorRoute(s.w, n.id), Calls([], [], false))
    case None => Fails
    case Some(calls) => Stores(calls.output, calls.errors, if calls.failed then Errored else Success, false)
  }

  /** Whether the node's output is taken from its earlier record (`try_reuse`). */
  predicate MayReuse(s: Setup, st: RunState, n: NodeInstance) {
    && n.id in s.reuse
    && !IsLoop(n)
    && n.id !in s.owner
    && forall c :: c in s.Links() && c.toNode == n.id ==> c.fromNode in st.reused
  }

  function Reuse(r: NodeRun): Outcome {
    Stores(if r.outputs == [] then [[]] else r.outputs, r.errorItems, Success, true)
  }

  /** A node that is not reused. */
  function Run(s: Setup, st: RunState, n: NodeInstance): Outcome {
    var links := s.Links();
    var items := Gather(links, st, n.id);
    if TooManyInputs(links, n.id) then Fails
    else if n.disabled then Stores([items], [], Skipped, false)
    else if s.trigger.Some? && s.start == Some(n.id) then Stores([s.trigger.value], [], Success, false)
    else if n.nodeType !in s.registry then Fails
    else if HasIncoming(links, n.id) && items == [] then Stores([], [], Skipped, false)
    else if IsLoop(n) then EntersLoop(items)
    else Execute(s, n, s.registry[n.nodeType], items, Groups(links, st, n.id))
  }

  function NodeOutcome(s: Setup, st: RunState, n: NodeInstance): Outcome {
    if MayReuse(s, st, n) then Reuse(s.reuse[n.id]) else Run(s, st, n)
  }

  /** `error_produced` is only written when there are error items. */
  function StoreErrors(st: RunState, id: NodeId, o: Outcome): RunState
    requires o.Stores?
  {
    if o.errors == [] then st else st.(errorProduced := st.errorProduced[id := o.errors])
  }

  function StoreOutput(st: RunState, id: NodeId, o: Outcome): RunState
    requires o.Stores?
  {
    RunState(st.produced[id := o.output], st.errorProduced, if o.reused then st.reused + {id} else st.reused)
  }

  function Store(st: RunState, id: NodeId, o: Outcome): RunState
    requires o.Stores?
  {
    StoreOutput(StoreErrors(st, id, o), id, o)
  }

  /** What the execution keeps of the node (`persist_node_output`, src/execution_runner.rs). */
  function Record(o: Outcome, fingerprint: Option<string>): NodeRun
    requires o.Stores?
  {
    NodeRun(o.status, o.output, o.errors, fingerprint)
  }

  // ---- The same, as the source runs it --------------------------------------------------------------------------

  lemma {:induction false} GatherMore(links: seq<Connection>, i: nat, st: RunState, id: NodeId)
    requires i < |links|
    ensures Gather(links[..i + 1], st, id) ==
            Gather(links[..i], st, id) + if links[i].toNode == id then Arrived(st, links[i]) else []
  {
    if i == 0 {
      assert links[..1] == [links[0]] && links[..0] == [];
      assert Gather([links[0]], st, id) ==
             (if links[0].toNode == id then Arrived(st, links[0]) else []) + Gather([], st, id);
    } else {
      GatherMore(links[1..], i - 1, st, id);
      assert links[..i + 1][1..] == links[1..][..i];
      assert links[..i][1..] == links[1..][..i - 1];
    }
  }

  lemma {:induction false} GroupsMore(links: seq<Connection>, i: nat, st: RunState, id: NodeId, groups: seq<seq<Item>>)
    requires i < |links|
    ensures var sofar := Groups(links[..i], st, id, groups);
            Groups(links[..i + 1], st, id, groups) ==
              if links[i].toNode == id then AddToGroup(sofar, links[i].toInput, Arrived(st, links[i])) else sofar
  {
    if i == 0 {
      assert links[..1] == [links[0]] && links[..0] == [];
      assert links[..1][1..] == [];
    } else {
      var next := if links[0].toNode == id then AddToGroup(groups, links[0].toInput, Arrived(st, links[0])) else groups;
      GroupsMore(links[1..], i - 1, st, id, next);
      assert links[..i + 1][1..] == links[1..][..i];
      assert links[..i][1..] == links[1..][..i - 1];
    }
  }

  /** Collects what arrived, link by link; an input index out of range stops it. */
  method Aggregate(links: seq<Connection>, st: RunState, id: NodeId)
    returns (tooMany: bool, items: seq<Item>, groups: seq<seq<Item>>)
    ensures tooMany <==> TooManyInputs(links, id)
    ensures !tooMany ==> items == Gather(links, st, id) && groups == Groups(links, st, id)
  {
    items, groups := [], [];
    for i := 0 to |links|
      invariant items == Gather(links[..i], st, id) && groups == Groups(links[..i], st, id)
      invariant forall j :: 0 <= j < i && links[j].toNode == id ==> links[j].toInput < MAX_INPUTS
    {
      GatherMore(links, i, st, id);
      GroupsMore(links, i, st, id, []);
      var c := links[i];
      if c.toNode == id {
        items := items + Arrived(st, c);
        if c.toInput >= MAX_INPUTS {
          return true, items, groups;
        }
        groups := AddToGroup(groups, c.toInput, Arrived(st, c));
      }
    }
    assert links[..|links|] == links;
    tooMany := false;
  }

  /** Calls the node batch by batch. */
  method CallBatches(work: NodeWork, n: NodeInstance, batches: seq<seq<Item>>, groups: seq<seq<Item>>, all: seq<Item>,
      routed: bool)
    returns (r: Option<Calls>)
    ensures r == CallEach(work, n, batches, groups, all, routed, Calls([], [], false))
  {
    var output: NodeOutput, errors: seq<Item>, failed := [], [], false;
    for i := 0 to |batches|
      invariant CallEach(work, n, batches, groups, all, routed, Calls([], [], false)) ==
                CallEach(work, n, batches[i..], groups, all, routed, Calls(output, errors, failed))
    {
      assert batches[i..][0] == batches[i] && batches[i..][1..] == batches[i + 1..];
      match work(n.parameters, n.settings, batches[i], groups, all) {
        case Unresolved =>
          return None;
        case Produced(out) =>
          output := MergePorts(output, out);
        case Failed(message) =>
          if !routed && !n.settings.continueOnFail {
            return None;
          }
          failed := true;
          if routed {
            errors := errors + [ErrorItem(message)];
          } else {
            output := OntoFirstPort(output, ErrorItem(message));
          }
      }
    }
    r := Some(Calls(output, errors, failed));
  }

  /** One node's turn, check by check. */
  method TakeTurn(s: Setup, st: RunState, n: NodeInstance) returns (o: Outcome)
    ensures o == NodeOutcome(s, st, n)
  {
    if MayReuse(s, st, n) {
      return Reuse(s.reuse[n.id]);
    }
    var links := s.Links();
    var tooMany, items, groups := Aggregate(links, st, n.id);
    if tooMany {
      return Fails;
    }
    if n.disabled {
      return Stores([items], [], Skipped, false);
    }
    if s.trigger.Some? && s.start == Some(n.id) {
      return Stores([s.trigger.value], [], Success, false);
    }
    if n.nodeType !in s.registry {
      return Fails;
    }
    if HasIncoming(links, n.id) && items == [] {
      return Stores([], [], Skipped, false);
    }
    if IsLoop(n) {
      return EntersLoop(items);
    }
    var t := s.registry[n.nodeType];
    var batches := if t.runsPerItem && |items| > 1 then OneByOne(items) else [items];
    var calls := CallBatches(t.work, n, batches, if t.runsPerItem then [] else groups, items, ErrorRoute(s.w, n.id));
    o := match calls
      case None => Fails
      case Some(c) => Stores(c.output, c.errors, if c.failed then Errored else Success, false);
  }

  // ---- A node only sees its upstream ----------------------------------------------------------------------------

  /** The same items on every port; a missing port is an empty one. */
  ghost predicate SamePorts(a: NodeOutput, b: NodeOutput) {
    forall k: nat :: PortItems(a, k) == PortItems(b, k)
  }

  ghost predicate SentAlike(a: RunState, b: RunState, id: NodeId) {
    SamePorts(OutputOf(a, id), OutputOf(b, id)) && ErrorsOf(a, id) == ErrorsOf(b, id)
  }

  ghost predicate UpstreamAlike(links: seq<Connection>, a: RunState, b: RunState, id: NodeId) {
    forall c :: c in links && c.toNode == id ==> SentAlike(a, b, c.fromNode)
  }

  lemma {:induction false} GatherAlike(links: seq<Connection>, a: RunState, b: RunState, id: NodeId)
    requires UpstreamAlike(links, a, b, id)
    ensures Gather(links, a, id) == Gather(links, b, id)
  {
    if links != [] {
      assert links[0] in links;
      GatherAlike(links[1..], a, b, id);
    }
  }

  lemma {:induction false} GroupsAlike(links: seq<Connection>, a: RunState, b: RunState, id: NodeId,
      groups: seq<seq<Item>>)
    requires UpstreamAlike(links, a, b, id)
    ensures Groups(links, a, id, groups) == Groups(links, b, id, groups)
  {
    if links != [] {
      assert links[0] in links;
      var next := if links[0].toNode == id then AddToGroup(groups, links[0].toInput, Arrived(a, links[0])) else groups;
      GroupsAlike(links[1..], a, b, id, next);
    }
  }

  /** A run of a node depends on the state only through what its upstream sent. */
  lemma RunAlike(s: Setup, a: RunState, b: RunState, n: NodeInstance)
    requires UpstreamAlike(s.Links(), a, b, n.id)
    ensures Run(s, a, n) == Run(s, b, n)
  {
    GatherAlike(s.Links(), a, b, n.id);
    GroupsAlike(s.Links(), a, b, n.id, []);
  }

  /** Everything the state holds about one node. */
  ghost predicate SameEntries(a: RunState, b: RunState, id: NodeId) {
    && (id in a.produced <==> id in b.produced)
    && (id in a.produced ==> a.produced[id] == b.produced[id])
    && (id in a.errorProduced <==> id in b.errorProduced)
    && (id in a.errorProduced ==> a.errorProduced[id] == b.errorProduced[id])
    && (id in a.reused <==> id in b.reused)
  }

  lemma OutcomeLocal(s: Setup, a: RunState, b: RunState, n: NodeInstance)
    requires forall c :: c in s.Links() && c.toNode == n.id ==> SameEntries(a, b, c.fromNode)
    ensures NodeOutcome(s, a, n) == NodeOutcome(s, b, n)
  {
    assert UpstreamAlike(s.Links(), a, b, n.id);
    RunAlike(s, a, b, n);
  }
}
