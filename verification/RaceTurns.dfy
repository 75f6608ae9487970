/** What the cast of `RaceStage` does in its turns: where the marker can be, who sends what, and that the watching node
    fails exactly when the feeder's marker has arrived. */
module RaceTurns {

  import opened Workflows
  import opened NodeRuns
  import opened LoopBatches
  import opened RunLists
  import opened RunLogs
  import opened RunsAgree
  import opened RaceStage

  /** The workflow as cast. */
  ghost predicate Staged(t: Setup, g: Race) {
    && GoodRoles(g.roles) && (forall n :: n in t.w.nodes ==> n == Cast(g, n))
    && t.registry == Works(g, Ports(t.w.connections)) && t.trigger == None && t.reuse == map[]
  }

  lemma StageStaged(s: Setup, order: seq<NodeInstance>, g: Race)
    requires GoodRoles(g.roles)
    ensures Staged(Stage(s, order, g), g)
  {
    forall n | n in CastAll(g, s.w.nodes) ensures n == Cast(g, n) {
      var i :| 0 <= i < |s.w.nodes| && CastAll(g, s.w.nodes)[i] == n;
      CastLooks(g, s.w.nodes[i]);
    }
  }

  /** The whole set-up of a race. */
  ghost predicate Racing(t: Setup, order: seq<NodeInstance>, g: Race) {
    Planned(t, order) && Staged(t, g) && Contest(t, order, g)
  }

  // ---- One node's outcome ---------------------------------------------------------------------------------------

  /** What a plain node of the cast does with its items. */
  function Does(g: Race, ports: nat, id: NodeId, items: seq<Item>): Outcome {
    if id == g.f && g.c.error then Stores([], [Mark(g)], Errored, false)
    else if id == g.f then Stores(Marking(g, ports).out, [], Success, false)
    else if id == g.q && Mark(g) in items then Fails
    else Stores(Everywhere(ports), [], Success, false)
  }

  lemma MergeNothing(out: NodeOutput)
    ensures MergePorts([], out) == out
  {
    assert forall k :: 0 <= k < |out| ==> PortItems([], k) + PortItems(out, k) == out[k];
  }

  lemma {:induction false} OneCall(work: NodeWork, n: NodeInstance, items: seq<Item>, groups: seq<seq<Item>>,
      routed: bool)
    ensures CallEach(work, n, [items], groups, items, routed, Calls([], [], false)) ==
      (var c := CallOn(work, n, items, groups, items);
       if CallBreaks(c, n, routed) then None else Some(AfterCall(Calls([], [], false), c, routed)))
  {
    assert [items][1..] == [];
  }

  function WorkFor(g: Race, ports: nat, id: NodeId): NodeWork {
    if id == g.f then MarkingWork(g, ports) else if id == g.q then WatchingWork(g, ports) else SendingWork(ports)
  }

  lemma RoleWorks(g: Race, ports: nat, id: NodeId)
    requires GoodRoles(g.roles)
    ensures Role(g, id) in Works(g, ports) && LOOP_TYPE in Works(g, ports) && Role(g, id) != LOOP_TYPE
    ensures Works(g, ports)[Role(g, id)] == NodeType(false, WorkFor(g, ports, id))
  {
  }

  lemma RoleOf(t: Setup, g: Race, n: NodeInstance)
    requires Staged(t, g) && n in t.w.nodes && !IsLoop(n)
    ensures n == Plainly(n.id, Role(g, n.id)) && n.nodeType in t.registry && !t.registry[n.nodeType].runsPerItem
  {
    assert n == Cast(g, n);
    RoleWorks(g, Ports(t.w.connections), n.id);
  }

  /** How the one call ends. */
  function Ends(c: Called, n: NodeInstance, routed: bool): Outcome {
    if CallBreaks(c, n, routed) then Fails
    else
      var calls := AfterCall(Calls([], [], false), c, routed);
      Stores(calls.output, calls.errors, if calls.failed then Errored else Success, false)
  }

  lemma ExecuteOnce(t: Setup, n: NodeInstance, nt: NodeType, items: seq<Item>, groups: seq<seq<Item>>)
    requires !nt.runsPerItem
    ensures Execute(t, n, nt, items, groups) == Ends(CallOn(nt.work, n, items, groups, items), n, ErrorRoute(t.w, n.id))
  {
    OneCall(nt.work, n, items, groups, ErrorRoute(t.w, n.id));
  }

  /** What the call of a plain node gives. */
  function CallGives(g: Race, ports: nat, id: NodeId, items: seq<Item>): Called {
    if id == g.f then Marking(g, ports)
    else if id == g.q && Mark(g) in items then Unresolved
    else Produced(Everywhere(ports))
  }

  lemma WorkOf(t: Setup, g: Race, n: NodeInstance, items: seq<Item>, groups: seq<seq<Item>>)
    requires Staged(t, g) && n in t.w.nodes && !IsLoop(n)
    ensures n.nodeType in t.registry
    ensures CallOn(t.registry[n.nodeType].work, n, items, groups, items) ==
        CallGives(g, Ports(t.w.connections), n.id, items)
  {
    RoleOf(t, g, n);
    RoleWorks(g, Ports(t.w.connections), n.id);
  }

  lemma EndsDoing(g: Race, ports: nat, n: NodeInstance, items: seq<Item>, routed: bool)
    requires !n.settings.continueOnFail && (n.id == g.f && g.c.error ==> routed)
    ensures Ends(CallGives(g, ports, n.id, items), n, routed) == Does(g, ports, n.id, items)
  {
    MergeNothing(Everywhere(ports));
    if n.id == g.f && !g.c.error { MergeNothing(Marking(g, ports).out); }
  }

  lemma ExecuteDoes(t: Setup, g: Race, n: NodeInstance, items: seq<Item>, groups: seq<seq<Item>>)
    requires Staged(t, g) && n in t.w.nodes && !IsLoop(n) && (g.c.error ==> ErrorRoute(t.w, g.f))
    ensures n.nodeType in t.registry
    ensures Execute(t, n, t.registry[n.nodeType], items, groups) == Does(g, Ports(t.w.connections), n.id, items)
  {
    RoleOf(t, g, n);
    WorkOf(t, g, n, items, groups);
    ExecuteOnce(t, n, t.registry[n.nodeType], items, groups);
    EndsDoing(g, Ports(t.w.connections), n, items, ErrorRoute(t.w, n.id));
  }

  lemma FeederRouted(t: Setup, order: seq<NodeInstance>, g: Race)
    requires Racing(t, order, g)
    ensures g.c.error ==> ErrorRoute(t.w, g.f)
    ensures g.c in t.w.connections && g.c.fromNode == g.f
  {
  }

  lemma FewInputs(t: Setup, order: seq<NodeInstance>, g: Race, id: NodeId)
    requires Racing(t, order, g)
    ensures !TooManyInputs(t.Links(), id)
  {
  }

  /** What is left of a node's outcome when nothing stands in its way. */
  function Turns(t: Setup, st: RunState, n: NodeInstance, o: Outcome): Outcome {
    if HasIncoming(t.Links(), n.id) && Gather(t.Links(), st, n.id) == [] then Stores([], [], Skipped, false) else o
  }

  lemma {:induction false} PlainTurns(t: Setup, st: RunState, n: NodeInstance)
    requires t.trigger == None && t.reuse == map[] && !TooManyInputs(t.Links(), n.id) && !n.disabled
    requires !IsLoop(n) && n.nodeType in t.registry
    ensures NodeOutcome(t, st, n) ==
      Turns(t, st, n, Execute(t, n, t.registry[n.nodeType], Gather(t.Links(), st, n.id), Groups(t.Links(), st, n.id)))
  {
  }

  /** A plain node that has items, or that nothing feeds, does its part; with nothing to do it is passed over. */
  lemma {:induction false} PlainOutcome(t: Setup, order: seq<NodeInstance>, g: Race, st: RunState, n: NodeInstance)
    requires Racing(t, order, g) && n in t.w.nodes && !IsLoop(n)
    ensures NodeOutcome(t, st, n) == Turns(t, st, n, Does(g, Ports(t.w.connections), n.id, Gather(t.Links(), st, n.id)))
  {
    FewInputs(t, order, g, n.id);
    FeederRouted(t, order, g);
    RoleOf(t, g, n);
    ExecuteDoes(t, g, n, Gather(t.Links(), st, n.id), Groups(t.Links(), st, n.id));
    PlainTurns(t, st, n);
  }

  /** A loop that has items runs its body on them. */
  lemma {:induction false} LoopOutcome(t: Setup, order: seq<NodeInstance>, g: Race, st: RunState, n: NodeInstance)
    requires Racing(t, order, g) && n in t.w.nodes && IsLoop(n)
    ensures NodeOutcome(t, st, n) == Turns(t, st, n, EntersLoop(Gather(t.Links(), st, n.id)))
  {
    FewInputs(t, order, g, n.id);
    assert n == Cast(g, n);
    RoleWorks(g, Ports(t.w.connections), n.id);
  }

  // ---- Where the marker is --------------------------------------------------------------------------------------

  /** Only the feeder's output carries the marker. */
  ghost predicate Clear(g: Race, st: RunState) {
    forall d: Connection :: Mark(g) in Arrived(st, d) ==> Hot(g, d)
  }

  ghost predicate Marked(g: Race, st: RunState) {
    Mark(g) in Arrived(st, g.c)
  }

  lemma SameArrivals(a: RunState, b: RunState, d: Connection)
    requires SameEntries(a, b, d.fromNode)
    ensures Arrived(a, d) == Arrived(b, d)
  {
  }

  lemma {:induction false} Gathered(links: seq<Connection>, st: RunState, id: NodeId, item: Item)
    ensures item in Gather(links, st, id) <==> exists d :: d in links && d.toNode == id && item in Arrived(st, d)
  {
    if links != [] {
      Gathered(links[1..], st, id, item);
      assert links == [links[0]] + links[1..];
    }
  }

  /** The node the feeder feeds sees the marker exactly when the feeder has sent it. */
  lemma {:induction false} WatcherSees(t: Setup, order: seq<NodeInstance>, g: Race, st: RunState)
    requires Racing(t, order, g)
    ensures Marked(g, st) ==> Mark(g) in Gather(t.Links(), st, g.q)
    ensures Clear(g, st) && Mark(g) in Gather(t.Links(), st, g.q) ==> Marked(g, st)
  {
    Gathered(t.Links(), st, g.q, Mark(g));
    if Clear(g, st) && Mark(g) in Gather(t.Links(), st, g.q) {
      var d :| d in t.Links() && d.toNode == g.q && Mark(g) in Arrived(st, d);
      assert Hot(g, d);
      assert Arrived(st, d) == Arrived(st, g.c);
    }
  }

  lemma {:induction false} LoopsUnmarked(t: Setup, order: seq<NodeInstance>, g: Race, st: RunState, n: NodeInstance)
    requires Racing(t, order, g) && n in t.w.nodes && IsLoop(n) && Clear(g, st)
    ensures Mark(g) !in Gather(t.Links(), st, n.id)
    ensures forall d :: d in t.w.connections && d.toNode == n.id ==> Mark(g) !in Arrived(st, d)
  {
    Gathered(t.Links(), st, n.id, Mark(g));
    forall d | d in t.w.connections && d.toNode == n.id ensures Mark(g) !in Arrived(st, d) {
      assert Hot(g, d) ==> PlainId(t, d.toNode);
    }
  }

  /** What a plain node's outcome puts on a link. */
  lemma StoredArrives(st: RunState, id: NodeId, o: Outcome, d: Connection)
    requires o.Stores?
    ensures d.fromNode != id ==> Arrived(Store(st, id, o), d) == Arrived(st, d)
    ensures d.fromNode == id && !d.error ==> Arrived(Store(st, id, o), d) == PortItems(o.output, d.fromOutput)
    ensures d.fromNode == id && d.error ==>
              Arrived(Store(st, id, o), d) == if o.errors == [] then Arrived(st, d) else o.errors
  {
  }

  lemma NoMarkSent(g: Race, ports: nat, id: NodeId, items: seq<Item>, port: nat)
    requires Does(g, ports, id, items).Stores?
    ensures Mark(g) in PortItems(Does(g, ports, id, items).output, port) ==>
        id == g.f && !g.c.error && port == g.c.fromOutput
    ensures Mark(g) in Does(g, ports, id, items).errors ==> id == g.f && g.c.error
  {
  }

  lemma DoingKeepsClear(g: Race, st: RunState, ports: nat, id: NodeId, items: seq<Item>)
    requires Clear(g, st) && Does(g, ports, id, items).Stores?
    ensures Clear(g, Store(st, id, Does(g, ports, id, items)))
  {
    var o := Does(g, ports, id, items);
    forall d: Connection | Mark(g) in Arrived(Store(st, id, o), d) ensures Hot(g, d) {
      StoredArrives(st, id, o, d);
      NoMarkSent(g, ports, id, items, d.fromOutput);
    }
  }

  lemma SkippingKeepsClear(g: Race, st: RunState, id: NodeId)
    requires Clear(g, st)
    ensures Clear(g, Store(st, id, Stores([], [], Skipped, false)))
  {
    var o := Stores([], [], Skipped, false);
    forall d: Connection | Mark(g) in Arrived(Store(st, id, o), d) ensures Hot(g, d) { StoredArrives(st, id, o, d); }
  }

  /** A plain node's turn goes well unless it is the watching node's and the marker is there. */
  lemma {:induction false} PlainTurnGoes(t: Setup, order: seq<NodeInstance>, g: Race, n: NodeInstance, u: Turn)
    requires Racing(t, order, g) && n in t.w.nodes && !IsLoop(n) && TurnRan(t, order, n, u) && Clear(g, u.before)
    requires n.id == g.q ==> !Marked(g, u.before)
    ensures u.ok && Clear(g, u.after)
  {
    var items, ports := Gather(t.Links(), u.before, n.id), Ports(t.w.connections);
    PlainOutcome(t, order, g, u.before, n);
    if n.id == g.q { WatcherSees(t, order, g, u.before); }
    if HasIncoming(t.Links(), n.id) && items == [] {
      SkippingKeepsClear(g, u.before, n.id);
    } else {
      DoingKeepsClear(g, u.before, ports, n.id, items);
    }
  }

  lemma {:induction false} WatcherFails(t: Setup, order: seq<NodeInstance>, g: Race, n: NodeInstance, u: Turn)
    requires Racing(t, order, g) && n in t.w.nodes && n.id == g.q && !IsLoop(n) && TurnRan(t, order, n, u)
    requires Marked(g, u.before)
    ensures !u.ok
  {
    WatcherSees(t, order, g, u.before);
    PlainOutcome(t, order, g, u.before, n);
    assert g.f != g.q by { NotSelf(t, order, g); }
  }

  lemma NotSelf(t: Setup, order: seq<NodeInstance>, g: Race)
    requires Planned(t, order) && g.c in t.Links() && g.c.fromNode == g.f && g.c.toNode == g.q
    ensures g.f != g.q
  {
    LinkEnds(t, g.c);
    var n :| n in t.w.nodes && n.id == g.f;
    OrderNodes(t, order, n);
    var i :| 0 <= i < |order| && order[i] == n;
  }

  lemma MarkingArrives(g: Race, ports: nat, st: RunState, items: seq<Item>)
    requires g.c.fromNode == g.f && g.c.fromOutput < ports
    ensures Does(g, ports, g.f, items).Stores? && Marked(g, Store(st, g.f, Does(g, ports, g.f, items)))
  {
    StoredArrives(st, g.f, Does(g, ports, g.f, items), g.c);
  }

  lemma SendingArrives(g: Race, ports: nat, st: RunState, id: NodeId, items: seq<Item>, d: Connection)
    requires id != g.f && id != g.q && d.fromNode == id && !d.error && d.fromOutput < ports
    ensures Does(g, ports, id, items).Stores? && Arrived(Store(st, id, Does(g, ports, id, items)), d) == [SENT]
  {
    StoredArrives(st, id, Does(g, ports, id, items), d);
  }

  /** The node is not fed at all, or has items. */
  ghost predicate Ready(t: Setup, st: RunState, id: NodeId) {
    HasIncoming(t.Links(), id) ==> Gather(t.Links(), st, id) != []
  }

  /** The feeder's turn, when it has items, leaves the marker. */
  lemma {:induction false} FeederMarks(t: Setup, order: seq<NodeInstance>, g: Race, n: NodeInstance, u: Turn)
    requires Racing(t, order, g) && n in t.w.nodes && !IsLoop(n) && n.id == g.f && TurnRan(t, order, n, u)
    requires Ready(t, u.before, n.id)
    ensures Marked(g, u.after)
  {
    PlainOutcome(t, order, g, u.before, n);
    FeederRouted(t, order, g);
    MarkingArrives(g, Ports(t.w.connections), u.before, Gather(t.Links(), u.before, n.id));
  }

  /** Any other plain node's turn, when it has items, leaves an item on every port. */
  lemma {:induction false} OthersSend(t: Setup, order: seq<NodeInstance>, g: Race, n: NodeInstance, u: Turn,
      d: Connection)
    requires Racing(t, order, g) && n in t.w.nodes && !IsLoop(n) && n.id != g.f && n.id != g.q
    requires TurnRan(t, order, n, u)
    requires Ready(t, u.before, n.id) && d in t.w.connections && d.fromNode == n.id && !d.error
    ensures Arrived(u.after, d) == [SENT]
  {
    PlainOutcome(t, order, g, u.before, n);
    SendingArrives(g, Ports(t.w.connections), u.before, n.id, Gather(t.Links(), u.before, n.id), d);
  }

  // ---- Passes and totals ----------------------------------------------------------------------------------------

  lemma {:induction false} BatchSent(passes: seq<Pass>, k: nat, item: Item)
    requires k < |passes| && item in passes[k].batch
    ensures item in Sent(passes)
  {
    if k < |passes| - 1 { BatchSent(Front(passes), k, item); }
  }

  lemma BatchUnmarked(g: Race, passes: seq<Pass>, queue: seq<Item>, input: seq<Item>, size: nat, k: nat)
    requires Batched(passes, queue, input, size) && Mark(g) !in input && k < |passes|
    ensures Mark(g) !in passes[k].batch
  {
    assert forall x :: x in Sent(passes) ==> x in Sent(passes) + queue;
    if Mark(g) in passes[k].batch { BatchSent(passes, k, Mark(g)); }
  }

  lemma BeginningArrives(st: RunState, body: seq<NodeInstance>, lp: NodeId, batch: seq<Item>, d: Connection)
    ensures var now := Arrived(BeforePass(st, body, lp, batch), d); now == [] || now == batch || now == Arrived(st, d)
  {
  }

  /** Before a pass nothing that was not marked gets marked. */
  lemma PassBeginsClear(t: Setup, g: Race, st: RunState, body: seq<NodeInstance>, lp: NodeId, batch: seq<Item>)
    requires Clear(g, st) && Mark(g) !in batch
    ensures Clear(g, BeforePass(st, body, lp, batch))
  {
    var now := BeforePass(st, body, lp, batch);
    forall d: Connection | Mark(g) in Arrived(now, d) ensures Hot(g, d) {
      BeginningArrives(st, body, lp, batch, d);
    }
  }

  /** Nothing in the totals is marked but the feeder's output. */
  ghost predicate ClearTotals(g: Race, totals: map<NodeId, NodeOutput>) {
    forall id, port: nat :: Mark(g) in PortItems(TotalIn(totals, id), port) ==>
      Hot(g, Connection(id, port, id, 0, false))
  }

  lemma AddOneClear(g: Race, st: RunState, totals: map<NodeId, NodeOutput>, id: NodeId)
    requires Clear(g, st) && ClearTotals(g, totals)
    ensures ClearTotals(g, AddOne(st, totals, id))
  {
    var now := AddOne(st, totals, id);
    forall x, port: nat | Mark(g) in PortItems(TotalIn(now, x), port) ensures Hot(g, Connection(x, port, x, 0, false)) {
      if x == id && id in st.produced {
        assert PortItems(TotalIn(now, x), port) == PortItems(TotalIn(totals, x), port)
          + PortItems(st.produced[id], port);
        assert PortItems(st.produced[id], port) == Arrived(st, Connection(x, port, x, 0, false));
      } else {
        assert TotalIn(now, x) == TotalIn(totals, x);
      }
    }
  }

  lemma {:induction false} AddAllClear(g: Race, body: seq<NodeInstance>, st: RunState, totals: map<NodeId, NodeOutput>)
    requires Clear(g, st) && ClearTotals(g, totals)
    ensures ClearTotals(g, AddAll(body, st, totals))
  {
    if body != [] {
      AddAllClear(g, body[..|body| - 1], st, totals);
      AddOneClear(g, st, AddAll(body[..|body| - 1], st, totals), body[|body| - 1].id);
    }
  }

  ghost predicate ClearPasses(g: Race, passes: seq<Pass>) {
    forall k :: 0 <= k < |passes| ==> Clear(g, passes[k].after)
  }

  lemma {:induction false} TotalsClear(g: Race, body: seq<NodeInstance>, passes: seq<Pass>)
    requires ClearPasses(g, passes)
    ensures ClearTotals(g, Totals(body, passes))
  {
    if passes != [] {
      TotalsClear(g, body, Front(passes));
      AddAllClear(g, body, Last(passes).after, Totals(body, Front(passes)));
    }
  }

  lemma {:induction false} BroughtUnmarked(g: Race, links: seq<Connection>, st: RunState)
    requires forall d :: d in links ==> Mark(g) !in Arrived(st, d)
    ensures Mark(g) !in BroughtBack(links, st)
  {
    if links != [] {
      assert links[0] in links;
      BroughtUnmarked(g, links[1..], st);
    }
  }

  lemma {:induction false} DoneUnmarked(t: Setup, order: seq<NodeInstance>, g: Race, n: NodeInstance, passes: seq<Pass>)
    requires Racing(t, order, g) && n in t.w.nodes && IsLoop(n) && ClearPasses(g, passes)
    ensures Mark(g) !in Done(BackLinksInto(t.w.connections, t.back, n.id), passes)
  {
    if passes != [] {
      var links := BackLinksInto(t.w.connections, t.back, n.id);
      DoneUnmarked(t, order, g, n, Front(passes));
      assert Clear(g, Last(passes).after);
      LoopsUnmarked(t, order, g, Last(passes).after, n);
      BroughtUnmarked(g, links, Last(passes).after);
    }
  }

  lemma EndingArrives(st: RunState, totals: map<NodeId, NodeOutput>, lp: NodeId, done: seq<Item>, d: Connection)
    ensures var now := Arrived(AfterPasses(st, totals, lp, done), d);
            || now == [] || now == done || now == Arrived(st, d)
            || (!d.error && now == PortItems(TotalIn(totals, d.fromNode), d.fromOutput))
  {
  }

  lemma AfterPassesClear(g: Race, st: RunState, totals: map<NodeId, NodeOutput>, lp: NodeId, done: seq<Item>)
    requires Clear(g, st) && ClearTotals(g, totals) && Mark(g) !in done
    ensures Clear(g, AfterPasses(st, totals, lp, done))
  {
    var now := AfterPasses(st, totals, lp, done);
    forall d: Connection | Mark(g) in Arrived(now, d) ensures Hot(g, d) {
      EndingArrives(st, totals, lp, done, d);
      if Mark(g) in PortItems(TotalIn(totals, d.fromNode), d.fromOutput) && !d.error {
        assert Hot(g, Connection(d.fromNode, d.fromOutput, d.fromNode, 0, false));
      }
    }
  }
}
