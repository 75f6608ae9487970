/** What stands at the end of a run of the editor engine (src/engine.rs), of the top level or of a pass over a loop's
    body: every node of the list holds what it sends on what the links into it carry at the end. */
module RunEnds {

  import opened Workflows
  import opened Sequences
  import opened LoopLayout
  import opened TopologicalOrder
  import opened LoopNesting
  import opened NodeRuns
  import opened LoopBatches
  import opened RunLists
  import opened RunLogs
  import opened LoopTrees
  import opened RunsAgree
  import opened NodeTurns

  /** The node ends with this output and these error items. */
  ghost predicate EndsWith(end: RunState, id: NodeId, out: NodeOutput, errors: seq<Item>) {
    && id in end.produced && end.produced[id] == out
    && if errors == [] then id !in end.errorProduced
       else id in end.errorProduced && end.errorProduced[id] == errors
  }

  // ---- From a node's turn to the end ----------------------------------------------------------------------------

  predicate NothingOf(st: RunState, id: NodeId) {
    id !in st.produced && id !in st.errorProduced
  }

  /** A node in a run that went well, and its turn. */
  ghost predicate TookTurn(s: Setup, order: seq<NodeInstance>, at: Option<NodeId>, a: Log, n: NodeInstance, k: nat) {
    && IsRun(s, order, at, a) && a.ok && NothingOf(a.start, n.id)
    && k < |a.turns| && a.turns[k].index < |ListAt(s, order, at)| && NodeAt(s, order, at, a, k) == n
  }

  lemma {:induction false} TurnEnds(s: Setup, order: seq<NodeInstance>, n: NodeInstance, t: Turn)
    requires TurnRan(s, order, n, t) && NothingOf(t.before, n.id)
    ensures var o := NodeOutcome(s, t.before, n);
            && (o.Fails? ==> !t.ok)
            && (o.Stores? ==> EndsWith(t.after, n.id, o.output, o.errors) &&
                              (n.id in t.after.reused <==> n.id in t.before.reused || o.reused))
  {
  }

  lemma SameEnd(a: RunState, b: RunState, id: NodeId, out: NodeOutput, errors: seq<Item>)
    requires EndsWith(a, id, out, errors) && SameEntries(a, b, id)
    ensures EndsWith(b, id, out, errors)
  {
  }

  lemma {:induction false} WentWell(s: Setup, order: seq<NodeInstance>, at: Option<NodeId>, a: Log, n: NodeInstance,
      k: nat)
    requires TookTurn(s, order, at, a, n, k)
    ensures a.turns[k].ok && TurnRan(s, order, n, a.turns[k])
  {
    TurnFacts(s, order, at, a, k);
    RunParts(s, order, at, a);
    OkTurn(ListAt(s, order, at), a.turns, k);
  }

  lemma OkTurn(list: seq<NodeInstance>, turns: seq<Turn>, k: nat)
    requires Through(list, turns, true) && k < |turns|
    ensures turns[k].ok
  {
  }

  lemma UntouchedBefore(s: Setup, order: seq<NodeInstance>, at: Option<NodeId>, a: Log, n: NodeInstance, k: nat)
    requires TookTurn(s, order, at, a, n, k)
    ensures SameEntries(a.start, a.turns[k].before, n.id)
  {
    InOwnTree(s, n.id);
    OwnBefore(s, order, at, a, k, n.id);
  }

  lemma {:induction false} StoredEnds(s: Setup, order: seq<NodeInstance>, at: Option<NodeId>, a: Log, n: NodeInstance,
      k: nat)
    requires TookTurn(s, order, at, a, n, k)
    ensures var o := NodeOutcome(s, a.end, n);
            && !o.Fails? && NodeOutcome(s, a.turns[k].before, n) == o
            && (o.Stores? ==> EndsWith(a.end, n.id, o.output, o.errors) &&
                              (n.id in a.end.reused <==> n.id in a.start.reused || o.reused))
  {
    WentWell(s, order, at, a, n, k);
    UntouchedBefore(s, order, at, a, n, k);
    ListSettles(s, order, at, a, k);
    TurnEnds(s, order, n, a.turns[k]);
    var o := NodeOutcome(s, a.end, n);
    if o.Stores? { SameEnd(a.turns[k].after, a.end, n.id, o.output, o.errors); }
  }

  lemma TurnTaken(s: Setup, order: seq<NodeInstance>, at: Option<NodeId>, a: Log, n: NodeInstance) returns (k: nat)
    requires IsRun(s, order, at, a) && a.ok && NothingOf(a.start, n.id) && n in ListAt(s, order, at)
    ensures TookTurn(s, order, at, a, n, k)
  {
    var i :| 0 <= i < |ListAt(s, order, at)| && ListAt(s, order, at)[i] == n;
    k := TurnOf(s, order, at, a, i);
  }

  // ---- What each node ends with ---------------------------------------------------------------------------------

  /** A reused node ends with what it recorded. */
  ghost predicate HoldsRecord(s: Setup, end: RunState, n: NodeInstance)
    requires n.id in s.reuse
  {
    EndsWith(end, n.id, RecordedOutput(s.reuse[n.id]), s.reuse[n.id].errorItems)
  }

  /** A node that is not reused ends with what fits the items its links carry at the end: disabled, with those items on
      one port; a seeded start, with the trigger's items on one port; linked to without an item, with no port; any other
      that is no loop, with what its calls on those items give, none of which fails the run. */
  ghost predicate HoldsWork(s: Setup, end: RunState, n: NodeInstance) {
    && !OutOfRange(s, n.id)
    && (n.disabled ==> EndsWith(end, n.id, [Received(s, end, n.id)], []))
    && (!n.disabled && Seeded(s, n) ==> EndsWith(end, n.id, [s.trigger.value], []))
    && (!n.disabled && !Seeded(s, n) ==> n.nodeType in s.registry)
    && (!n.disabled && !Seeded(s, n) && Idle(s, end, n) ==> EndsWith(end, n.id, [], []))
    && (Active(s, end, n) && n.nodeType != "core.loop" ==> HoldsCalls(s, end, n))
  }

  ghost predicate HoldsCalls(s: Setup, end: RunState, n: NodeInstance) {
    !WorkBreaks(s, end, n) &&
    exists out, errors :: WorkGives(s, end, n, out, errors) && EndsWith(end, n.id, out, errors)
  }

  /** What each node holds, reused or not. */
  ghost predicate Holds(s: Setup, end: RunState, n: NodeInstance) {
    if Reusable(s, end, n) then HoldsRecord(s, end, n) else HoldsWork(s, end, n)
  }

  /** A node that holds what its outcome on the state stores. */
  ghost predicate Stands(s: Setup, end: RunState, n: NodeInstance) {
    var o := NodeOutcome(s, end, n);
    o.Stores? && EndsWith(end, n.id, o.output, o.errors)
  }

  lemma {:induction false} OutcomeHolds(s: Setup, end: RunState, n: NodeInstance)
    requires Stands(s, end, n)
    ensures Holds(s, end, n) && (NodeOutcome(s, end, n).reused <==> Reusable(s, end, n))
  {
    RestOutcome(s, end, n);
    if Active(s, end, n) {
      WorkOutcome(s, end, n);
      assert n.nodeType != "core.loop" ==> HoldsCalls(s, end, n);
    }
  }

  lemma {:induction false} LoopRuns(s: Setup, end: RunState, n: NodeInstance)
    requires NodeOutcome(s, end, n).EntersLoop?
    ensures !Reusable(s, end, n) && HoldsWork(s, end, n)
  {
    OnlyLoopsEnter(s, end, n);
    RestOutcome(s, end, n);
  }

  /** In a run that went well every node of the list ends with what it sends on the final outputs of what feeds it. */
  lemma {:induction false} NodesHold(s: Setup, order: seq<NodeInstance>, at: Option<NodeId>, a: Log, n: NodeInstance)
    requires IsRun(s, order, at, a) && a.ok && NothingOf(a.start, n.id) && n in ListAt(s, order, at)
    ensures Holds(s, a.end, n)
    ensures !IsLoop(n) ==> (n.id in a.end.reused <==> n.id in a.start.reused || Reusable(s, a.end, n))
  {
    var k := TurnTaken(s, order, at, a, n);
    StoredEnds(s, order, at, a, n, k);
    if NodeOutcome(s, a.end, n).Stores? {
      OutcomeHolds(s, a.end, n);
    } else {
      OnlyLoopsEnter(s, a.end, n);
      LoopRuns(s, a.end, n);
    }
  }

  lemma Cleared(st: RunState, body: seq<NodeInstance>, lp: NodeId, batch: seq<Item>, n: NodeInstance)
    requires n in body && n.id != lp
    ensures NothingOf(BeforePass(st, body, lp, batch), n.id)
  {
    assert n.id in Ids(body);
  }

  lemma NotItsOwner(s: Setup, order: seq<NodeInstance>, lp: NodeId, id: NodeId)
    requires Planned(s, order) && OwnerOf(s.owner, id) == Some(lp)
    ensures id != lp && id in s.owner
  {
    OwnerIsLarger(s, order, id);
  }

  lemma {:induction false} PassStartsClean(s: Setup, order: seq<NodeInstance>, lp: NodeInstance, p: Pass,
      n: NodeInstance)
    requires Planned(s, order) && n in OwnedNodes(s, order, lp)
    ensures NothingOf(PassLog(s, order, lp, p).start, n.id) && n.id in s.owner
  {
    NotItsOwner(s, order, lp.id, n.id);
    Cleared(p.before, OwnedNodes(s, order, lp), lp.id, p.batch, n);
  }

  lemma OwnedRuns(s: Setup, end: RunState, n: NodeInstance)
    requires n.id in s.owner && Holds(s, end, n)
    ensures HoldsWork(s, end, n)
  {
  }

  /** And so at the end of every pass over a body that went well: nothing is left over from the pass before. */
  lemma {:induction false} PassHolds(s: Setup, order: seq<NodeInstance>, lp: NodeInstance, p: Pass, n: NodeInstance)
    requires Planned(s, order) && lp in s.w.nodes && IsLoop(lp) && PassRan(s, order, lp, p) && p.ok
    requires n in OwnedNodes(s, order, lp)
    ensures HoldsWork(s, p.after, n)
  {
    var a := PassLog(s, order, lp, p);
    PassIsRun(s, order, lp, p);
    PassStartsClean(s, order, lp, p, n);
    NodesHold(s, order, Some(lp.id), a, n);
    OwnedRuns(s, a.end, n);
  }

  lemma {:induction false} StillActive(s: Setup, order: seq<NodeInstance>, at: Option<NodeId>, a: Log, lp: NodeInstance,
      k: nat)
    requires TookTurn(s, order, at, a, lp, k) && Active(s, a.end, lp) && lp.nodeType == "core.loop"
    ensures Active(s, a.turns[k].before, lp) && lp.nodeType in s.registry
    ensures Received(s, a.turns[k].before, lp.id) == Received(s, a.end, lp.id)
  {
    StoredEnds(s, order, at, a, lp, k);
    RestOutcome(s, a.end, lp);
    WorkOutcome(s, a.end, lp);
    RestOutcome(s, a.turns[k].before, lp);
    WorkOutcome(s, a.turns[k].before, lp);
  }

  /** A loop of the list that ran: in the passes of its turn it sent, batch by batch, what its links carry at the end,
      and it ends with what came back in them on its first port, and nothing on the second. */
  ghost predicate LoopHolds(s: Setup, order: seq<NodeInstance>, end: RunState, lp: NodeInstance, t: Turn) {
    && PassesRan(s, order, lp, t.before, t.passes) && GoodBatches(t.passes, BatchSize(lp.parameters))
    && Concat(BatchesOf(t.passes)) == Received(s, end, lp.id)
    && lp.id in end.produced && end.produced[lp.id] == [AllReturned(s, t.passes, lp.id), []]
  }

  lemma {:induction false} LoopsHold(s: Setup, order: seq<NodeInstance>, at: Option<NodeId>, a: Log, lp: NodeInstance)
    returns (t: Turn)
    requires IsRun(s, order, at, a) && a.ok && NothingOf(a.start, lp.id) && lp in ListAt(s, order, at)
    requires Active(s, a.end, lp) && lp.nodeType == "core.loop"
    ensures t in a.turns && LoopHolds(s, order, a.end, lp, t)
  {
    var k := TurnTaken(s, order, at, a, lp);
    t := a.turns[k];
    StillActive(s, order, at, a, lp, k);
    WentWell(s, order, at, a, lp, k);
    ListSettles(s, order, at, a, k);
    LoopWorks(s, order, lp, t);
  }

  // ---- The start ------------------------------------------------------------------------------------------------

  lemma FirstIsTop(s: Setup, order: seq<NodeInstance>)
    requires Planned(s, order) && order != []
    ensures order[0] in ListAt(s, order, None)
  {
    if order[0].id in s.owner {
      var id, lp := order[0].id, s.owner[order[0].id];
      OrderGivesRank(s.w, order);
      assert Positions(order)[id] == 0;
      assert IsOwner(s.w, id, lp);
      BodyComesAfter(s.w, Positions(order), lp);
      assert false;
    } else {
      assert order[0] in order;
    }
  }

  /** An enabled start that was given a trigger's items and is not reused ends with them on one port. */
  lemma {:induction false} StartHolds(s: Setup, order: seq<NodeInstance>, a: Log)
    requires IsRun(s, order, None, a) && a.ok && a.start == NOTHING && order != []
    requires s.start == Some(order[0].id) && s.trigger.Some? && !order[0].disabled && order[0].id !in a.end.reused
    ensures EndsWith(a.end, order[0].id, [s.trigger.value], [])
  {
    FirstIsTop(s, order);
    NodesHold(s, order, None, a, order[0]);
    ReusableNoLoop(s, a.end, order[0]);
  }

  lemma ReusableNoLoop(s: Setup, end: RunState, n: NodeInstance)
    ensures Reusable(s, end, n) ==> !IsLoop(n)
  {
  }
}
