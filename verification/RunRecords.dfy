/** The records a run leaves (`persist_node_output`, src/execution_runner.rs), over every interleaving of `run_graph`
    (src/engine.rs): which nodes have one, and what it says of what the node did. */
module RunRecords {

  import opened Workflows
  import opened NodeRuns
  import opened RunGraph
  import opened NodeTurns
  import Ends = RunEnds

  // ---- Every node that got that far has one ---------------------------------------------------------------------

  ghost predicate FinishedRecorded(list: seq<NodeInstance>, k: Config) {
    && (forall i :: i in k.finished && i < |list| ==> list[i].id in k.records)
    && (forall i :: i in k.running && k.running[i].Reported? && i < |list| ==> list[i].id in k.records)
  }

  /** In every run, broken ones too, each node that finished has a record. */
  lemma {:induction false} FinishedAreRecorded(s: Setup, prints: map<NodeId, string>, list: seq<NodeInstance>,
      t: seq<Config>, m: nat)
    requires Trace(s, prints, list, t) && m < |t|
    ensures FinishedRecorded(list, t[m])
  {
    if m > 0 {
      FinishedAreRecorded(s, prints, list, t, m - 1);
      assert Next(s, prints, list, t[m - 1], t[m]);
      var i: nat :| Step(s, prints, list, t[m - 1], t[m], i);
      StepRecords(s, prints, list, t[m - 1], t[m], i);
    }
  }

  lemma StepRecords(s: Setup, prints: map<NodeId, string>, list: seq<NodeInstance>, k: Config, k': Config, i: nat)
    requires FinishedRecorded(list, k) && Step(s, prints, list, k, k', i)
    ensures FinishedRecorded(list, k')
  {
  }

  // ---- What a record says ---------------------------------------------------------------------------------------

  /** A call on what arrived failed. */
  ghost predicate WorkFails(s: Setup, seen: RunState, n: NodeInstance) {
    && n.nodeType in s.registry
    && exists groups, k ::
         && ByInput(s, seen, n.id, groups) && 0 <= k < CallCount(s.registry[n.nodeType], Received(s, seen, n.id))
         && Call(s.registry[n.nodeType], n, Received(s, seen, n.id), groups, k).Failed?
  }

  /** Skipped is a node that did nothing for want of items or being disabled, errored one of whose calls some failed;
      all others, reused ones included, are successes. */
  ghost predicate StatusFits(s: Setup, seen: RunState, n: NodeInstance, status: RunStatus) {
    && (status.Skipped? <==> !Reusable(s, seen, n) && (n.disabled || (!Seeded(s, n) && Idle(s, seen, n))))
    && (status.Errored? <==> Active(s, seen, n) && WorkFails(s, seen, n))
  }

  lemma {:induction false} ExecuteStatus(s: Setup, n: NodeInstance, t: NodeType, items: seq<Item>,
      groups: seq<seq<Item>>)
    requires Execute(s, n, t, items, groups).Stores?
    ensures Execute(s, n, t, items, groups).status == if SomeFailed(n, t, items, groups) then Errored else Success
  {
    var batches, shown := Batches(t, items), Shown(t, groups);
    CallsMeaning(t.work, n, batches, shown, items, ErrorRoute(s.w, n.id));
    forall k | 0 <= k < |batches|
      ensures k < CallCount(t, items)
      ensures CallOn(t.work, n, batches[k], shown, items) == Call(t, n, items, groups, k)
    {
      CallIs(t, n, items, groups, 0);
      CallIs(t, n, items, groups, k);
    }
    if SomeFailed(n, t, items, groups) {
      CallIs(t, n, items, groups, 0);
      var k :| 0 <= k < CallCount(t, items) && Call(t, n, items, groups, k).Failed?;
      assert batches[k] in batches;
    }
  }

  ghost predicate SomeFailed(n: NodeInstance, t: NodeType, items: seq<Item>, groups: seq<seq<Item>>) {
    exists k :: 0 <= k < CallCount(t, items) && Call(t, n, items, groups, k).Failed?
  }

  lemma {:induction false} WorkStatus(s: Setup, seen: RunState, n: NodeInstance)
    requires Active(s, seen, n) && n.nodeType in s.registry && !IsLoop(n)
    requires NodeOutcome(s, seen, n).Stores?
    ensures NodeOutcome(s, seen, n).status == if WorkFails(s, seen, n) then Errored else Success
  {
    ReusableIs(s, seen, n);
    LinksInto(s, n.id);
    GatherIsReceived(s, seen, n.id);
    GroupsByInput(s, seen, n.id);
    var t, items, groups := s.registry[n.nodeType], Received(s, seen, n.id), Groups(s.Links(), seen, n.id);
    ExecuteStatus(s, n, t, items, groups);
    if WorkFails(s, seen, n) {
      var other, k :| ByInput(s, seen, n.id, other) && 0 <= k < CallCount(t, items) &&
        Call(t, n, items, other, k).Failed?;
      OneGrouping(s, seen, n.id, groups, other);
    }
  }

  lemma {:induction false} OutcomeStatus(s: Setup, seen: RunState, n: NodeInstance)
    requires NodeOutcome(s, seen, n).Stores? && !IsLoop(n)
    ensures StatusFits(s, seen, n, NodeOutcome(s, seen, n).status)
  {
    RestOutcome(s, seen, n);
    if Active(s, seen, n) {
      WorkOutcome(s, seen, n);
      WorkStatus(s, seen, n);
    }
  }

  /** At the end of a run each node did what it does on the final state. */
  lemma {:induction false} EndOutcome(s: Setup, prints: map<NodeId, string>, list: seq<NodeInstance>, k: Config, i: nat)
    requires Runnable(s, list) && Inv(s, prints, list, k) && k.status == Succeeded && i < |list|
    ensures NodeOutcome(s, k.st, list[i]) == Expected(s, list, i) && Ends.Stands(s, k.st, list[i])
    ensures list[i].id in k.st.reused <==> Expected(s, list, i).reused
  {
    assert NodeInv(s, list, k, i);
    ReadsAsInOrder(s, prints, list, k, i);
  }

  lemma {:induction false} EndRecord(s: Setup, prints: map<NodeId, string>, list: seq<NodeInstance>, k: Config, i: nat)
    requires Runnable(s, list) && Inv(s, prints, list, k) && i < |list| && list[i].id in k.records
    ensures k.records[list[i].id] == Record(Expected(s, list, i), PrintOf(prints, list[i].id))
    ensures Expected(s, list, i).Stores?
  {
    var j :| 0 <= j < |list| && list[j].id == list[i].id && Recorded(s, prints, list, k, j);
    assert i == j;
  }

  /** The record says what the node ended with, how it went, and its fingerprint. */
  ghost predicate Tells(s: Setup, prints: map<NodeId, string>, end: RunState, n: NodeInstance, r: NodeRun) {
    && Ends.EndsWith(end, n.id, r.outputs, r.errorItems)
    && r.fingerprint == (if n.id in prints then Some(prints[n.id]) else None)
    && StatusFits(s, end, n, r.status)
  }

  lemma {:induction false} OutcomeTells(s: Setup, prints: map<NodeId, string>, end: RunState, n: NodeInstance)
    requires !IsLoop(n) && Ends.Stands(s, end, n)
    ensures Tells(s, prints, end, n, Record(NodeOutcome(s, end, n), PrintOf(prints, n.id)))
  {
    OutcomeStatus(s, end, n);
  }

  /** In every interleaving that goes well each node leaves a record that tells what it ended with. */
  lemma {:induction false} RecordTells(s: Setup, prints: map<NodeId, string>, list: seq<NodeInstance>, t: seq<Config>,
      i: nat)
    requires Runnable(s, list) && Trace(s, prints, list, t) && t[|t| - 1].status == Succeeded && i < |list|
    ensures var end := t[|t| - 1];
            list[i].id in end.records && Tells(s, prints, end.st, list[i], end.records[list[i].id])
  {
    var end := t[|t| - 1];
    TraceInv(s, prints, list, t, |t| - 1);
    FinishedAreRecorded(s, prints, list, t, |t| - 1);
    EndRecord(s, prints, list, end, i);
    EndOutcome(s, prints, list, end, i);
    OutcomeTells(s, prints, end.st, list[i]);
  }

  /** And each node holds what it sends on the final outputs of what feeds it. */
  lemma {:induction false} NodesHold(s: Setup, prints: map<NodeId, string>, list: seq<NodeInstance>, t: seq<Config>,
      i: nat)
    requires Runnable(s, list) && Trace(s, prints, list, t) && t[|t| - 1].status == Succeeded && i < |list|
    ensures var end, n := t[|t| - 1].st, list[i];
            Ends.Holds(s, end, n) && (n.id in end.reused <==> Reusable(s, end, n))
  {
    var end := t[|t| - 1];
    TraceInv(s, prints, list, t, |t| - 1);
    EndOutcome(s, prints, list, end, i);
    Ends.OutcomeHolds(s, end.st, list[i]);
  }
}
