/** Lineage in the stack machine (src/n8n/engine.rs): every scheduled input names the run and output it came
    from, and following that name gives exactly the items, at any later time. */
module StackLineage {

  import opened Workflows
  import opened StackMachine

  /** Source and input are filled together, and the source leads to the items. */
  ghost predicate Traced(rd: RunData, e: Entry) {
    |e.inputs| == |e.source| && forall k :: 0 <= k < |e.inputs| ==> SlotTraced(rd, e.inputs[k], e.source[k])
  }

  ghost predicate SlotTraced(rd: RunData, input: Option<seq<FlowItem>>, source: Option<Source>) {
    && (input.Some? <==> source.Some?)
    && (input.Some? ==> input.value != [] && OutputAt(rd, source.value) == input.value)
  }

  ghost predicate AllTraced(rd: RunData, es: seq<Entry>) {
    forall e :: e in es ==> Traced(rd, e)
  }

  ghost predicate ParcelTraced(rd: RunData, p: Parcel) {
    p.items != [] && OutputAt(rd, p.source) == p.items
  }

  // ---- Run data only grows --------------------------------------------------------------------------------------

  ghost predicate Grows(a: RunData, b: RunData) {
    forall name :: RunsOf(a, name) <= RunsOf(b, name)
  }

  lemma GrownLeadsOn(a: RunData, b: RunData, src: Source)
    requires Grows(a, b) && OutputAt(a, src) != []
    ensures OutputAt(b, src) == OutputAt(a, src)
  {
    assert RunsOf(a, src.node) <= RunsOf(b, src.node);
  }

  lemma GrownTraced(a: RunData, b: RunData, es: seq<Entry>)
    requires Grows(a, b) && AllTraced(a, es)
    ensures AllTraced(b, es)
  {
    forall e | e in es ensures Traced(b, e) {
      assert Traced(a, e);
      forall k | 0 <= k < |e.inputs| ensures SlotTraced(b, e.inputs[k], e.source[k]) {
        assert SlotTraced(a, e.inputs[k], e.source[k]);
        if e.inputs[k].Some? { GrownLeadsOn(a, b, e.source[k].value); }
      }
    }
  }

  lemma PushGrows(rd: RunData, name: NodeId, task: Task)
    ensures Grows(rd, PushTask(rd, name, task))
  {
  }

  lemma {:induction false} PushAllGrows(rd: RunData, subs: seq<(NodeId, Task)>)
    ensures Grows(rd, PushAll(rd, subs))
    decreases |subs|
  {
    if subs != [] {
      var next := PushTask(rd, subs[0].0, subs[0].1);
      PushGrows(rd, subs[0].0, subs[0].1);
      PushAllGrows(next, subs[1..]);
      forall name ensures RunsOf(rd, name) <= RunsOf(PushAll(rd, subs), name) {
        assert RunsOf(rd, name) <= RunsOf(next, name) <= RunsOf(PushAll(next, subs[1..]), name);
      }
    }
  }

  lemma {:induction false} PushAllElsewhere(rd: RunData, subs: seq<(NodeId, Task)>, name: NodeId)
    requires forall sub :: sub in subs ==> sub.0 != name
    ensures RunsOf(PushAll(rd, subs), name) == RunsOf(rd, name)
    decreases |subs|
  {
    if subs != [] {
      assert subs[0] in subs;
      PushAllElsewhere(PushTask(rd, subs[0].0, subs[0].1), subs[1..], name);
    }
  }

  // ---- What a run sends leads back to it ------------------------------------------------------------------------

  lemma {:induction false} ToTargetsSource(w: Flow, ts: seq<Target>, items: seq<FlowItem>, src: Source, p: Parcel)
    requires p in ToTargets(w, ts, items, src)
    ensures p.items == items && p.source == src
    ensures Find(w.nodes, p.node).Some? && Target(p.node, p.slot) in ts
  {
    var head := if Find(w.nodes, ts[0].node).Some? then [Parcel(ts[0].node, ts[0].index, items, src)] else [];
    if p !in head {
      ToTargetsSource(w, ts[1..], items, src, p);
    }
  }

  lemma {:induction false} ParcelsSource(w: Flow, name: NodeId, outputs: FlowOutput, run: nat, from: nat, p: Parcel)
    requires from <= |outputs| && p in Parcels(w, name, outputs, run, from)
    ensures p.source.node == name && p.source.run == run && p.source.output < |outputs|
    ensures p.items == outputs[p.source.output] && p.items != []
    ensures Find(w.nodes, p.node).Some? && Target(p.node, p.slot) in Children(w, name, p.source.output)
    decreases |outputs| - from
  {
    var head := if outputs[from] == [] then [] else ToTargets(w, Children(w, name, from), outputs[from],
      Source(name, from, run));
    if p in head {
      ToTargetsSource(w, Children(w, name, from), outputs[from], Source(name, from, run), p);
    } else {
      ParcelsSource(w, name, outputs, run, from + 1, p);
    }
  }

  lemma {:induction false} SentIsTraced(w: Flow, rd: RunData, e: Entry, subs: seq<(NodeId, Task)>,
      outputs: FlowOutput, p: Parcel)
    requires forall sub :: sub in subs ==> sub.0 != e.node
    requires p in SentBy(w, rd, e, outputs)
    ensures ParcelTraced(PushTask(PushAll(rd, subs), e.node, Task(e.source, Some(outputs))), p)
  {
    PushAllElsewhere(rd, subs, e.node);
    ParcelsSource(w, e.node, outputs, |RunsOf(rd, e.node)|, 0, p);
  }

  // ---- Scheduling keeps it --------------------------------------------------------------------------------------

  lemma PutInTraced(rd: RunData, e: Entry, p: Parcel)
    requires Traced(rd, e) && ParcelTraced(rd, p)
    ensures Traced(rd, PutIn(e, p))
  {
  }

  lemma BlankTraced(rd: RunData, node: NodeId, inputs: nat)
    ensures Traced(rd, Blank(node, inputs))
  {
  }

  lemma {:induction false} FillTraced(rd: RunData, waiting: seq<Entry>, p: Parcel, inputs: nat)
    requires AllTraced(rd, waiting) && ParcelTraced(rd, p)
    ensures var r := Fill(waiting, p, inputs); AllTraced(rd, r.ready) && AllTraced(rd, r.waiting)
  {
    if waiting == [] {
      BlankTraced(rd, p.node, inputs);
      PutInTraced(rd, Blank(p.node, inputs), p);
    } else if Misses(waiting[0], p.node, p.slot) {
      PutInTraced(rd, waiting[0], p);
    } else {
      FillTraced(rd, waiting[1..], p, inputs);
    }
  }

  ghost predicate PendingTraced(rd: RunData, pending: Pending) {
    AllTraced(rd, pending.ready) && AllTraced(rd, pending.waiting)
  }

  lemma DeliverTraced(w: Flow, rd: RunData, p: Parcel, pending: Pending)
    requires PendingTraced(rd, pending) && ParcelTraced(rd, p)
    ensures PendingTraced(rd, Deliver(w, p, pending))
  {
    FillTraced(rd, pending.waiting, p, ConnectedInputs(w, p.node));
  }

  lemma {:induction false} DeliverAllTraced(w: Flow, rd: RunData, ps: seq<Parcel>, pending: Pending)
    requires PendingTraced(rd, pending) && forall p :: p in ps ==> ParcelTraced(rd, p)
    ensures PendingTraced(rd, DeliverAll(w, ps, pending))
  {
    if ps != [] {
      DeliverTraced(w, rd, ps[0], pending);
      DeliverAllTraced(w, rd, ps[1..], Deliver(w, ps[0], pending));
    }
  }

  lemma {:induction false} SortSame(w: Flow, s: seq<Entry>, x: Entry)
    ensures x in SortEntries(w, s) <==> x in s
  {
    if s != [] {
      SortSame(w, s[1..], x);
      InsertSame(w, s[0], SortEntries(w, s[1..]), x);
      assert s == [s[0]] + s[1..];
    }
  }

  lemma {:induction false} InsertSame(w: Flow, e: Entry, s: seq<Entry>, x: Entry)
    ensures x in InsertEntry(w, e, s) <==> x == e || x in s
  {
    if s != [] && Before(PositionOf(w, s[0]), PositionOf(w, e)) {
      InsertSame(w, e, s[1..], x);
      assert s == [s[0]] + s[1..];
    }
  }

  lemma ScheduleTraced(w: Flow, v1: bool, rd: RunData, ps: seq<Parcel>, stack: seq<Entry>, waiting: seq<Entry>)
    requires AllTraced(rd, stack) && AllTraced(rd, waiting) && forall p :: p in ps ==> ParcelTraced(rd, p)
    ensures var r := Schedule(w, v1, ps, stack, waiting); AllTraced(rd, r.0) && AllTraced(rd, r.1)
  {
    DeliverAllTraced(w, rd, ps, Pending([], waiting));
    var ready := DeliverAll(w, ps, Pending([], waiting)).ready;
    forall x ensures x in SortEntries(w, ready) <==> x in ready { SortSame(w, ready, x); }
  }

  lemma TurnTraced(w: Flow, v1: bool, m: Machine, o: Outcome)
    requires CanPop(m) && OwnSubs(Popped(m), o)
    requires AllTraced(m.rd, AfterPop(m).stack) && AllTraced(m.rd, AfterPop(m).waiting)
    ensures var m' := Turn(w, v1, m, o); AllTraced(m'.rd, m'.stack) && AllTraced(m'.rd, m'.waiting)
  {
    var e, rest := Popped(m), AfterPop(m);
    if m.left > 0 {
      var rd := Recorded(m.rd, e, o);
      RecordedGrows(m.rd, e, o);
      GrownTraced(m.rd, rd, rest.stack);
      GrownTraced(m.rd, rd, rest.waiting);
      if o.Finished? {
        var ps := SentBy(w, m.rd, e, o.outputs);
        forall p | p in ps ensures ParcelTraced(rd, p) { SentIsTraced(w, m.rd, e, o.subs, o.outputs, p); }
        ScheduleTraced(w, v1, rd, ps, rest.stack, rest.waiting);
      }
    }
  }

  lemma TurnGrows(w: Flow, v1: bool, m: Machine, o: Outcome)
    requires CanPop(m)
    ensures Grows(m.rd, Turn(w, v1, m, o).rd)
  {
    RecordedGrows(m.rd, Popped(m), o);
  }

  lemma RecordedGrows(rd: RunData, e: Entry, o: Outcome)
    ensures Grows(rd, Recorded(rd, e, o))
  {
    PushAllGrows(rd, o.subs);
    if o.Finished? || o.own.Some? {
      var task := Task(e.source, if o.Finished? then Some(o.outputs) else o.own.value);
      PushGrows(PushAll(rd, o.subs), e.node, task);
      GrowsOn(rd, PushAll(rd, o.subs), PushTask(PushAll(rd, o.subs), e.node, task));
    }
  }

  lemma GrowsOn(a: RunData, b: RunData, c: RunData)
    requires Grows(a, b) && Grows(b, c)
    ensures Grows(a, c)
  {
    forall name ensures RunsOf(a, name) <= RunsOf(c, name) {
      assert RunsOf(a, name) <= RunsOf(b, name) <= RunsOf(c, name);
    }
  }

  /** After the first turn every entry in the stack and every waiting set is traced, in every execution. */
  lemma {:induction false} EveryEntryTraced(w: Flow, v1: bool, t: seq<Machine>, os: seq<Outcome>, e: Entry,
      rd: RunData, n: nat)
    requires Run(w, v1, t, os, e, rd) && 0 < n <= |os|
    ensures AllTraced(t[n].rd, t[n].stack) && AllTraced(t[n].rd, t[n].waiting)
  {
    RunStep(w, v1, t, os, e, rd, n - 1);
    if n > 1 {
      EveryEntryTraced(w, v1, t, os, e, rd, n - 1);
    }
    TurnTraced(w, v1, t[n - 1], os[n - 1]);
  }

  lemma {:induction false} RunDataGrows(w: Flow, v1: bool, t: seq<Machine>, os: seq<Outcome>, e: Entry, rd: RunData,
      n: nat, m: nat)
    requires Run(w, v1, t, os, e, rd) && 0 < n <= m <= |os|
    ensures Grows(t[n].rd, t[m].rd)
  {
    if n < m {
      RunDataGrows(w, v1, t, os, e, rd, n, m - 1);
      RunStep(w, v1, t, os, e, rd, m - 1);
      TurnGrows(w, v1, t[m - 1], os[m - 1]);
      GrowsOn(t[n].rd, t[m - 1].rd, t[m].rd);
    }
  }

  /** And they stay traced, whatever runs later. */
  lemma StaysTraced(w: Flow, v1: bool, t: seq<Machine>, os: seq<Outcome>, e: Entry, rd: RunData, n: nat, m: nat)
    requires Run(w, v1, t, os, e, rd) && 0 < n <= m <= |os|
    ensures AllTraced(t[m].rd, t[n].stack) && AllTraced(t[m].rd, t[n].waiting)
  {
    EveryEntryTraced(w, v1, t, os, e, rd, n);
    RunDataGrows(w, v1, t, os, e, rd, n, m);
    GrownTraced(t[n].rd, t[m].rd, t[n].stack);
    GrownTraced(t[n].rd, t[m].rd, t[n].waiting);
  }
}
