/** The order of the stack machine's turns around its join sets (src/n8n/engine.rs): how many inputs a set waits for, in
    which order sets and other entries become ready, and that of the sets still waiting the oldest runs first. */
module StackWaiting {

  import opened Sequences
  import opened Workflows
  import opened StackMachine
  import opened StackLineage
  import opened StackJoins
  import opened StackConservation
  import opened StackOrder
  import opened StackDeliveries

  // ---- How many inputs a node has -------------------------------------------------------------------------------

  /** Some link of the workflow enters an input of the node from the `k`-th on. */
  ghost predicate EnteredFrom(w: Flow, name: NodeId, k: nat) {
    exists n, o, t :: n in w.nodes && t in Children(w, n.name, o) && t.node == name && t.index >= k
  }

  lemma {:induction false} HighestTarget(ts: seq<Target>, name: NodeId) returns (t: Target)
    requires InputsInTargets(ts, name) > 0
    ensures t in ts && t.node == name && t.index + 1 == InputsInTargets(ts, name)
  {
    if ts[0].node == name && ts[0].index + 1 == InputsInTargets(ts, name) {
      t := ts[0];
    } else {
      t := HighestTarget(ts[1..], name);
    }
  }

  lemma {:induction false} HighestOutput(outs: seq<seq<Target>>, name: NodeId) returns (o: nat, t: Target)
    requires InputsInOutputs(outs, name) > 0
    ensures o < |outs| && t in outs[o] && t.node == name && t.index + 1 == InputsInOutputs(outs, name)
  {
    if InputsInTargets(outs[0], name) == InputsInOutputs(outs, name) {
      o := 0;
      t := HighestTarget(outs[0], name);
    } else {
      o, t := HighestOutput(outs[1..], name);
      assert outs[o + 1] == outs[1..][o];
      o := o + 1;
    }
  }

  lemma {:induction false} HighestNode(w: Flow, nodes: seq<Node>, name: NodeId) returns (n: Node, o: nat, t: Target)
    requires InputsIn(w, nodes, name) > 0
    ensures n in nodes && t in Children(w, n.name, o) && t.node == name && t.index + 1 == InputsIn(w, nodes, name)
  {
    if InputsInOutputs(OutputsOf(w, nodes[0].name), name) == InputsIn(w, nodes, name) {
      n := nodes[0];
      o, t := HighestOutput(OutputsOf(w, n.name), name);
    } else {
      n, o, t := HighestNode(w, nodes[1..], name);
    }
  }

  /** A node has inputs exactly up to the highest that a link enters. */
  lemma ConnectedExactly(w: Flow, name: NodeId, k: nat)
    ensures k < ConnectedInputs(w, name) <==> EnteredFrom(w, name, k)
  {
    if k < ConnectedInputs(w, name) { var n, o, t := HighestNode(w, w.nodes, name); }
    if EnteredFrom(w, name, k) {
      var n, o, t :| n in w.nodes && t in Children(w, n.name, o) && t.node == name && t.index >= k;
      NodeCounted(w, w.nodes, n, o, t);
    }
  }

  ghost predicate Entered(w: Flow, name: NodeId, k: nat) {
    exists n, o, t :: n in w.nodes && t in Children(w, n.name, o) && t.node == name && t.index == k
  }

  /** The inputs of a node that some link enters. */
  ghost function EnteredInputs(w: Flow, name: NodeId): set<nat> {
    set k | 0 <= k < ConnectedInputs(w, name) && Entered(w, name, k)
  }

  ghost function Below(n: nat): (s: set<nat>)
    ensures |s| == n && forall k :: k in s <==> 0 <= k < n
  {
    if n == 0 then {} else Below(n - 1) + {n - 1}
  }

  lemma EnteredIsConnected(w: Flow, name: NodeId, k: nat)
    ensures k in EnteredInputs(w, name) <==> Entered(w, name, k)
  {
    if Entered(w, name, k) {
      assert EnteredFrom(w, name, k);
      ConnectedExactly(w, name, k);
    }
  }

  lemma AllBelow(s: set<nat>, n: nat)
    requires forall k :: k in s ==> k < n
    ensures |s| == n <==> forall k :: 0 <= k < n ==> k in s
  {
    SubsetCount(s, Below(n));
    if forall k :: 0 <= k < n ==> k in s { assert s == Below(n); }
  }

  /** That is the number of distinct inputs with a link exactly when no input below the highest is without one. */
  lemma CountIffNoGap(w: Flow, name: NodeId)
    ensures |EnteredInputs(w, name)| == ConnectedInputs(w, name) <==>
            forall k :: 0 <= k < ConnectedInputs(w, name) ==> k in EnteredInputs(w, name)
  {
    AllBelow(EnteredInputs(w, name), ConnectedInputs(w, name));
  }

  /** A node with a link into its second input only counts two inputs. */
  lemma GapCounted() returns (w: Flow, name: NodeId)
    ensures ConnectedInputs(w, name) == 2 && EnteredInputs(w, name) == {1}
  {
    var a, t := NodeId("a"), Target(NodeId("b"), 1);
    name := NodeId("b");
    w := Flow([Node(a, 0.0, 0.0), Node(name, 0.0, 0.0)], map[a := [[t]]]);
    assert w.nodes[0] in w.nodes && t in Children(w, a, 0);
    assert Entered(w, name, 1);
    EnteredIsConnected(w, name, 1);
    ConnectedExactly(w, name, 1);
    ConnectedExactly(w, name, 2);
    forall n, o, u | n in w.nodes && u in Children(w, n.name, o) && u.node == name ensures u.index == 1 {
      assert n.name == a && o == 0;
    }
  }

  // ---- In which order entries become ready ----------------------------------------------------------------------

  /** The entry holds the delivery in its slot. */
  predicate Holds(e: Entry, p: Parcel) {
    && e.node == p.node
    && exists k ::
         0 <= k < |e.inputs| && k < |e.source| && e.inputs[k] == Some(p.items) && e.source[k] == Some(p.source)
  }

  /** Entries, each of them made ready by a later delivery than the one before it. */
  ghost predicate ReadyBy(added: seq<Entry>, ps: seq<Parcel>, last: seq<nat>) {
    && |last| == |added|
    && (forall i, j :: 0 <= i < j < |last| ==> last[i] < last[j])
    && forall i :: 0 <= i < |last| ==> last[i] < |ps| && Holds(added[i], ps[last[i]])
  }

  lemma PutInHolds(e: Entry, p: Parcel)
    requires e.node == p.node && p.slot < |e.inputs| && p.slot < |e.source|
    ensures Holds(PutIn(e, p), p)
  {
    assert PutIn(e, p).inputs[p.slot] == Some(p.items);
  }

  lemma {:induction false} FillReadies(waiting: seq<Entry>, p: Parcel, inputs: nat)
    requires Even(waiting) && p.slot < inputs
    ensures var ready := Fill(waiting, p, inputs).ready; |ready| <= 1 && forall e :: e in ready ==> Holds(e, p)
  {
    if waiting == [] {
      PutInHolds(Blank(p.node, inputs), p);
    } else if Misses(waiting[0], p.node, p.slot) {
      PutInHolds(waiting[0], p);
    } else {
      FillReadies(waiting[1..], p, inputs);
    }
  }

  /** A delivery makes at most one entry ready, which holds it, and puts it behind those that were. */
  lemma DeliverReadies(w: Flow, p: Parcel, pending: Pending) returns (more: seq<Entry>)
    requires Even(pending.waiting) && Fits(w, p)
    ensures Deliver(w, p, pending).ready == pending.ready + more && |more| <= 1
    ensures forall e :: e in more ==> Holds(e, p)
  {
    var inputs := ConnectedInputs(w, p.node);
    if inputs <= 1 {
      more := [Entry(p.node, [Some(p.items)], [Some(p.source)])];
      assert more[0].inputs[0] == Some(p.items);
    } else {
      more := Fill(pending.waiting, p, inputs).ready;
      FillReadies(pending.waiting, p, inputs);
    }
  }

  lemma OneMoreReady(ready: seq<Entry>, more: seq<Entry>, all: seq<Parcel>, last: seq<nat>, at: nat)
    returns (next: seq<nat>)
    requires ReadyBy(ready, all, last) && (forall b :: b in last ==> b < at) && at < |all|
    requires |more| <= 1 && forall e :: e in more ==> Holds(e, all[at])
    ensures ReadyBy(ready + more, all, next) && forall b :: b in next ==> b < at + 1
  {
    next := last + if more == [] then [] else [at];
    forall i, j | 0 <= i < j < |next| ensures next[i] < next[j] { assert last[i] in last; }
    forall i | 0 <= i < |next| ensures next[i] < |all| && Holds((ready + more)[i], all[next[i]]) {
      if i >= |last| { assert (ready + more)[i] == more[0]; }
    }
  }

  lemma {:induction false} DeliverAllReadies(w: Flow, all: seq<Parcel>, from: nat, pending: Pending, last: seq<nat>)
    returns (end: seq<nat>)
    requires Even(pending.waiting) && from <= |all| && forall p :: p in all ==> Fits(w, p)
    requires ReadyBy(pending.ready, all, last) && forall b :: b in last ==> b < from
    ensures ReadyBy(DeliverAll(w, all[from..], pending).ready, all, end)
    decreases |all| - from
  {
    if from == |all| {
      end := last;
    } else {
      var p := all[from];
      var more := DeliverReadies(w, p, pending);
      var next := OneMoreReady(pending.ready, more, all, last, from);
      DeliverConserves(w, p, pending, p);
      end := DeliverAllReadies(w, all, from + 1, Deliver(w, p, pending), next);
      assert all[from..][1..] == all[from + 1..];
    }
  }

  /** What a run's deliveries make ready goes behind the stack in v0, in the order of the deliveries that made it ready,
      and in v1 on top, sorted by place, at one place in that order. */
  lemma {:induction false} AddedInOrder(w: Flow, v1: bool, t: seq<Watched>, os: seq<Outcome>, e: Entry, rd: RunData,
      n: nat) returns (added: seq<Entry>, sorted: seq<Entry>, last: seq<nat>)
    requires WatchedRun(w, v1, t, os, e, rd) && n < |os| && n < 100_000 && CanPop(t[n].m) && Finishes(t, os, n)
    ensures ReadyBy(added, DueInOrder(w, Runner(t, n).node, os[n].outputs, RunsBefore(t, n)), last)
    ensures DownThenRight(w, sorted) && forall place :: AtPlace(w, sorted, place) == AtPlace(w, added, place)
    ensures var left := if t[n].m.stack != [] then t[n].m.stack[1..] else [];
            t[n + 1].m.stack == if v1 then sorted + left else left + added
  {
    WatchedStep(w, v1, t, os, e, rd, n);
    SentInOrder(w, v1, t, os, e, rd, n);
    var ps, rest := SentBy(w, t[n].m.rd, Runner(t, n), os[n].outputs), AfterPop(t[n].m);
    added := DeliverAll(w, ps, Pending([], rest.waiting)).ready;
    EvenWaiting(w, v1, t, os, e, rd, n);
    RunKeeps(w, v1, t, os, e, rd, n);
    forall p | p in ps ensures Fits(w, p) { SentFits(w, t[n].m.rd, Runner(t, n), os[n].outputs, p); }
    assert ps[0..] == ps;
    last := DeliverAllReadies(w, ps, 0, Pending([], rest.waiting), []);
    sorted := SortEntries(w, added);
    SortedAtPlaces(w, added);
  }

  lemma {:induction false} EvenWaiting(w: Flow, v1: bool, t: seq<Watched>, os: seq<Outcome>, e: Entry, rd: RunData,
      n: nat)
    requires WatchedRun(w, v1, t, os, e, rd) && n < |os| && n < MAX_NODE_RUNS && CanPop(t[n].m)
    ensures Even(AfterPop(t[n].m).waiting)
  {
    DeliveriesConserved(w, v1, t, os, e, rd, n, Parcel(e.node, 0, [], Source(e.node, 0, 0)));
  }

  lemma {:induction false} SortedAtPlaces(w: Flow, added: seq<Entry>)
    ensures DownThenRight(w, SortEntries(w, added))
    ensures forall place :: AtPlace(w, SortEntries(w, added), place) == AtPlace(w, added, place)
  {
    ChildrenSortedStably(w, added, (0.0, 0.0));
    forall place ensures AtPlace(w, SortEntries(w, added), place) == AtPlace(w, added, place) {
      ChildrenSortedStably(w, added, place);
    }
  }

  // ---- The oldest set first -------------------------------------------------------------------------------------

  /** The source is the run that has turn `b`. */
  ghost predicate Sends(t: seq<Watched>, b: nat, src: Source) {
    b < |t| && CanPop(t[b].m) && Runner(t, b).node == src.node && RunsBefore(t, b) == src.run
  }

  ghost predicate Together(e: Entry) {
    |e.source| == |e.inputs| && forall k :: 0 <= k < |e.source| ==> (e.source[k].Some? <==> e.inputs[k].Some?)
  }

  ghost predicate SentLater(t: seq<Watched>, b: nat, src: Source) {
    exists c: nat :: b <= c && Sends(t, c, src)
  }

  /** The set got its first delivery in turn `b`. */
  ghost predicate Born(t: seq<Watched>, e: Entry, b: nat) {
    && Together(e)
    && (exists k :: 0 <= k < |e.source| && e.source[k].Some? && Sends(t, b, e.source[k].value))
    && forall k :: 0 <= k < |e.source| && e.source[k].Some? ==> SentLater(t, b, e.source[k].value)
  }

  /** The sets stand in the order in which they got their first delivery, each before turn `n`. */
  ghost predicate Aged(t: seq<Watched>, n: nat, waiting: seq<Entry>, births: seq<nat>) {
    && |births| == |waiting|
    && (forall i, j :: 0 <= i < j < |births| ==> births[i] <= births[j])
    && forall i :: 0 <= i < |births| ==> births[i] < n && Born(t, waiting[i], births[i])
  }

  lemma PutInBorn(t: seq<Watched>, e: Entry, p: Parcel, b: nat, n: nat)
    requires Born(t, e, b) && b <= n && Sends(t, n, p.source) && Misses(e, p.node, p.slot)
    ensures Born(t, PutIn(e, p), b)
  {
    var x := PutIn(e, p);
    var k :| 0 <= k < |e.source| && e.source[k].Some? && Sends(t, b, e.source[k].value);
    assert x.source[k] == e.source[k];
    forall k | 0 <= k < |x.source| && x.source[k].Some? ensures SentLater(t, b, x.source[k].value) {
      if k != p.slot { assert SentLater(t, b, e.source[k].value); }
    }
  }

  lemma BlankBorn(t: seq<Watched>, p: Parcel, inputs: nat, n: nat)
    requires Sends(t, n, p.source) && p.slot < inputs
    ensures Born(t, PutIn(Blank(p.node, inputs), p), n)
  {
    var x := PutIn(Blank(p.node, inputs), p);
    assert x.source[p.slot] == Some(p.source);
    forall k | 0 <= k < |x.source| && x.source[k].Some? ensures SentLater(t, n, x.source[k].value) {}
  }

  lemma AgedTail(t: seq<Watched>, n: nat, waiting: seq<Entry>, births: seq<nat>)
    requires Aged(t, n, waiting, births) && waiting != []
    ensures Aged(t, n, waiting[1..], births[1..])
  {
  }

  lemma AgedCons(t: seq<Watched>, n: nat, e: Entry, b: nat, waiting: seq<Entry>, births: seq<nat>)
    requires Aged(t, n, waiting, births) && Born(t, e, b) && b < n
    requires forall i :: 0 <= i < |births| ==> b <= births[i]
    ensures Aged(t, n, [e] + waiting, [b] + births)
  {
  }

  lemma FirstAges(t: seq<Watched>, n: nat, waiting: seq<Entry>, births: seq<nat>, p: Parcel, inputs: nat)
    returns (after: seq<nat>)
    requires Aged(t, n + 1, waiting, births) && Sends(t, n, p.source)
    requires waiting != [] && Misses(waiting[0], p.node, p.slot)
    ensures Aged(t, n + 1, Fill(waiting, p, inputs).waiting, after)
    ensures forall x :: x in after ==> x in births
  {
    PutInBorn(t, waiting[0], p, births[0], n);
    AgedTail(t, n + 1, waiting, births);
    if Full(PutIn(waiting[0], p)) {
      after := births[1..];
    } else {
      after := [births[0]] + births[1..];
      AgedCons(t, n + 1, PutIn(waiting[0], p), births[0], waiting[1..], births[1..]);
    }
  }

  /** A delivery of turn `n` keeps the sets in order, a new one being the youngest. */
  lemma {:induction false} FillAges(t: seq<Watched>, n: nat, waiting: seq<Entry>, births: seq<nat>, p: Parcel,
      inputs: nat) returns (after: seq<nat>)
    requires Aged(t, n + 1, waiting, births) && Sends(t, n, p.source) && p.slot < inputs
    ensures Aged(t, n + 1, Fill(waiting, p, inputs).waiting, after)
    ensures forall x :: x in after ==> x in births || x == n
  {
    if waiting == [] {
      BlankBorn(t, p, inputs, n);
      after := if Full(PutIn(Blank(p.node, inputs), p)) then [] else [n];
    } else if Misses(waiting[0], p.node, p.slot) {
      after := FirstAges(t, n, waiting, births, p, inputs);
    } else {
      AgedTail(t, n + 1, waiting, births);
      var rest := FillAges(t, n, waiting[1..], births[1..], p, inputs);
      after := [births[0]] + rest;
      forall i | 0 <= i < |rest| ensures births[0] <= rest[i] { assert rest[i] in rest; }
      AgedCons(t, n + 1, waiting[0], births[0], Fill(waiting[1..], p, inputs).waiting, rest);
    }
  }

  lemma {:induction false} DeliverAllAges(w: Flow, t: seq<Watched>, n: nat, ps: seq<Parcel>, pending: Pending,
      births: seq<nat>) returns (after: seq<nat>)
    requires Aged(t, n + 1, pending.waiting, births) && forall p :: p in ps ==> Fits(w, p) && Sends(t, n, p.source)
    ensures Aged(t, n + 1, DeliverAll(w, ps, pending).waiting, after)
  {
    after := births;
    if ps != [] {
      var inputs := ConnectedInputs(w, ps[0].node);
      if inputs > 1 { after := FillAges(t, n, pending.waiting, births, ps[0], inputs); }
      after := DeliverAllAges(w, t, n, ps[1..], Deliver(w, ps[0], pending), after);
    }
  }

  lemma {:induction false} PoppedAges(t: seq<Watched>, n: nat, m: Machine, births: seq<nat>) returns (after: seq<nat>)
    requires CanPop(m) && Aged(t, n, m.waiting, births)
    ensures Aged(t, n + 1, AfterPop(m).waiting, after)
  {
    after := if m.stack != [] then births else births[1..];
  }

  lemma {:induction false} SentHere(w: Flow, v1: bool, t: seq<Watched>, os: seq<Outcome>, e: Entry, rd: RunData, n: nat,
      p: Parcel)
    requires WatchedRun(w, v1, t, os, e, rd) && n < |os| && CanPop(t[n].m) && Finishes(t, os, n)
    requires p in SentBy(w, t[n].m.rd, Runner(t, n), os[n].outputs)
    ensures Fits(w, p) && Sends(t, n, p.source)
  {
    RunKeeps(w, v1, t, os, e, rd, n);
    SentFits(w, t[n].m.rd, Runner(t, n), os[n].outputs, p);
    ParcelsSource(w, Runner(t, n).node, os[n].outputs, RunsBefore(t, n), 0, p);
  }

  /** At any turn the sets wait in order of age. */
  lemma {:induction false} WaitingByAge(w: Flow, v1: bool, t: seq<Watched>, os: seq<Outcome>, e: Entry, rd: RunData,
      n: nat) returns (births: seq<nat>)
    requires WatchedRun(w, v1, t, os, e, rd) && n <= |os|
    ensures Aged(t, n, t[n].m.waiting, births)
  {
    births := [];
    if n > 0 {
      births := WaitingByAge(w, v1, t, os, e, rd, n - 1);
      WatchedStep(w, v1, t, os, e, rd, n - 1);
      births := PoppedAges(t, n - 1, t[n - 1].m, births);
      if Finishes(t, os, n - 1) {
        var ps := SentBy(w, t[n - 1].m.rd, Runner(t, n - 1), os[n - 1].outputs);
        forall p | p in ps ensures Fits(w, p) && Sends(t, n - 1, p.source) { SentHere(w, v1, t, os, e, rd, n - 1, p); }
        births := DeliverAllAges(w, t, n - 1, ps, Pending([], AfterPop(t[n - 1].m).waiting), births);
      }
    }
  }

  /** With nothing on the stack the set that got its first delivery first runs, full or not. */
  lemma {:induction false} OldestFirst(w: Flow, v1: bool, t: seq<Watched>, os: seq<Outcome>, e: Entry, rd: RunData,
      n: nat) returns (births: seq<nat>)
    requires WatchedRun(w, v1, t, os, e, rd) && n < |os| && t[n].m.stack == [] && t[n].m.left > 0
    ensures Aged(t, n, t[n].m.waiting, births) && births != []
    ensures t[n + 1].m.log == t[n].m.log + [t[n].m.waiting[0]]
  {
    births := WaitingByAge(w, v1, t, os, e, rd, n);
    WatchedStep(w, v1, t, os, e, rd, n);
  }

  /** No source is sent in two turns. */
  lemma {:induction false} OneSender(w: Flow, v1: bool, t: seq<Watched>, os: seq<Outcome>, e: Entry, rd: RunData,
      b: nat, c: nat, src: Source)
    requires WatchedRun(w, v1, t, os, e, rd) && b < c < |t| && Sends(t, b, src)
    requires forall n :: b <= n < c ==> CanPop(t[n].m) && Finishes(t, os, n)
    ensures !Sends(t, c, src)
  {
    RunNumbered(w, v1, t, os, e, rd, b, c);
  }

  // ---- The run limit --------------------------------------------------------------------------------------------

  /** An execution runs nodes at most 100 000 times, and unless a node ends it, it is not stopped before that. */
  lemma {:induction false} StopsAtLimit(w: Flow, v1: bool, t: seq<Watched>, os: seq<Outcome>, e: Entry, rd: RunData,
      n: nat)
    requires WatchedRun(w, v1, t, os, e, rd) && n <= |os|
    ensures |t[n].m.log| + t[n].m.left == 100_000
    ensures t[n].m.over && (forall k :: 0 <= k < n ==> os[k].Finished?) ==> |t[n].m.log| == 100_000
  {
    if n > 0 {
      StopsAtLimit(w, v1, t, os, e, rd, n - 1);
      WatchedStep(w, v1, t, os, e, rd, n - 1);
    }
  }
}
