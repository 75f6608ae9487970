/** Joins in the stack machine (src/n8n/engine.rs): how deliveries to a node with several inputs pair up, and
    that every delivery is always in exactly one place. */
module StackJoins {

  import opened Sequences
  import opened Workflows
  import opened StackMachine
  import opened StackLineage

  /** A machine with its history: the parcels sent, the entries made ready, in order, and the nodes one of whose
      sets was started incomplete. */
  datatype Watched = Watched(m: Machine, sent: seq<Parcel>, readied: seq<Entry>, forced: set<NodeId>)

  function WatchTurn(w: Flow, v1: bool, x: Watched, o: Outcome): Watched
    requires CanPop(x.m)
  {
    var e, rest := Popped(x.m), AfterPop(x.m);
    var forced := if x.m.stack == [] then x.forced + {e.node} else x.forced;
    if x.m.left == 0 || o.Ends? then Watched(Turn(w, v1, x.m, o), x.sent, x.readied, forced)
    else
      var ps := SentBy(w, x.m.rd, e, o.outputs);
      Watched(Turn(w, v1, x.m, o), x.sent + ps, DeliverAll(w, ps, Pending(x.readied, rest.waiting)).ready, forced)
  }

  ghost predicate WatchedRun(w: Flow, v1: bool, t: seq<Watched>, os: seq<Outcome>, e: Entry, rd: RunData) {
    && |t| == |os| + 1
    && t[0] == Watched(Begin(e, rd), [], [], {})
    && Find(w.nodes, e.node).Some?
    && forall n :: 0 <= n < |os| ==>
         CanPop(t[n].m) && OwnSubs(Popped(t[n].m), os[n]) && t[n + 1] == WatchTurn(w, v1, t[n], os[n])
  }

  lemma WatchedStep(w: Flow, v1: bool, t: seq<Watched>, os: seq<Outcome>, e: Entry, rd: RunData, n: nat)
    requires WatchedRun(w, v1, t, os, e, rd) && n < |os|
    ensures CanPop(t[n].m) && OwnSubs(Popped(t[n].m), os[n]) && t[n + 1] == WatchTurn(w, v1, t[n], os[n])
  {
  }

  /** A turn uses up one of the runs left, or ends the execution. */
  lemma TurnCounts(w: Flow, v1: bool, x: Watched, o: Outcome)
    requires CanPop(x.m)
    ensures var m := WatchTurn(w, v1, x, o).m; m.over || (x.m.left > 0 && m.left == x.m.left - 1)
  {
  }

  // ---- One node's view ------------------------------------------------------------------------------------------

  function ForNode(es: seq<Entry>, name: NodeId): seq<Entry> {
    if es == [] then []
    else (if es[0].node == name then [es[0]] else []) + ForNode(es[1..], name)
  }

  /** The deliveries to one input, in order. */
  function Column(ps: seq<Parcel>, name: NodeId, slot: nat): seq<Parcel> {
    if ps == [] then []
    else Column(ps[..|ps| - 1], name, slot)
         + (var p := ps[|ps| - 1]; if p.node == name && p.slot == slot then [p] else [])
  }

  lemma {:induction false} ForNodeConcat(a: seq<Entry>, b: seq<Entry>, name: NodeId)
    ensures ForNode(a + b, name) == ForNode(a, name) + ForNode(b, name)
  {
    if a == [] {
      assert a + b == b;
    } else {
      var first := if a[0].node == name then [a[0]] else [];
      ForNodeConcat(a[1..], b, name);
      assert (a + b)[1..] == a[1..] + b;
      Associates(first, ForNode(a[1..], name), ForNode(b, name));
    }
  }

  ghost predicate Sized(e: Entry, name: NodeId, inputs: nat) {
    e.node == name && |e.inputs| == inputs && |e.source| == inputs
  }

  /** The node's waiting sets: none is full, and the filled slots of each input form a prefix. */
  ghost predicate Prefixed(sets: seq<Entry>, name: NodeId, inputs: nat) {
    && (forall i :: 0 <= i < |sets| ==> Sized(sets[i], name, inputs) && !Full(sets[i]))
    && forall s, i, j :: 0 <= s < inputs && 0 <= i < j < |sets| && sets[j].inputs[s].Some? ==> sets[i].inputs[s].Some?
  }

  /** The `i`-th set's slot holds the `i`-th delivery to that input, or nothing yet. */
  ghost predicate Holds(e: Entry, slot: nat, column: seq<Parcel>, i: nat)
    requires slot < |e.inputs| && slot < |e.source|
  {
    if i < |column| then e.inputs[slot] == Some(column[i].items) && e.source[slot] == Some(column[i].source)
    else e.inputs[slot].None? && e.source[slot].None?
  }

  /** Set by set, the deliveries to each input in order. */
  ghost predicate InOrder(all: seq<Entry>, sent: seq<Parcel>, name: NodeId, inputs: nat) {
    && (forall i :: 0 <= i < |all| ==> Sized(all[i], name, inputs))
    && (forall s :: 0 <= s < inputs ==> |Column(sent, name, s)| <= |all|)
    && forall s, i :: 0 <= s < inputs && 0 <= i < |all| ==> Holds(all[i], s, Column(sent, name, s), i)
  }

  /** The completed sets, then the waiting ones. */
  ghost predicate Paired(done: seq<Entry>, sets: seq<Entry>, sent: seq<Parcel>, name: NodeId, inputs: nat) {
    && InOrder(done + sets, sent, name, inputs)
    && (forall i :: 0 <= i < |done| ==> Full(done[i]))
    && forall i :: 0 <= i < |sets| ==> !Full(sets[i])
  }

  lemma {:induction false} ForNodeCons(e: Entry, es: seq<Entry>, name: NodeId)
    ensures ForNode([e] + es, name) == if e.node == name then [e] + ForNode(es, name) else ForNode(es, name)
  {
    assert ([e] + es)[1..] == es;
  }

  lemma {:induction false} FillCons(e: Entry, es: seq<Entry>, p: Parcel, inputs: nat)
    ensures Fill([e] + es, p, inputs) ==
      if Misses(e, p.node, p.slot) then
        var put := PutIn(e, p);
        if Full(put) then Pending([put], es) else Pending([], [put] + es)
      else Pending(Fill(es, p, inputs).ready, [e] + Fill(es, p, inputs).waiting)
  {
    assert ([e] + es)[1..] == es;
  }

  lemma {:induction false} FillSeenByNode(waiting: seq<Entry>, p: Parcel, inputs: nat, name: NodeId)
    ensures var r := Fill(waiting, p, inputs);
            if name == p.node then
              var own := Fill(ForNode(waiting, name), p, inputs);
              ForNode(r.waiting, name) == own.waiting && r.ready == own.ready && ForNode(r.ready, name) == own.ready
            else ForNode(r.waiting, name) == ForNode(waiting, name) && ForNode(r.ready, name) == []
  {
    if waiting != [] {
      var e, es := waiting[0], waiting[1..];
      assert waiting == [e] + es;
      FillSeenByNode(es, p, inputs, name);
      FillCons(e, es, p, inputs);
      ForNodeCons(e, es, name);
      FillCons(e, ForNode(es, name), p, inputs);
      ForNodeCons(PutIn(e, p), es, name);
      ForNodeCons(PutIn(e, p), [], name);
      ForNodeCons(e, Fill(es, p, inputs).waiting, name);
    }
  }

  /** Sets that do not miss the input are passed over. */
  lemma {:induction false} FillSkips(passed: seq<Entry>, rest: seq<Entry>, p: Parcel, inputs: nat)
    requires forall i :: 0 <= i < |passed| ==> !Misses(passed[i], p.node, p.slot)
    ensures Fill(passed + rest, p, inputs) ==
            Pending(Fill(rest, p, inputs).ready, passed + Fill(rest, p, inputs).waiting)
  {
    if passed == [] {
      assert passed + rest == rest;
    } else {
      FillSkips(passed[1..], rest, p, inputs);
      FillCons(passed[0], passed[1..] + rest, p, inputs);
      assert passed + rest == [passed[0]] + (passed[1..] + rest);
      assert passed == [passed[0]] + passed[1..];
    }
  }

  // ---- A delivery to one node -----------------------------------------------------------------------------------

  lemma {:induction false} ColumnMore(sent: seq<Parcel>, p: Parcel, name: NodeId, slot: nat)
    ensures Column(sent + [p], name, slot) ==
            Column(sent, name, slot) + if p.node == name && p.slot == slot then [p] else []
  {
    assert (sent + [p])[..|sent + [p]| - 1] == sent;
  }

  /** Filling the first set that misses the input keeps the order. */
  lemma {:induction false} InOrderStep(all: seq<Entry>, sent: seq<Parcel>, p: Parcel, name: NodeId, inputs: nat)
    requires InOrder(all, sent, name, inputs) && p.node == name && p.slot < inputs
    ensures var k := |Column(sent, name, p.slot)|;
            var next := if k < |all| then all[k := PutIn(all[k], p)] else all + [PutIn(Blank(name, inputs), p)];
            InOrder(next, sent + [p], name, inputs)
  {
    var k := |Column(sent, name, p.slot)|;
    var next := if k < |all| then all[k := PutIn(all[k], p)] else all + [PutIn(Blank(name, inputs), p)];
    forall s | 0 <= s < inputs ensures |Column(sent + [p], name, s)| <= |next| {
      ColumnMore(sent, p, name, s);
    }
    forall i | 0 <= i < |next| ensures Sized(next[i], name, inputs) {}
    forall s, i | 0 <= s < inputs && 0 <= i < |next| ensures Holds(next[i], s, Column(sent + [p], name, s), i) {
      ColumnMore(sent, p, name, s);
      if i < |all| { assert Holds(all[i], s, Column(sent, name, s), i); }
    }
  }

  lemma FillPast(passed: seq<Entry>, rest: seq<Entry>, p: Parcel, inputs: nat)
    requires forall i :: 0 <= i < |passed| ==> !Misses(passed[i], p.node, p.slot)
    requires rest != [] ==> Misses(rest[0], p.node, p.slot)
    ensures var e := PutIn(if rest != [] then rest[0] else Blank(p.node, inputs), p);
            var after := if rest != [] then rest[1..] else [];
            Fill(passed + rest, p, inputs) ==
              if Full(e) then Pending([e], passed + after) else Pending([], passed + ([e] + after))
  {
    FillSkips(passed, rest, p, inputs);
    if rest != [] {
      assert rest == [rest[0]] + rest[1..];
      FillCons(rest[0], rest[1..], p, inputs);
    }
  }

  lemma BlankNotFull(name: NodeId, inputs: nat, p: Parcel)
    requires inputs >= 2 && p.slot < inputs
    ensures !Full(PutIn(Blank(name, inputs), p))
  {
    var other := if p.slot == 0 then 1 else 0;
    assert PutIn(Blank(name, inputs), p).inputs[other].None?;
  }

  lemma SplitAt(sets: seq<Entry>, j: nat)
    requires j <= |sets|
    ensures sets == sets[..j] + sets[j..]
    ensures j < |sets| ==> sets[j..] != [] && sets[j..][0] == sets[j] && sets[j..][1..] == sets[j + 1..]
  {
  }

  lemma FullBefore(first: Entry, e: Entry, p: Parcel, inputs: nat)
    requires |first.inputs| == |e.inputs| == inputs && p.slot < inputs && Full(PutIn(e, p))
    requires first.inputs[p.slot].Some?
    requires forall s :: 0 <= s < inputs && e.inputs[s].Some? ==> first.inputs[s].Some?
    ensures Full(first)
  {
    forall s | 0 <= s < inputs ensures first.inputs[s].Some? {
      if s != p.slot {
        assert PutIn(e, p).inputs[s] == e.inputs[s];
      }
    }
  }

  /** When a set fills up it is the node's first: the sets before it hold every input that it holds. */
  lemma FullIsFirst(sets: seq<Entry>, j: nat, p: Parcel, name: NodeId, inputs: nat)
    requires Prefixed(sets, name, inputs) && j < |sets| && p.slot < inputs && Full(PutIn(sets[j], p))
    requires forall i :: 0 <= i < j ==> sets[i].inputs[p.slot].Some?
    ensures j == 0
  {
    if j > 0 {
      FullBefore(sets[0], sets[j], p, inputs);
    }
  }

  lemma PairedIsPrefixed(done: seq<Entry>, sets: seq<Entry>, sent: seq<Parcel>, name: NodeId, inputs: nat)
    requires Paired(done, sets, sent, name, inputs)
    ensures Prefixed(sets, name, inputs)
  {
    var all := done + sets;
    forall i | 0 <= i < |sets| ensures Sized(sets[i], name, inputs) { assert all[|done| + i] == sets[i]; }
    forall s, i, j | 0 <= s < inputs && 0 <= i < j < |sets| && sets[j].inputs[s].Some? ensures sets[i].inputs[s].Some? {
      assert all[|done| + i] == sets[i] && all[|done| + j] == sets[j];
      assert Holds(all[|done| + i], s, Column(sent, name, s), |done| + i);
      assert Holds(all[|done| + j], s, Column(sent, name, s), |done| + j);
    }
  }

  /** Where the next delivery to an input goes: past the completed sets and the sets that hold that input. */
  lemma NextPlace(done: seq<Entry>, sets: seq<Entry>, sent: seq<Parcel>, p: Parcel, name: NodeId,
      inputs: nat) returns (j: nat)
    requires Paired(done, sets, sent, name, inputs) && p.node == name && p.slot < inputs
    ensures j == |Column(sent, name, p.slot)| - |done| && j <= |sets|
    ensures Prefixed(sets, name, inputs)
    ensures forall i :: 0 <= i < j ==> sets[i].inputs[p.slot].Some?
    ensures j < |sets| ==> Misses(sets[j], name, p.slot)
  {
    var all, col := done + sets, Column(sent, name, p.slot);
    PairedIsPrefixed(done, sets, sent, name, inputs);
    if done != [] {
      var last := |done| - 1;
      assert all[last] == done[last] && Holds(all[last], p.slot, col, last);
    }
    j := |col| - |done|;
    forall i | 0 <= i < j ensures sets[i].inputs[p.slot].Some? {
      assert all[|done| + i] == sets[i] && Holds(all[|done| + i], p.slot, col, |done| + i);
    }
    if j < |sets| {
      assert all[|col|] == sets[j] && Holds(all[|col|], p.slot, col, |col|);
    }
  }

  lemma PairedAppends(done: seq<Entry>, sets: seq<Entry>, sent: seq<Parcel>, e: Entry, name: NodeId, inputs: nat)
    requires InOrder((done + sets) + [e], sent, name, inputs) && !Full(e)
    requires (forall i :: 0 <= i < |done| ==> Full(done[i])) && forall i :: 0 <= i < |sets| ==> !Full(sets[i])
    ensures Paired(done, sets + [e], sent, name, inputs)
  {
    assert done + (sets + [e]) == (done + sets) + [e];
  }

  lemma PairedCompletes(done: seq<Entry>, sets: seq<Entry>, sent: seq<Parcel>, e: Entry, name: NodeId, inputs: nat)
    requires sets != [] && InOrder((done + sets)[|done| := e], sent, name, inputs) && Full(e)
    requires (forall i :: 0 <= i < |done| ==> Full(done[i])) && forall i :: 0 <= i < |sets| ==> !Full(sets[i])
    ensures Paired(done + [e], sets[1..], sent, name, inputs)
  {
    assert (done + [e]) + sets[1..] == (done + sets)[|done| := e];
  }

  lemma PairedReplaces(done: seq<Entry>, sets: seq<Entry>, j: nat, sent: seq<Parcel>, e: Entry, name: NodeId,
      inputs: nat)
    requires j < |sets| && InOrder((done + sets)[|done| + j := e], sent, name, inputs) && !Full(e)
    requires (forall i :: 0 <= i < |done| ==> Full(done[i])) && forall i :: 0 <= i < |sets| ==> !Full(sets[i])
    ensures Paired(done, sets[j := e], sent, name, inputs)
  {
    assert done + sets[j := e] == (done + sets)[|done| + j := e];
  }

  lemma {:induction false} PlaceInOrder(done: seq<Entry>, sets: seq<Entry>, j: nat, sent: seq<Parcel>, p: Parcel,
      name: NodeId, inputs: nat)
    requires InOrder(done + sets, sent, name, inputs) && p.node == name && p.slot < inputs
    requires |done| + j == |Column(sent, name, p.slot)| && j <= |sets|
    ensures InOrder(if j < |sets| then (done + sets)[|done| + j := PutIn(sets[j], p)]
                    else (done + sets) + [PutIn(Blank(name, inputs), p)], sent + [p], name, inputs)
  {
    PlaceAmong(done, sets, j);
    InOrderStep(done + sets, sent, p, name, inputs);
  }

  lemma PlaceAmong(done: seq<Entry>, sets: seq<Entry>, j: nat)
    requires j <= |sets|
    ensures |done| + j <= |done + sets| && (j < |sets| <==> |done| + j < |done + sets|)
    ensures j < |sets| ==> (done + sets)[|done| + j] == sets[j]
  {
  }

  /** What `Fill` does once the place is known. */
  lemma {:induction false} FillResult(sets: seq<Entry>, j: nat, p: Parcel, inputs: nat)
    requires j <= |sets| && (forall i :: 0 <= i < j ==> !Misses(sets[i], p.node, p.slot))
    requires j < |sets| ==> Misses(sets[j], p.node, p.slot)
    ensures var e := PutIn(if j < |sets| then sets[j] else Blank(p.node, inputs), p);
            var r := Fill(sets, p, inputs);
            if j == |sets| then Full(e) || r == Pending([], sets + [e])
            else if Full(e) then r == Pending([e], sets[..j] + sets[j + 1..])
            else r == Pending([], sets[j := e])
  {
    if j == |sets| {
      FillPast(sets, [], p, inputs);
      Splice(sets, PutIn(Blank(p.node, inputs), p));
    } else {
      SplitAt(sets, j);
      FillPast(sets[..j], sets[j..], p, inputs);
      SpliceAt(sets, j, PutIn(sets[j], p));
    }
  }

  lemma Splice(sets: seq<Entry>, e: Entry)
    ensures sets + [] == sets && sets + ([e] + []) == sets + [e]
  {
  }

  lemma SpliceAt(sets: seq<Entry>, j: nat, e: Entry)
    requires j < |sets|
    ensures sets[..j] + ([e] + sets[j + 1..]) == sets[j := e]
  {
  }

  lemma {:induction false} PairedFill(done: seq<Entry>, sets: seq<Entry>, sent: seq<Parcel>, p: Parcel, name: NodeId,
      inputs: nat)
    requires Paired(done, sets, sent, name, inputs) && p.node == name && p.slot < inputs && inputs >= 2
    ensures var r := Fill(sets, p, inputs); Paired(done + r.ready, r.waiting, sent + [p], name, inputs)
  {
    var j := NextPlace(done, sets, sent, p, name, inputs);
    var e := PutIn(if j < |sets| then sets[j] else Blank(name, inputs), p);
    PlaceInOrder(done, sets, j, sent, p, name, inputs);
    FillResult(sets, j, p, inputs);
    assert done + [] == done;
    if j == |sets| {
      BlankNotFull(name, inputs, p);
      PairedAppends(done, sets, sent + [p], e, name, inputs);
    } else if Full(e) {
      FullIsFirst(sets, j, p, name, inputs);
      assert sets[..0] + sets[1..] == sets[1..];
      PairedCompletes(done, sets, sent + [p], e, name, inputs);
    } else {
      PairedReplaces(done, sets, j, sent + [p], e, name, inputs);
    }
  }

  lemma {:induction false} FirstMiss(sets: seq<Entry>, slot: nat) returns (j: nat)
    requires forall i :: 0 <= i < |sets| ==> slot < |sets[i].inputs|
    ensures j <= |sets| && (forall i :: 0 <= i < j ==> sets[i].inputs[slot].Some?)
    ensures (j < |sets| ==> sets[j].inputs[slot].None?)
  {
    if sets == [] || sets[0].inputs[slot].None? {
      j := 0;
    } else {
      var k := FirstMiss(sets[1..], slot);
      j := k + 1;
      forall i | 0 <= i < j ensures sets[i].inputs[slot].Some? {
        if i > 0 { assert sets[i] == sets[1..][i - 1]; }
      }
    }
  }

  /** Filled slots stay prefixes, whatever was started before its time. */
  lemma {:induction false} PrefixedFill(sets: seq<Entry>, p: Parcel, name: NodeId, inputs: nat)
    requires Prefixed(sets, name, inputs) && p.node == name && p.slot < inputs && inputs >= 2
    ensures Prefixed(Fill(sets, p, inputs).waiting, name, inputs)
  {
    var j := FirstMiss(sets, p.slot);
    var e := PutIn(if j < |sets| then sets[j] else Blank(name, inputs), p);
    FillResult(sets, j, p, inputs);
    if j == |sets| {
      BlankNotFull(name, inputs, p);
      PrefixedPut(sets, j, p, e, name, inputs);
    } else if Full(e) {
      FullIsFirst(sets, j, p, name, inputs);
      assert sets[..0] + sets[1..] == sets[1..];
    } else {
      PrefixedPut(sets, j, p, e, name, inputs);
    }
  }

  lemma PrefixedPut(sets: seq<Entry>, j: nat, p: Parcel, e: Entry, name: NodeId, inputs: nat)
    requires Prefixed(sets, name, inputs) && j <= |sets| && p.node == name && p.slot < inputs && !Full(e)
    requires forall i :: 0 <= i < j ==> sets[i].inputs[p.slot].Some?
    requires j < |sets| ==> sets[j].inputs[p.slot].None?
    requires e == PutIn(if j < |sets| then sets[j] else Blank(name, inputs), p)
    ensures Prefixed(if j < |sets| then sets[j := e] else sets + [e], name, inputs)
  {
    var next := if j < |sets| then sets[j := e] else sets + [e];
    forall i | 0 <= i < |next| ensures Sized(next[i], name, inputs) && !Full(next[i]) {
      if i != j { assert next[i] == sets[i]; }
    }
    forall s, i, k | 0 <= s < inputs && 0 <= i < k < |next| && next[k].inputs[s].Some? ensures next[i].inputs[s].Some? {
      if k == j {
        assert next[i] == sets[i];
        assert s == p.slot || (j < |sets| && sets[j].inputs[s].Some?);
      } else {
        assert next[k] == sets[k] && sets[k].inputs[s].Some?;
        if i != j { assert next[i] == sets[i]; }
      }
    }
  }

  // ---- All deliveries of a turn ---------------------------------------------------------------------------------

  /** What is known of a node with several inputs; pairing only while none of its sets was started incomplete. */
  ghost predicate NodeOk(w: Flow, pending: Pending, sent: seq<Parcel>, forced: set<NodeId>, name: NodeId) {
    var inputs := ConnectedInputs(w, name);
    var sets := ForNode(pending.waiting, name);
    inputs >= 2 ==>
      && Prefixed(sets, name, inputs)
      && (name !in forced ==> Paired(ForNode(pending.ready, name), sets, sent, name, inputs))
  }

  ghost predicate Fits(w: Flow, p: Parcel) {
    p.slot < ConnectedInputs(w, p.node)
  }

  lemma OtherColumns(all: seq<Entry>, sent: seq<Parcel>, p: Parcel, name: NodeId, inputs: nat)
    requires InOrder(all, sent, name, inputs) && p.node != name
    ensures InOrder(all, sent + [p], name, inputs)
  {
    forall s | 0 <= s < inputs ensures Column(sent + [p], name, s) == Column(sent, name, s) {
      ColumnMore(sent, p, name, s);
    }
    forall s, i | 0 <= s < inputs && 0 <= i < |all| ensures Holds(all[i], s, Column(sent + [p], name, s), i) {
      assert Holds(all[i], s, Column(sent, name, s), i);
    }
  }

  lemma DeliverKeeps(w: Flow, p: Parcel, pending: Pending, sent: seq<Parcel>, forced: set<NodeId>, name: NodeId)
    requires NodeOk(w, pending, sent, forced, name) && Fits(w, p)
    ensures NodeOk(w, Deliver(w, p, pending), sent + [p], forced, name)
  {
    var inputs, taken := ConnectedInputs(w, name), ConnectedInputs(w, p.node);
    var sets, done := ForNode(pending.waiting, name), ForNode(pending.ready, name);
    if inputs >= 2 {
      if taken <= 1 {
        var e := Entry(p.node, [Some(p.items)], [Some(p.source)]);
        ForNodeConcat(pending.ready, [e], name);
        ForNodeCons(e, [], name);
        assert done + [] == done && [e] + [] == [e];
        if name !in forced { OtherColumns(done + sets, sent, p, name, inputs); }
      } else {
        var filled := Fill(pending.waiting, p, taken);
        FillSeenByNode(pending.waiting, p, taken, name);
        ForNodeConcat(pending.ready, filled.ready, name);
        if p.node == name {
          PrefixedFill(sets, p, name, inputs);
          if name !in forced { PairedFill(done, sets, sent, p, name, inputs); }
        } else {
          assert done + [] == done;
          if name !in forced { OtherColumns(done + sets, sent, p, name, inputs); }
        }
      }
    }
  }

  lemma {:induction false} DeliverAllKeeps(w: Flow, ps: seq<Parcel>, pending: Pending, sent: seq<Parcel>,
      forced: set<NodeId>, name: NodeId)
    requires NodeOk(w, pending, sent, forced, name) && forall p :: p in ps ==> Fits(w, p)
    ensures NodeOk(w, DeliverAll(w, ps, pending), sent + ps, forced, name)
  {
    if ps == [] {
      assert sent + ps == sent;
    } else {
      DeliverKeeps(w, ps[0], pending, sent, forced, name);
      DeliverAllKeeps(w, ps[1..], Deliver(w, ps[0], pending), sent + [ps[0]], forced, name);
      assert sent + ps == (sent + [ps[0]]) + ps[1..];
    }
  }

  /** Earlier ready entries do not matter to what is delivered. */
  lemma {:induction false} ReadyPrefix(w: Flow, ps: seq<Parcel>, earlier: seq<Entry>, pending: Pending)
    ensures DeliverAll(w, ps, Pending(earlier + pending.ready, pending.waiting)) ==
      Pending(earlier + DeliverAll(w, ps, pending).ready, DeliverAll(w, ps, pending).waiting)
  {
    if ps != [] {
      var next := Deliver(w, ps[0], pending);
      var filled := Fill(pending.waiting, ps[0], ConnectedInputs(w, ps[0].node));
      var single := [Entry(ps[0].node, [Some(ps[0].items)], [Some(ps[0].source)])];
      assert (earlier + pending.ready) + single == earlier + (pending.ready + single);
      assert (earlier + pending.ready) + filled.ready == earlier + (pending.ready + filled.ready);
      ReadyPrefix(w, ps[1..], earlier, next);
    }
  }

  // ---- Every execution ------------------------------------------------------------------------------------------

  ghost predicate Known(w: Flow, es: seq<Entry>) {
    forall e :: e in es ==> Find(w.nodes, e.node).Some?
  }

  lemma {:induction false} FillKnown(w: Flow, waiting: seq<Entry>, p: Parcel, inputs: nat)
    requires Known(w, waiting) && Find(w.nodes, p.node).Some?
    ensures var r := Fill(waiting, p, inputs); Known(w, r.ready) && Known(w, r.waiting)
  {
    if waiting != [] && !Misses(waiting[0], p.node, p.slot) {
      FillKnown(w, waiting[1..], p, inputs);
    }
  }

  lemma {:induction false} DeliverAllKnown(w: Flow, ps: seq<Parcel>, pending: Pending)
    requires Known(w, pending.ready) && Known(w, pending.waiting) && forall p :: p in ps ==> Find(w.nodes, p.node).Some?
    ensures var r := DeliverAll(w, ps, pending); Known(w, r.ready) && Known(w, r.waiting)
  {
    if ps != [] {
      FillKnown(w, pending.waiting, ps[0], ConnectedInputs(w, ps[0].node));
      DeliverAllKnown(w, ps[1..], Deliver(w, ps[0], pending));
    }
  }

  lemma SentFits(w: Flow, rd: RunData, e: Entry, outputs: FlowOutput, p: Parcel)
    requires Find(w.nodes, e.node).Some? && p in SentBy(w, rd, e, outputs)
    ensures Find(w.nodes, p.node).Some? && Fits(w, p)
  {
    ParcelsSource(w, e.node, outputs, |RunsOf(rd, e.node)|, 0, p);
    TargetIndexConnected(w, e.node, p.source.output, Target(p.node, p.slot));
  }

  ghost predicate Inv(w: Flow, x: Watched) {
    && Known(w, x.m.stack) && Known(w, x.m.waiting)
    && forall name :: NodeOk(w, Pending(x.readied, x.m.waiting), x.sent, x.forced, name)
  }

  /** Popping from the stack changes no set; popping a waiting set takes the node's first one. */
  lemma PrefixedTail(e: Entry, sets: seq<Entry>, name: NodeId, inputs: nat)
    requires Prefixed([e] + sets, name, inputs)
    ensures Prefixed(sets, name, inputs)
  {
    assert forall i :: 0 <= i < |sets| ==> sets[i] == ([e] + sets)[i + 1];
  }

  lemma PopKeeps(w: Flow, x: Watched, name: NodeId)
    requires Inv(w, x) && CanPop(x.m)
    ensures var forced := if x.m.stack == [] then x.forced + {Popped(x.m).node} else x.forced;
            NodeOk(w, Pending(x.readied, AfterPop(x.m).waiting), x.sent, forced, name)
  {
    var inputs := ConnectedInputs(w, name);
    assert NodeOk(w, Pending(x.readied, x.m.waiting), x.sent, x.forced, name);
    if x.m.stack == [] && inputs >= 2 {
      var e, rest := x.m.waiting[0], x.m.waiting[1..];
      assert x.m.waiting == [e] + rest;
      ForNodeCons(e, rest, name);
      if e.node == name {
        PrefixedTail(e, ForNode(rest, name), name, inputs);
      }
    }
  }

  lemma TurnKeeps(w: Flow, v1: bool, x: Watched, o: Outcome)
    requires Inv(w, x) && CanPop(x.m)
    ensures Inv(w, WatchTurn(w, v1, x, o))
  {
    var e, rest, x' := Popped(x.m), AfterPop(x.m), WatchTurn(w, v1, x, o);
    forall name ensures NodeOk(w, Pending(x.readied, rest.waiting), x.sent, x'.forced, name) { PopKeeps(w, x, name); }
    if x.m.left > 0 && o.Finished? {
      var ps := SentBy(w, x.m.rd, e, o.outputs);
      assert Find(w.nodes, e.node).Some?;
      forall p | p in ps ensures Find(w.nodes, p.node).Some? && Fits(w, p) { SentFits(w, x.m.rd, e, o.outputs, p); }
      ReadyPrefix(w, ps, x.readied, Pending([], rest.waiting));
      assert x.readied + [] == x.readied;
      forall name ensures NodeOk(w, Pending(x'.readied, x'.m.waiting), x'.sent, x'.forced, name) {
        DeliverAllKeeps(w, ps, Pending(x.readied, rest.waiting), x.sent, x'.forced, name);
      }
      ScheduleKnown(w, v1, ps, rest.stack, rest.waiting);
    }
  }

  lemma ScheduleKnown(w: Flow, v1: bool, ps: seq<Parcel>, stack: seq<Entry>, waiting: seq<Entry>)
    requires Known(w, stack) && Known(w, waiting) && forall p :: p in ps ==> Find(w.nodes, p.node).Some?
    ensures var r := Schedule(w, v1, ps, stack, waiting); Known(w, r.0) && Known(w, r.1)
  {
    DeliverAllKnown(w, ps, Pending([], waiting));
    var ready := DeliverAll(w, ps, Pending([], waiting)).ready;
    forall x ensures x in SortEntries(w, ready) <==> x in ready { SortSame(w, ready, x); }
  }

  lemma {:induction false} RunKeeps(w: Flow, v1: bool, t: seq<Watched>, os: seq<Outcome>, e: Entry, rd: RunData, n: nat)
    requires WatchedRun(w, v1, t, os, e, rd) && n <= |os|
    ensures Inv(w, t[n])
  {
    if n == 0 {
      forall name ensures NodeOk(w, Pending([], []), [], {}, name) {}
    } else {
      RunKeeps(w, v1, t, os, e, rd, n - 1);
      assert t[(n - 1) + 1] == WatchTurn(w, v1, t[n - 1], os[n - 1]);
      TurnKeeps(w, v1, t[n - 1], os[n - 1]);
    }
  }

  /** In every execution the filled slots of each input are a prefix of the node's pending sets. */
  lemma {:induction false} PendingSetsFillInOrder(w: Flow, v1: bool, t: seq<Watched>, os: seq<Outcome>, e: Entry,
      rd: RunData, n: nat,
      name: NodeId)
    requires WatchedRun(w, v1, t, os, e, rd) && n <= |os| && ConnectedInputs(w, name) >= 2
    ensures Prefixed(ForNode(t[n].m.waiting, name), name, ConnectedInputs(w, name))
  {
    RunKeeps(w, v1, t, os, e, rd, n);
    assert NodeOk(w, Pending(t[n].readied, t[n].m.waiting), t[n].sent, t[n].forced, name);
  }

  /** While no set of the node was started incomplete, its k-th completed set holds the k-th delivery of every input. */
  lemma {:induction false} KthSetHoldsKthDeliveries(w: Flow, v1: bool, t: seq<Watched>, os: seq<Outcome>, e: Entry,
      rd: RunData, n: nat,
                                 name: NodeId, k: nat, slot: nat)
    requires WatchedRun(w, v1, t, os, e, rd) && n <= |os| && ConnectedInputs(w, name) >= 2 && name !in t[n].forced
    requires k < |ForNode(t[n].readied, name)| && slot < ConnectedInputs(w, name)
    ensures var done, column := ForNode(t[n].readied, name), Column(t[n].sent, name, slot);
            && Sized(done[k], name, ConnectedInputs(w, name))
            && k < |column|
            && done[k].inputs[slot] == Some(column[k].items)
            && done[k].source[slot] == Some(column[k].source)
  {
    RunKeeps(w, v1, t, os, e, rd, n);
    assert NodeOk(w, Pending(t[n].readied, t[n].m.waiting), t[n].sent, t[n].forced, name);
    var done, sets, column := ForNode(t[n].readied, name), ForNode(t[n].m.waiting, name), Column(t[n].sent, name, slot);
    assert (done + sets)[k] == done[k] && Full(done[k]);
    assert Holds((done + sets)[k], slot, column, k);
  }
}
