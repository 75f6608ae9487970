/** Conservation in the stack machine (src/n8n/engine.rs): every delivery is at all times in exactly one stack
    entry, one waiting slot or one started run. */
module StackConservation {

  import opened Workflows
  import opened StackMachine
  import opened StackJoins

  /** How often the entry's slots from `k` on hold the delivery. */
  ghost function HeldFrom(e: Entry, k: nat, q: Parcel): nat
    decreases |e.inputs| - k
  {
    if k >= |e.inputs| then 0
    else (if e.inputs[k].Some? && k < |e.source| && e.source[k].Some?
             && Parcel(e.node, k, e.inputs[k].value, e.source[k].value) == q then 1 else 0)
         + HeldFrom(e, k + 1, q)
  }

  ghost function Held(e: Entry, q: Parcel): nat {
    HeldFrom(e, 0, q)
  }

  ghost function HeldAll(es: seq<Entry>, q: Parcel): nat {
    if es == [] then 0 else Held(es[0], q) + HeldAll(es[1..], q)
  }

  ghost function SentTimes(ps: seq<Parcel>, q: Parcel): nat {
    if ps == [] then 0 else (if ps[0] == q then 1 else 0) + SentTimes(ps[1..], q)
  }

  lemma {:induction false} HeldCons(e: Entry, es: seq<Entry>, q: Parcel)
    ensures HeldAll([e] + es, q) == Held(e, q) + HeldAll(es, q)
  {
    assert ([e] + es)[1..] == es;
  }

  lemma {:induction false} HeldOne(e: Entry, q: Parcel)
    ensures HeldAll([e], q) == Held(e, q)
  {
    assert [e] + [] == [e];
    HeldCons(e, [], q);
  }

  lemma {:induction false} HeldConcat(a: seq<Entry>, b: seq<Entry>, q: Parcel)
    ensures HeldAll(a + b, q) == HeldAll(a, q) + HeldAll(b, q)
  {
    if a == [] {
      assert a + b == b;
    } else {
      HeldConcat(a[1..], b, q);
      assert (a + b)[1..] == a[1..] + b;
    }
  }

  lemma {:induction false} SentConcat(a: seq<Parcel>, b: seq<Parcel>, q: Parcel)
    ensures SentTimes(a + b, q) == SentTimes(a, q) + SentTimes(b, q)
  {
    if a == [] {
      assert a + b == b;
    } else {
      SentConcat(a[1..], b, q);
      assert (a + b)[1..] == a[1..] + b;
    }
  }

  lemma {:induction false} PutInHeldFrom(e: Entry, p: Parcel, k: nat, q: Parcel)
    requires p.node == e.node && p.slot < |e.inputs| == |e.source| && e.inputs[p.slot].None?
    ensures HeldFrom(PutIn(e, p), k, q) == HeldFrom(e, k, q) + if k <= p.slot && p == q then 1 else 0
    decreases |e.inputs| - k
  {
    if k < |e.inputs| {
      PutInHeldFrom(e, p, k + 1, q);
    }
  }

  lemma {:induction false} BlankHoldsNothing(node: NodeId, inputs: nat, k: nat, q: Parcel)
    ensures HeldFrom(Blank(node, inputs), k, q) == 0
    decreases inputs - k
  {
    if k < inputs {
      BlankHoldsNothing(node, inputs, k + 1, q);
    }
  }

  ghost predicate Even(es: seq<Entry>) {
    forall e :: e in es ==> |e.inputs| == |e.source|
  }

  ghost function Both(p: Pending, q: Parcel): nat {
    HeldAll(p.ready, q) + HeldAll(p.waiting, q)
  }

  lemma {:induction false} PlacedConserves(e: Entry, es: seq<Entry>, q: Parcel)
    ensures Both(Pending([e], es), q) == Both(Pending([], [e] + es), q) == Held(e, q) + HeldAll(es, q)
  {
    HeldOne(e, q);
    HeldCons(e, es, q);
  }

  lemma {:induction false} FillConserves(waiting: seq<Entry>, p: Parcel, inputs: nat, q: Parcel)
    requires Even(waiting) && p.slot < inputs
    ensures Both(Fill(waiting, p, inputs), q) == HeldAll(waiting, q) + if p == q then 1 else 0
    ensures Even(Fill(waiting, p, inputs).waiting)
  {
    if waiting == [] {
      PutInHeldFrom(Blank(p.node, inputs), p, 0, q);
      BlankHoldsNothing(p.node, inputs, 0, q);
      PlacedConserves(PutIn(Blank(p.node, inputs), p), [], q);
      assert [PutIn(Blank(p.node, inputs), p)] + [] == [PutIn(Blank(p.node, inputs), p)];
    } else {
      var e, es := waiting[0], waiting[1..];
      assert waiting == [e] + es;
      FillCons(e, es, p, inputs);
      if Misses(e, p.node, p.slot) {
        PutInHeldFrom(e, p, 0, q);
        PlacedConserves(PutIn(e, p), es, q);
      } else {
        FillConserves(es, p, inputs, q);
        HeldCons(e, Fill(es, p, inputs).waiting, q);
      }
    }
  }

  lemma SingleHolds(p: Parcel, q: Parcel)
    requires p.slot == 0
    ensures Held(Entry(p.node, [Some(p.items)], [Some(p.source)]), q) == if p == q then 1 else 0
  {
    var e := Entry(p.node, [Some(p.items)], [Some(p.source)]);
    assert HeldFrom(e, 1, q) == 0;
    assert Parcel(e.node, 0, e.inputs[0].value, e.source[0].value) == p;
  }

  lemma DeliverConserves(w: Flow, p: Parcel, pending: Pending, q: Parcel)
    requires Even(pending.waiting) && Fits(w, p)
    ensures Both(Deliver(w, p, pending), q) == Both(pending, q) + if p == q then 1 else 0
    ensures Even(Deliver(w, p, pending).waiting)
  {
    var inputs := ConnectedInputs(w, p.node);
    if inputs <= 1 {
      var e := Entry(p.node, [Some(p.items)], [Some(p.source)]);
      SingleHolds(p, q);
      HeldOne(e, q);
      HeldConcat(pending.ready, [e], q);
    } else {
      FillConserves(pending.waiting, p, inputs, q);
      HeldConcat(pending.ready, Fill(pending.waiting, p, inputs).ready, q);
    }
  }

  lemma {:induction false} DeliverAllConserves(w: Flow, ps: seq<Parcel>, pending: Pending, q: Parcel)
    requires Even(pending.waiting) && forall p :: p in ps ==> Fits(w, p)
    ensures Both(DeliverAll(w, ps, pending), q) == Both(pending, q) + SentTimes(ps, q)
    ensures Even(DeliverAll(w, ps, pending).waiting)
  {
    if ps != [] {
      DeliverConserves(w, ps[0], pending, q);
      DeliverAllConserves(w, ps[1..], Deliver(w, ps[0], pending), q);
    }
  }

  lemma {:induction false} InsertConserves(w: Flow, e: Entry, s: seq<Entry>, q: Parcel)
    ensures HeldAll(InsertEntry(w, e, s), q) == Held(e, q) + HeldAll(s, q)
  {
    if s == [] || !Before(PositionOf(w, s[0]), PositionOf(w, e)) {
      HeldCons(e, s, q);
    } else {
      InsertConserves(w, e, s[1..], q);
      HeldCons(s[0], InsertEntry(w, e, s[1..]), q);
    }
  }

  lemma {:induction false} SortConserves(w: Flow, s: seq<Entry>, q: Parcel)
    ensures HeldAll(SortEntries(w, s), q) == HeldAll(s, q)
  {
    if s != [] {
      SortConserves(w, s[1..], q);
      InsertConserves(w, s[0], SortEntries(w, s[1..]), q);
    }
  }

  lemma {:induction false} ScheduleConserves(w: Flow, v1: bool, ps: seq<Parcel>, stack: seq<Entry>,
      waiting: seq<Entry>, q: Parcel)
    requires Even(waiting) && forall p :: p in ps ==> Fits(w, p)
    ensures var r := Schedule(w, v1, ps, stack, waiting);
            HeldAll(r.0, q) + HeldAll(r.1, q) == HeldAll(stack, q) + HeldAll(waiting, q) + SentTimes(ps, q) && Even(r.1)
  {
    var ready := DeliverAll(w, ps, Pending([], waiting)).ready;
    DeliverAllConserves(w, ps, Pending([], waiting), q);
    SortConserves(w, ready, q);
    HeldConcat(SortEntries(w, ready), stack, q);
    HeldConcat(stack, ready, q);
  }

  /** How often the delivery is held, in the stack, in a waiting set or by a started run. */
  ghost function InFlight(m: Machine, q: Parcel): nat {
    HeldAll(m.stack, q) + HeldAll(m.waiting, q) + HeldAll(m.log, q)
  }

  lemma {:induction false} PopConserves(m: Machine, q: Parcel)
    requires CanPop(m)
    ensures HeldAll(m.stack, q) + HeldAll(m.waiting, q) ==
            HeldAll(AfterPop(m).stack, q) + HeldAll(AfterPop(m).waiting, q) + Held(Popped(m), q)
    ensures HeldAll(m.log + [Popped(m)], q) == HeldAll(m.log, q) + Held(Popped(m), q)
  {
    HeldConcat(m.log, [Popped(m)], q);
    HeldOne(Popped(m), q);
  }

  lemma {:induction false} TurnConserves(w: Flow, v1: bool, x: Watched, o: Outcome, q: Parcel)
    requires Inv(w, x) && CanPop(x.m) && x.m.left > 0 && Even(x.m.waiting)
    ensures var x' := WatchTurn(w, v1, x, o);
            InFlight(x'.m, q) - InFlight(x.m, q) == SentTimes(x'.sent, q) - SentTimes(x.sent, q) && Even(x'.m.waiting)
  {
    var e, rest := Popped(x.m), AfterPop(x.m);
    PopConserves(x.m, q);
    if o.Finished? {
      var ps := SentBy(w, x.m.rd, e, o.outputs);
      forall p | p in ps ensures Fits(w, p) { SentFits(w, x.m.rd, e, o.outputs, p); }
      ScheduleConserves(w, v1, ps, rest.stack, rest.waiting, q);
      SentConcat(x.sent, ps, q);
    }
  }

  lemma {:induction false} OneMoreConserved(w: Flow, v1: bool, x: Watched, o: Outcome, q: Parcel, first: nat)
    requires Inv(w, x) && CanPop(x.m) && x.m.left > 0 && Even(x.m.waiting)
    requires InFlight(x.m, q) == SentTimes(x.sent, q) + first
    ensures var x' := WatchTurn(w, v1, x, o); InFlight(x'.m, q) == SentTimes(x'.sent, q) + first && Even(x'.m.waiting)
  {
    TurnConserves(w, v1, x, o, q);
  }

  /** In every execution within the run limit, each delivery is held exactly as often as it was sent (or as the
      first entry began with it): never lost, never doubled. */
  lemma {:induction false} DeliveriesConserved(w: Flow, v1: bool, t: seq<Watched>, os: seq<Outcome>, e: Entry,
      rd: RunData, n: nat, q: Parcel)
    requires WatchedRun(w, v1, t, os, e, rd) && n <= |os| && n <= MAX_NODE_RUNS
    ensures InFlight(t[n].m, q) == SentTimes(t[n].sent, q) + Held(e, q)
    ensures Even(t[n].m.waiting) && (t[n].m.over || t[n].m.left == MAX_NODE_RUNS - n)
  {
    if n == 0 {
      HeldOne(e, q);
    } else {
      DeliveriesConserved(w, v1, t, os, e, rd, n - 1, q);
      WatchedStep(w, v1, t, os, e, rd, n - 1);
      RunKeeps(w, v1, t, os, e, rd, n - 1);
      TurnCounts(w, v1, t[n - 1], os[n - 1]);
      OneMoreConserved(w, v1, t[n - 1], os[n - 1], q, Held(e, q));
    }
  }
}
