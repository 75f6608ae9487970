/** In which order the stack machine (src/n8n/engine.rs) runs nodes, in a workflow where no node has more than one
    connected input: v1 is the recursive depth-first preorder, v0 goes level by level. */
module StackOrder {

  import opened Workflows
  import opened Sequences
  import opened StackMachine
  import opened StackLineage

  ghost predicate SingleInputs(w: Flow) {
    forall name :: ConnectedInputs(w, name) <= 1
  }

  /** What an execution has done so far. */
  datatype Visit = Visit(rd: RunData, log: seq<Entry>, left: nat, over: bool)

  function Result(m: Machine): Visit {
    Visit(m.rd, m.log, m.left, m.over)
  }

  function Made(ps: seq<Parcel>): seq<Entry> {
    if ps == [] then [] else [Entry(ps[0].node, [Some(ps[0].items)], [Some(ps[0].source)])] + Made(ps[1..])
  }

  /** One node's run: what it leaves and the entries it makes, in the order it sent them. */
  function Visited(w: Flow, work: Work, e: Entry, v: Visit): (Visit, seq<Entry>)
    requires !v.over
    ensures Visited(w, work, e, v).0.left <= v.left
    ensures Visited(w, work, e, v).0.left < v.left || Visited(w, work, e, v).0.over
  {
    if v.left == 0 then (v.(over := true), [])
    else
      var o := work(e, v.rd);
      var after := Visit(Recorded(v.rd, e, o), v.log + [e], v.left - 1, o.Ends?);
      (after, if o.Finished? then Made(SentBy(w, v.rd, e, o.outputs)) else [])
  }

  // ---- Recursive preorder ---------------------------------------------------------------------------------------

  /** Runs a node, then each of its children with everything below it, top to bottom. */
  function Preorder(w: Flow, work: Work, e: Entry, v: Visit): (r: Visit)
    requires !v.over
    ensures r.left <= v.left && (r.left < v.left || r.over)
    decreases v.left, 0
  {
    var (next, children) := Visited(w, work, e, v);
    if next.over then next else PreorderAll(w, work, SortEntries(w, children), next)
  }

  function PreorderAll(w: Flow, work: Work, es: seq<Entry>, v: Visit): (r: Visit)
    ensures r.left <= v.left
    decreases v.left, |es| + 1
  {
    if es == [] || v.over then v else PreorderAll(w, work, es[1..], Preorder(w, work, es[0], v))
  }

  // ---- Level by level -------------------------------------------------------------------------------------------

  /** Runs one level in order, gathering the next. */
  function RunLevel(w: Flow, work: Work, level: seq<Entry>, next: seq<Entry>, v: Visit): (r: (Visit, seq<Entry>))
    ensures r.0.left <= v.left
    ensures level != [] && !v.over ==> r.0.left < v.left || r.0.over
    decreases |level|
  {
    if level == [] || v.over then (v, next)
    else
      var (after, children) := Visited(w, work, level[0], v);
      RunLevel(w, work, level[1..], next + children, after)
  }

  function Levels(w: Flow, work: Work, level: seq<Entry>, v: Visit): Visit
    decreases v.left, !v.over
  {
    if level == [] || v.over then v
    else
      var (after, next) := RunLevel(w, work, level, [], v);
      Levels(w, work, next, after)
  }

  // ---- One turn without join sets -------------------------------------------------------------------------------

  lemma {:induction false} DeliveredAtOnce(w: Flow, ps: seq<Parcel>, ready: seq<Entry>, waiting: seq<Entry>)
    requires SingleInputs(w)
    ensures DeliverAll(w, ps, Pending(ready, waiting)) == Pending(ready + Made(ps), waiting)
  {
    if ps == [] {
      assert ready + Made(ps) == ready;
    } else {
      var e := Entry(ps[0].node, [Some(ps[0].items)], [Some(ps[0].source)]);
      DeliveredAtOnce(w, ps[1..], ready + [e], waiting);
      assert ready + Made(ps) == (ready + [e]) + Made(ps[1..]);
    }
  }

  function At(stack: seq<Entry>, v: Visit): Machine {
    Machine(stack, [], v.rd, v.log, v.left, v.over)
  }

  lemma {:induction false} TurnIsVisit(w: Flow, v1: bool, work: Work, e: Entry, rest: seq<Entry>, v: Visit)
    requires SingleInputs(w) && !v.over
    ensures var m := At([e] + rest, v);
            var (after, children) := Visited(w, work, e, v);
            var turned := Turn(w, v1, m, work(e, v.rd));
            CanPop(m) && Popped(m) == e && Result(turned) == after &&
            (!after.over ==> turned == At(if v1 then SortEntries(w, children) + rest else rest + children, after))
  {
    var m := At([e] + rest, v);
    assert m.stack[0] == e && m.stack[1..] == rest;
    if v.left > 0 && work(e, v.rd).Finished? {
      var ps := SentBy(w, v.rd, e, work(e, v.rd).outputs);
      DeliveredAtOnce(w, ps, [], []);
      assert [] + Made(ps) == Made(ps);
    }
  }

  lemma {:induction false} LoopVisits(w: Flow, v1: bool, work: Work, e: Entry, rest: seq<Entry>, v: Visit)
    requires SingleInputs(w) && !v.over
    ensures var (after, children) := Visited(w, work, e, v);
            Result(Loop(w, v1, work, At([e] + rest, v))) ==
              if after.over then after
              else Result(Loop(w, v1, work, At(if v1 then SortEntries(w, children) + rest else rest + children, after)))
  {
    TurnIsVisit(w, v1, work, e, rest, v);
    var m := At([e] + rest, v);
    var turned := Turn(w, v1, m, work(Popped(m), m.rd));
    assert Loop(w, v1, work, m) == Loop(w, v1, work, turned);
  }

  lemma HeadRest(es: seq<Entry>, below: seq<Entry>)
    requires es != []
    ensures es + below == [es[0]] + (es[1..] + below)
  {
  }

  /** The stack loop runs the top entries, each with everything below it, before it comes to the rest. */
  lemma {:induction false} LoopIsPreorder(w: Flow, work: Work, es: seq<Entry>, below: seq<Entry>, v: Visit)
    requires SingleInputs(w)
    ensures var r := PreorderAll(w, work, es, v);
            Result(Loop(w, true, work, At(es + below, v))) == if r.over then r
              else Result(Loop(w, true, work, At(below, r)))
    decreases v.left, |es|
  {
    if v.over {
    } else if es == [] {
      assert es + below == below;
    } else {
      var e, rest := es[0], es[1..] + below;
      HeadRest(es, below);
      LoopVisits(w, true, work, e, rest, v);
      var (after, children) := Visited(w, work, e, v);
      if !after.over {
        var below1 := SortEntries(w, children);
        LoopIsPreorder(w, work, below1, rest, after);
        var next := PreorderAll(w, work, below1, after);
        assert next == Preorder(w, work, e, v);
        if !next.over {
          LoopIsPreorder(w, work, es[1..], below, next);
        }
      }
    }
  }

  /** v1 order: an execution is the recursive depth-first preorder from its first entry. */
  lemma {:induction false} V1IsPreorder(w: Flow, work: Work, start: Entry, rd: RunData)
    requires SingleInputs(w)
    ensures Result(Loop(w, true, work, Begin(start, rd))) ==
        Preorder(w, work, start, Visit(rd, [], MAX_NODE_RUNS, false))
  {
    var v := Visit(rd, [], MAX_NODE_RUNS, false);
    LoopIsPreorder(w, work, [start], [], v);
    assert [start] + [] == [start];
    var r := Preorder(w, work, start, v);
    assert [start][1..] == [];
    assert PreorderAll(w, work, [start], v) == PreorderAll(w, work, [], r) == r;
    assert Loop(w, true, work, At([], r)) == At([], r);
  }

  /** Halfway through a level the stack is the rest of the level and, behind it, the next one so far. */
  lemma {:induction false} LoopRunsLevel(w: Flow, work: Work, level: seq<Entry>, next: seq<Entry>, v: Visit)
    requires SingleInputs(w)
    ensures var (after, below) := RunLevel(w, work, level, next, v);
            Result(Loop(w, false, work, At(level + next, v))) == if after.over then after
              else Result(Loop(w, false, work, At(below, after)))
    decreases |level|
  {
    if v.over {
    } else if level == [] {
      assert level + next == next;
    } else {
      HeadRest(level, next);
      LoopVisits(w, false, work, level[0], level[1..] + next, v);
      var (after, children) := Visited(w, work, level[0], v);
      if !after.over {
        LoopRunsLevel(w, work, level[1..], next + children, after);
        Associates(level[1..], next, children);
      } else {
        assert RunLevel(w, work, level[1..], next + children, after) == (after, next + children);
      }
    }
  }

  lemma {:induction false} LoopIsLevels(w: Flow, work: Work, level: seq<Entry>, v: Visit)
    requires SingleInputs(w)
    ensures Result(Loop(w, false, work, At(level, v))) == Levels(w, work, level, v)
    decreases v.left, !v.over
  {
    if level != [] && !v.over {
      LoopRunsLevel(w, work, level, [], v);
      assert level + [] == level;
      var (after, next) := RunLevel(w, work, level, [], v);
      LoopIsLevels(w, work, next, after);
    }
  }

  /** v0 order: an execution runs level by level, each node after all nodes nearer the start. */
  lemma {:induction false} V0IsLevelByLevel(w: Flow, work: Work, start: Entry, rd: RunData)
    requires SingleInputs(w)
    ensures Result(Loop(w, false, work, Begin(start, rd))) ==
        Levels(w, work, [start], Visit(rd, [], MAX_NODE_RUNS, false))
  {
    LoopIsLevels(w, work, [start], Visit(rd, [], MAX_NODE_RUNS, false));
  }

  // ---- Nearer the start first -----------------------------------------------------------------------------------

  /** How many entries the turn adds to the stack. */
  function Added(w: Flow, m: Machine, o: Outcome): nat
    requires CanPop(m)
  {
    if m.left > 0 && o.Finished? then |SentBy(w, m.rd, Popped(m), o.outputs)| else 0
  }

  /** For each entry in the stack after `n` turns its distance from the start: one more than that of the run
      that sent it. */
  function Distances(w: Flow, t: seq<Machine>, os: seq<Outcome>, n: nat): seq<nat>
    requires n <= |os| < |t|
  {
    if n == 0 then [0]
    else
      var before := Distances(w, t, os, n - 1);
      if before == [] || !CanPop(t[n - 1]) then []
      else before[1..] + OneMore(before, Added(w, t[n - 1], os[n - 1]))
  }

  function OneMore(before: seq<nat>, added: nat): seq<nat>
    requires before != []
  {
    seq(added, _ => before[0] + 1)
  }

  /** Each is as far as the one before it or one further, and none further than one more than the first. */
  ghost predicate Rising(d: seq<nat>) {
    && (forall i, j :: 0 <= i < j < |d| ==> d[i] <= d[j])
    && forall i :: 0 <= i < |d| ==> d[i] <= d[0] + 1
  }

  lemma {:induction false} MadeEach(ps: seq<Parcel>)
    ensures |Made(ps)| == |ps|
    ensures forall i :: 0 <= i < |ps| ==> Made(ps)[i] == Entry(ps[i].node, [Some(ps[i].items)], [Some(ps[i].source)])
  {
    if ps != [] { MadeEach(ps[1..]); }
  }

  /** What the turn adds to the stack. */
  function MadeBy(w: Flow, m: Machine, o: Outcome): seq<Entry>
    requires CanPop(m)
  {
    if m.left > 0 && o.Finished? then Made(SentBy(w, m.rd, Popped(m), o.outputs)) else []
  }

  lemma {:induction false} V0Turn(w: Flow, m: Machine, o: Outcome)
    requires SingleInputs(w) && CanPop(m) && m.waiting == []
    ensures Turn(w, false, m, o).stack == m.stack[1..] + MadeBy(w, m, o) && Turn(w, false, m, o).waiting == []
  {
    if m.left > 0 && o.Finished? {
      var ps := SentBy(w, m.rd, Popped(m), o.outputs);
      DeliveredAtOnce(w, ps, [], []);
      assert [] + Made(ps) == Made(ps);
    }
  }

  lemma RisingOn(d: seq<nat>, more: seq<nat>)
    requires Rising(d) && d != [] && forall i :: 0 <= i < |more| ==> more[i] == d[0] + 1
    ensures Rising(d[1..] + more) && (d[1..] + more != [] ==> d[0] <= (d[1..] + more)[0])
  {
    var now := d[1..] + more;
    forall i | 0 <= i < |now| ensures d[0] <= now[i] <= d[0] + 1 {
      if i < |d| - 1 { assert now[i] == d[i + 1]; }
    }
    forall i, j | 0 <= i < j < |now| ensures now[i] <= now[j] {
      if j < |d| - 1 { assert now[i] == d[i + 1] && now[j] == d[j + 1]; }
    }
  }

  /** The stack of v0 is a queue: distances rise along it. */
  lemma {:induction false} DistancesRise(w: Flow, t: seq<Machine>, os: seq<Outcome>, e: Entry, rd: RunData, n: nat)
    requires SingleInputs(w) && Run(w, false, t, os, e, rd) && n <= |os|
    ensures |Distances(w, t, os, n)| == |t[n].stack| && t[n].waiting == [] && Rising(Distances(w, t, os, n))
  {
    if n > 0 {
      DistancesRise(w, t, os, e, rd, n - 1);
      RunStep(w, false, t, os, e, rd, n - 1);
      V0Grows(w, t[n - 1], os[n - 1]);
      OneTurnRises(Distances(w, t, os, n - 1), Added(w, t[n - 1], os[n - 1]));
    }
  }

  lemma OneTurnRises(before: seq<nat>, added: nat)
    requires Rising(before) && before != []
    ensures Rising(before[1..] + OneMore(before, added))
  {
    RisingOn(before, OneMore(before, added));
  }

  lemma V0Grows(w: Flow, m: Machine, o: Outcome)
    requires SingleInputs(w) && CanPop(m) && m.waiting == []
    ensures |Turn(w, false, m, o).stack| == |m.stack| - 1 + Added(w, m, o) && Turn(w, false, m, o).waiting == []
  {
    V0Turn(w, m, o);
    MadeEach(if m.left > 0 && o.Finished? then SentBy(w, m.rd, Popped(m), o.outputs) else []);
  }

  /** The distance of the entry that has the `n`-th turn. */
  function Distance(w: Flow, t: seq<Machine>, os: seq<Outcome>, n: nat): nat
    requires n <= |os| < |t|
  {
    var d := Distances(w, t, os, n);
    if d == [] then 0 else d[0]
  }

  /** The entry's recorded source is the run of the `p`-th turn, and its items are what that run sent there. */
  ghost predicate SentInTurn(t: seq<Machine>, os: seq<Outcome>, p: nat, x: Entry) {
    && p < |os| < |t| && CanPop(t[p]) && os[p].Finished?
    && |x.source| == 1 && x.source[0].Some?
    && var src := x.source[0].value;
       && src.node == Popped(t[p]).node && src.run == |RunsOf(t[p].rd, src.node)|
       && src.output < |os[p].outputs| && x.inputs == [Some(os[p].outputs[src.output])]
  }

  ghost predicate OneFurther(w: Flow, t: seq<Machine>, os: seq<Outcome>, n: nat, x: Entry, d: nat)
    requires n <= |os| < |t|
  {
    exists p :: 0 <= p < n && SentInTurn(t, os, p, x) && d == Distance(w, t, os, p) + 1
  }

  lemma MadeIsSent(w: Flow, t: seq<Machine>, os: seq<Outcome>, p: nat, i: nat)
    requires p < |os| < |t| && CanPop(t[p]) && os[p].Finished? && i < |SentBy(w, t[p].rd, Popped(t[p]), os[p].outputs)|
    ensures i < |Made(SentBy(w, t[p].rd, Popped(t[p]), os[p].outputs))|
    ensures SentInTurn(t, os, p, Made(SentBy(w, t[p].rd, Popped(t[p]), os[p].outputs))[i])
  {
    var e, ps := Popped(t[p]), SentBy(w, t[p].rd, Popped(t[p]), os[p].outputs);
    MadeEach(ps);
    ParcelsSource(w, e.node, os[p].outputs, |RunsOf(t[p].rd, e.node)|, 0, ps[i]);
  }

  /** After a turn the stack is what it was behind the entry that had the turn, then what the turn sent. */
  lemma V0Step(w: Flow, t: seq<Machine>, os: seq<Outcome>, e: Entry, rd: RunData, n: nat)
    requires SingleInputs(w) && Run(w, false, t, os, e, rd) && 0 < n <= |os|
    ensures CanPop(t[n - 1]) && t[n - 1].stack != []
    ensures t[n].stack == t[n - 1].stack[1..] + MadeBy(w, t[n - 1], os[n - 1])
  {
    DistancesRise(w, t, os, e, rd, n - 1);
    RunStep(w, false, t, os, e, rd, n - 1);
    V0Turn(w, t[n - 1], os[n - 1]);
  }

  lemma {:induction false} AsManyDistances(w: Flow, t: seq<Machine>, os: seq<Outcome>, e: Entry, rd: RunData, n: nat)
    requires SingleInputs(w) && Run(w, false, t, os, e, rd) && n <= |os|
    ensures |Distances(w, t, os, n)| == |t[n].stack|
  {
    DistancesRise(w, t, os, e, rd, n);
  }

  /** The place of an entry one turn earlier, or among what the turn sent, with its distance. */
  lemma V0StepAt(w: Flow, t: seq<Machine>, os: seq<Outcome>, e: Entry, rd: RunData, n: nat, i: nat)
    requires SingleInputs(w) && Run(w, false, t, os, e, rd) && 0 < n <= |os| && i < |t[n].stack|
    ensures CanPop(t[n - 1]) && |Distances(w, t, os, n)| == |t[n].stack|
    ensures |Distances(w, t, os, n - 1)| == |t[n - 1].stack|
    ensures i < |t[n - 1].stack| - 1 ==>
              && t[n].stack[i] == t[n - 1].stack[i + 1]
              && Distances(w, t, os, n)[i] == Distances(w, t, os, n - 1)[i + 1]
    ensures var k := i - (|t[n - 1].stack| - 1);
            k >= 0 ==>
              && k < |MadeBy(w, t[n - 1], os[n - 1])| && t[n].stack[i] == MadeBy(w, t[n - 1], os[n - 1])[k]
              && Distances(w, t, os, n)[i] == Distance(w, t, os, n - 1) + 1
  {
    V0Step(w, t, os, e, rd, n);
    AsManyDistances(w, t, os, e, rd, n - 1);
    AsManyDistances(w, t, os, e, rd, n);
  }

  lemma {:induction false} StaysFurther(w: Flow, t: seq<Machine>, os: seq<Outcome>, n: nat, x: Entry, d: nat)
    requires n < |os| < |t| && OneFurther(w, t, os, n, x, d)
    ensures OneFurther(w, t, os, n + 1, x, d)
  {
  }

  /** What a turn sends is one further than the entry that had the turn. */
  lemma {:induction false} JustSent(w: Flow, t: seq<Machine>, os: seq<Outcome>, n: nat, k: nat, x: Entry)
    requires n < |os| < |t| && CanPop(t[n]) && k < |MadeBy(w, t[n], os[n])| && x == MadeBy(w, t[n], os[n])[k]
    ensures OneFurther(w, t, os, n + 1, x, Distance(w, t, os, n) + 1)
  {
    MadeEach(SentBy(w, t[n].rd, Popped(t[n]), os[n].outputs));
    MadeIsSent(w, t, os, n, k);
  }

  /** The distance of the `i`-th entry in the stack is counted along its recorded source. */
  ghost predicate Counted(w: Flow, t: seq<Machine>, os: seq<Outcome>, n: nat, i: nat)
    requires n <= |os| < |t|
  {
    && i < |t[n].stack| == |Distances(w, t, os, n)|
    && OneFurther(w, t, os, n, t[n].stack[i], Distances(w, t, os, n)[i])
  }

  lemma {:induction false} CountedBefore(w: Flow, t: seq<Machine>, os: seq<Outcome>, e: Entry, rd: RunData, n: nat,
      i: nat)
    requires SingleInputs(w) && Run(w, false, t, os, e, rd) && 0 < n <= |os| && i < |t[n].stack|
    requires i < |t[n - 1].stack| - 1 && Counted(w, t, os, n - 1, i + 1)
    ensures Counted(w, t, os, n, i)
  {
    V0StepAt(w, t, os, e, rd, n, i);
    StaysFurther(w, t, os, n - 1, t[n].stack[i], Distances(w, t, os, n)[i]);
  }

  lemma {:induction false} CountedNow(w: Flow, t: seq<Machine>, os: seq<Outcome>, e: Entry, rd: RunData, n: nat,
      i: nat)
    requires SingleInputs(w) && Run(w, false, t, os, e, rd) && 0 < n <= |os| && i < |t[n].stack|
    requires i >= |t[n - 1].stack| - 1
    ensures Counted(w, t, os, n, i)
  {
    V0StepAt(w, t, os, e, rd, n, i);
    JustSent(w, t, os, n - 1, i - (|t[n - 1].stack| - 1), t[n].stack[i]);
  }

  /** The distances are counted along the recorded sources. */
  lemma {:induction false} DistancesBySource(w: Flow, t: seq<Machine>, os: seq<Outcome>, e: Entry, rd: RunData, n: nat,
      i: nat)
    requires SingleInputs(w) && Run(w, false, t, os, e, rd) && 0 < n <= |os| && i < |t[n].stack|
    ensures Counted(w, t, os, n, i)
  {
    if i < |t[n - 1].stack| - 1 {
      FirstIsStart(w, t, os, e, rd);
      DistancesBySource(w, t, os, e, rd, n - 1, i + 1);
      CountedBefore(w, t, os, e, rd, n, i);
    } else {
      CountedNow(w, t, os, e, rd, n, i);
    }
  }

  lemma FirstIsStart(w: Flow, t: seq<Machine>, os: seq<Outcome>, e: Entry, rd: RunData)
    requires Run(w, false, t, os, e, rd)
    ensures |t[0].stack| == 1
  {
  }

  lemma {:induction false} DistanceGrows(w: Flow, t: seq<Machine>, os: seq<Outcome>, e: Entry, rd: RunData, i: nat,
      j: nat)
    requires SingleInputs(w) && Run(w, false, t, os, e, rd) && i <= j < |os|
    ensures Distance(w, t, os, i) <= Distance(w, t, os, j)
  {
    if i < j {
      DistanceGrows(w, t, os, e, rd, i, j - 1);
      DistancesRise(w, t, os, e, rd, j - 1);
      DistancesRise(w, t, os, e, rd, j);
      RunStep(w, false, t, os, e, rd, j - 1);
      RunStep(w, false, t, os, e, rd, j);
      var m, o, before := t[j - 1], os[j - 1], Distances(w, t, os, j - 1);
      RisingOn(before, seq(Added(w, m, o), _ => before[0] + 1));
    }
  }

  /** v0 order is breadth first: counted along the recorded sources, the start is at distance 0, every later run one
      further than the run that sent its items, and the distances never decrease from run to run. */
  lemma {:induction false} V0NearestFirst(w: Flow, t: seq<Machine>, os: seq<Outcome>, e: Entry, rd: RunData, i: nat,
      j: nat)
    requires SingleInputs(w) && Run(w, false, t, os, e, rd) && i <= j < |os|
    ensures CanPop(t[j]) && (j == 0 ==> Distance(w, t, os, j) == 0)
    ensures j > 0 ==> OneFurther(w, t, os, j, Popped(t[j]), Distance(w, t, os, j))
    ensures Distance(w, t, os, i) <= Distance(w, t, os, j)
  {
    RunStep(w, false, t, os, e, rd, j);
    DistancesRise(w, t, os, e, rd, j);
    if j > 0 { DistancesBySource(w, t, os, e, rd, j, 0); }
    DistanceGrows(w, t, os, e, rd, i, j);
  }

  // ---- Top to bottom --------------------------------------------------------------------------------------------

  ghost predicate TopToBottom(w: Flow, s: seq<Entry>) {
    forall i, j :: 0 <= i < j < |s| ==> !Before(PositionOf(w, s[j]), PositionOf(w, s[i]))
  }

  /** The entries at one place on the canvas, in order. */
  function AtPlace(w: Flow, s: seq<Entry>, place: (real, real)): seq<Entry> {
    if s == [] then []
    else (if PositionOf(w, s[0]) == place then [s[0]] else []) + AtPlace(w, s[1..], place)
  }

  lemma {:induction false} InsertElements(w: Flow, e: Entry, s: seq<Entry>)
    ensures forall x :: x in InsertEntry(w, e, s) <==> x == e || x in s
  {
    if s != [] && Before(PositionOf(w, s[0]), PositionOf(w, e)) {
      InsertElements(w, e, s[1..]);
      assert s == [s[0]] + s[1..];
    }
  }

  lemma ConsTopToBottom(w: Flow, e: Entry, s: seq<Entry>)
    requires TopToBottom(w, s) && forall x :: x in s ==> !Before(PositionOf(w, x), PositionOf(w, e))
    ensures TopToBottom(w, [e] + s)
  {
    var r := [e] + s;
    forall i, j | 0 <= i < j < |r| ensures !Before(PositionOf(w, r[j]), PositionOf(w, r[i])) {
      assert r[j] == s[j - 1];
      assert i > 0 ==> r[i] == s[i - 1];
    }
  }

  lemma {:induction false} InsertTopToBottom(w: Flow, e: Entry, s: seq<Entry>)
    requires TopToBottom(w, s)
    ensures TopToBottom(w, InsertEntry(w, e, s))
  {
    if s == [] || !Before(PositionOf(w, s[0]), PositionOf(w, e)) {
      forall x | x in s ensures !Before(PositionOf(w, x), PositionOf(w, e)) {
        var k :| 0 <= k < |s| && s[k] == x;
      }
      ConsTopToBottom(w, e, s);
    } else {
      var rest := s[1..];
      assert TopToBottom(w, rest) by {
        forall i, j | 0 <= i < j < |rest| ensures !Before(PositionOf(w, rest[j]), PositionOf(w, rest[i])) {
          assert rest[i] == s[i + 1] && rest[j] == s[j + 1];
        }
      }
      InsertTopToBottom(w, e, rest);
      InsertElements(w, e, rest);
      forall x | x in InsertEntry(w, e, rest) ensures !Before(PositionOf(w, x), PositionOf(w, s[0])) {
        if x in rest {
          var k :| 0 <= k < |rest| && rest[k] == x;
          assert s[k + 1] == x;
        }
      }
      ConsTopToBottom(w, s[0], InsertEntry(w, e, rest));
    }
  }

  lemma {:induction false} InsertKeepsPlace(w: Flow, e: Entry, s: seq<Entry>, place: (real, real))
    ensures AtPlace(w, InsertEntry(w, e, s), place) == (if PositionOf(w, e) == place then [e] else [])
        + AtPlace(w, s, place)
  {
    if s == [] || !Before(PositionOf(w, s[0]), PositionOf(w, e)) {
      assert ([e] + s)[1..] == s;
    } else {
      InsertKeepsPlace(w, e, s[1..], place);
      assert ([s[0]] + InsertEntry(w, e, s[1..]))[1..] == InsertEntry(w, e, s[1..]);
    }
  }

  /** The node that goes by the name: the first that bears it. */
  ghost predicate FirstNamed(w: Flow, name: NodeId, k: nat) {
    k < |w.nodes| && w.nodes[k].name == name && forall l :: 0 <= l < k ==> w.nodes[l].name != name
  }

  lemma {:induction false} FindsFirst(w: Flow, nodes: seq<Node>, name: NodeId, k: nat)
    requires k < |nodes| && nodes[k].name == name && forall l :: 0 <= l < k ==> nodes[l].name != name
    ensures Find(nodes, name) == Some(nodes[k])
  {
    if k > 0 { FindsFirst(w, nodes[1..], name, k - 1); }
  }

  /** Of two entries the earlier one's node lies higher, or as high and not further to the right. */
  ghost predicate DownThenRight(w: Flow, s: seq<Entry>) {
    forall i, j, k: nat, l: nat :: 0 <= i < j < |s| && FirstNamed(w, s[i].node, k) && FirstNamed(w, s[j].node, l) ==>
      w.nodes[k].y < w.nodes[l].y || (w.nodes[k].y == w.nodes[l].y && w.nodes[k].x <= w.nodes[l].x)
  }

  lemma SortedDownThenRight(w: Flow, s: seq<Entry>)
    requires TopToBottom(w, s)
    ensures DownThenRight(w, s)
  {
    forall i, j, k: nat, l: nat | 0 <= i < j < |s| && FirstNamed(w, s[i].node, k) && FirstNamed(w, s[j].node, l)
      ensures w.nodes[k].y < w.nodes[l].y || (w.nodes[k].y == w.nodes[l].y && w.nodes[k].x <= w.nodes[l].x)
    {
      FindsFirst(w, w.nodes, s[i].node, k);
      FindsFirst(w, w.nodes, s[j].node, l);
      assert !Before(PositionOf(w, s[j]), PositionOf(w, s[i]));
    }
  }

  /** Children run top to bottom, then left to right; those at the same place in the order they were sent. */
  lemma {:induction false} ChildrenSortedStably(w: Flow, s: seq<Entry>, place: (real, real))
    ensures TopToBottom(w, SortEntries(w, s)) && DownThenRight(w, SortEntries(w, s))
    ensures AtPlace(w, SortEntries(w, s), place) == AtPlace(w, s, place)
  {
    if s != [] {
      ChildrenSortedStably(w, s[1..], place);
      InsertTopToBottom(w, s[0], SortEntries(w, s[1..]));
      InsertKeepsPlace(w, s[0], SortEntries(w, s[1..]), place);
    }
    SortedDownThenRight(w, SortEntries(w, s));
  }
}
