/** Every order of turns that the links allow can happen (src/engine.rs): whichever of the ready nodes of a list the
    scheduler puts off, there is a run that does so, in this list and in all passes inside it. */
module Schedules {

  import opened Workflows
  import opened Sequences
  import opened LoopLayout
  import opened NodeRuns
  import opened LoopBatches
  import opened RunLists
  import opened RunLogs
  import opened LoopTrees
  import opened RunsAgree
  import opened WorkflowRun
  import Steps = RunGraph

  // ---- Putting nodes off ----------------------------------------------------------------------------------------

  /** The indexes of the nodes that are put off, or of those that are not, in order. */
  function Those(list: seq<NodeInstance>, n: nat, late: set<NodeId>, put: bool): seq<nat>
    requires n <= |list|
  {
    if n == 0 then []
    else Those(list, n - 1, late, put) + if (list[n - 1].id in late) == put then [n - 1] else []
  }

  lemma {:induction false} ThoseAre(list: seq<NodeInstance>, n: nat, late: set<NodeId>, put: bool, i: nat)
    requires n <= |list|
    ensures i in Those(list, n, late, put) <==> i < n && ((list[i].id in late) == put)
  {
    if n > 0 { ThoseAre(list, n - 1, late, put, i); }
  }

  lemma {:induction false} ThoseRise(list: seq<NodeInstance>, n: nat, late: set<NodeId>, put: bool, j: nat, k: nat)
    requires n <= |list| && j < k < |Those(list, n, late, put)|
    ensures Those(list, n, late, put)[j] < Those(list, n, late, put)[k] < n
  {
    var before := Those(list, n - 1, late, put);
    if k < |before| {
      ThoseRise(list, n - 1, late, put, j, k);
    } else {
      ThoseAre(list, n - 1, late, put, before[j]);
    }
  }

  /** The nodes put off come last; apart from that, in order. */
  function Schedule(list: seq<NodeInstance>, late: set<NodeId>): seq<nat> {
    Those(list, |list|, late, false) + Those(list, |list|, late, true)
  }

  /** Whatever a node put off feeds in its list is put off too. */
  ghost predicate Deferred(s: Setup, late: set<NodeId>) {
    forall c :: c in s.Links() && c.fromNode in late && OwnerOf(s.owner, c.fromNode) == OwnerOf(s.owner, c.toNode) ==>
      c.toNode in late
  }

  lemma ScheduleHolds(list: seq<NodeInstance>, late: set<NodeId>, i: nat)
    ensures i in Schedule(list, late) <==> i < |list|
  {
    ThoseAre(list, |list|, late, false, i);
    ThoseAre(list, |list|, late, true, i);
  }

  /** The first half of the schedule is what is not put off. */
  lemma {:induction false} Halves(list: seq<NodeInstance>, late: set<NodeId>, k: nat)
    requires k < |Schedule(list, late)|
    ensures Schedule(list, late)[k] < |list|
    ensures k < |Those(list, |list|, late, false)| <==> list[Schedule(list, late)[k]].id !in late
  {
    var i := Schedule(list, late)[k];
    ScheduleHolds(list, late, i);
    ThoseAre(list, |list|, late, false, i);
    ThoseAre(list, |list|, late, true, i);
    if k < |Those(list, |list|, late, false)| { assert i in Those(list, |list|, late, false); }
  }

  /** A node not put off comes before one that is. */
  lemma LateLast(list: seq<NodeInstance>, late: set<NodeId>, j: nat, k: nat)
    requires j < |Schedule(list, late)| && k < |Schedule(list, late)|
    requires Schedule(list, late)[j] < |list| && Schedule(list, late)[k] < |list|
    requires list[Schedule(list, late)[j]].id !in late && list[Schedule(list, late)[k]].id in late
    ensures j < k
  {
    Halves(list, late, j);
    Halves(list, late, k);
  }

  /** Of two nodes put off, or two not, the first in the schedule is the first in the list. */
  lemma InOrderOtherwise(list: seq<NodeInstance>, late: set<NodeId>, j: nat, k: nat)
    requires j < k < |Schedule(list, late)|
    requires Schedule(list, late)[j] < |list| && Schedule(list, late)[k] < |list|
    requires (list[Schedule(list, late)[j]].id in late) == (list[Schedule(list, late)[k]].id in late)
    ensures Schedule(list, late)[j] < Schedule(list, late)[k]
  {
    var m := |Those(list, |list|, late, false)|;
    Halves(list, late, j);
    Halves(list, late, k);
    if k < m { ThoseRise(list, |list|, late, false, j, k); } else { ThoseRise(list, |list|, late, true, j - m, k - m); }
  }

  lemma ScheduleOnce(list: seq<NodeInstance>, late: set<NodeId>)
    ensures NoRepeats(Schedule(list, late))
  {
    var sched := Schedule(list, late);
    forall j, k | 0 <= j < k < |sched| ensures sched[j] != sched[k] {
      Halves(list, late, j);
      Halves(list, late, k);
      if sched[j] == sched[k] { InOrderOtherwise(list, late, j, k); }
    }
  }

  lemma PlaceInSchedule(list: seq<NodeInstance>, late: set<NodeId>, i: nat) returns (k: nat)
    requires i < |list|
    ensures k < |Schedule(list, late)| && Schedule(list, late)[k] == i
  {
    ScheduleHolds(list, late, i);
    k :| 0 <= k < |Schedule(list, late)| && Schedule(list, late)[k] == i;
  }

  /** A node whose feeders in the list are put off only if it is, and that come before it in the list. */
  lemma DepEarlier(list: seq<NodeInstance>, late: set<NodeId>, j: nat, k: nat) returns (m: nat)
    requires k < |Schedule(list, late)| && Schedule(list, late)[k] < |list| && j < Schedule(list, late)[k]
    requires list[j].id in late ==> list[Schedule(list, late)[k]].id in late
    ensures m < k && Schedule(list, late)[m] == j
  {
    m := PlaceInSchedule(list, late, j);
    if list[j].id !in late && list[Schedule(list, late)[k]].id in late {
      LateLast(list, late, m, k);
    } else if k < m {
      InOrderOtherwise(list, late, k, m);
    }
  }

  lemma DepOf(s: Setup, order: seq<NodeInstance>, at: Option<NodeId>, late: set<NodeId>, i: nat, j: nat)
    requires Planned(s, order) && IsPlace(s, at) && Deferred(s, late) && i < |ListAt(s, order, at)|
    requires j in Steps.Deps(s, ListAt(s, order, at), i)
    ensures j < i && (ListAt(s, order, at)[j].id in late ==> ListAt(s, order, at)[i].id in late)
  {
    var list := ListAt(s, order, at);
    var c :| c in s.Links() && c.fromNode == list[j].id && c.toNode == list[i].id;
    PlaceSorted(s, order, at);
    Listing(s, order, at, list[i]);
    Listing(s, order, at, list[j]);
  }

  lemma {:induction false} ScheduleFits(s: Setup, order: seq<NodeInstance>, at: Option<NodeId>, late: set<NodeId>)
    requires Planned(s, order) && IsPlace(s, at) && Deferred(s, late)
    ensures FeedersFirst(s, ListAt(s, order, at), Schedule(ListAt(s, order, at), late))
  {
    var list := ListAt(s, order, at);
    var sched := Schedule(list, late);
    ScheduleOnce(list, late);
    forall k, j | 0 <= k < |sched| && sched[k] < |list| && j in Steps.Deps(s, list, sched[k]) ensures j in sched[..k] {
      DepOf(s, order, at, late, sched[k], j);
      var m := DepEarlier(list, late, j, k);
      assert sched[..k][m] == j;
    }
  }

  // ---- Runs that keep to it -------------------------------------------------------------------------------------

  /** The turns happened in the order of the schedule, and so did those of every pass inside. */
  ghost predicate RunFollows(s: Setup, order: seq<NodeInstance>, late: set<NodeId>, at: Option<NodeId>,
      turns: seq<Turn>)
    decreases turns
  {
    var list := ListAt(s, order, at);
    && Indexes(turns) <= Schedule(list, late)
    && forall k: nat {:trigger TurnAt(turns, k)} :: k < |turns| && turns[k].index < |list| ==>
         TurnFollows(s, order, late, list[turns[k].index], turns[k])
  }

  ghost predicate TurnFollows(s: Setup, order: seq<NodeInstance>, late: set<NodeId>, n: NodeInstance, t: Turn)
    decreases t
  {
    forall k: nat {:trigger PassAt(t.passes, k)} :: k < |t.passes| ==>
      RunFollows(s, order, late, Some(n.id), t.passes[k].turns)
  }

  lemma {:induction false} FollowsAt(s: Setup, order: seq<NodeInstance>, late: set<NodeId>, at: Option<NodeId>,
      turns: seq<Turn>, k: nat)
    requires RunFollows(s, order, late, at, turns) && k < |turns| && turns[k].index < |ListAt(s, order, at)|
    ensures TurnFollows(s, order, late, ListAt(s, order, at)[turns[k].index], turns[k])
    ensures k < |Schedule(ListAt(s, order, at), late)| && Schedule(ListAt(s, order, at), late)[k] == turns[k].index
  {
    assert TurnAt(turns, k) == turns[k];
    assert Indexes(turns)[k] == turns[k].index;
  }

  lemma {:induction false} PassFollows(s: Setup, order: seq<NodeInstance>, late: set<NodeId>, n: NodeInstance, t: Turn,
      k: nat)
    requires TurnFollows(s, order, late, n, t) && k < |t.passes|
    ensures RunFollows(s, order, late, Some(n.id), t.passes[k].turns)
  {
    assert PassAt(t.passes, k) == t.passes[k];
  }

  lemma {:induction false} RanInTurn(s: Setup, order: seq<NodeInstance>, late: set<NodeId>, at: Option<NodeId>,
      turns: seq<Turn>)
    requires RunFollows(s, order, late, at, turns) && |turns| <= |Schedule(ListAt(s, order, at), late)|
    ensures Indexes(turns) == Schedule(ListAt(s, order, at), late)[..|turns|]
  {
    assert |Indexes(turns)| == |turns|;
  }

  /** In a run that keeps to the schedule a node that is not put off has its turn before one that is. */
  lemma {:induction false} LateTurnsLast(s: Setup, order: seq<NodeInstance>, late: set<NodeId>, at: Option<NodeId>,
      a: Log, j: nat, k: nat)
    requires IsRun(s, order, at, a) && RunFollows(s, order, late, at, a.turns) && j < |a.turns| && k < |a.turns|
    requires a.turns[j].index < |ListAt(s, order, at)| && a.turns[k].index < |ListAt(s, order, at)|
    requires NodeAt(s, order, at, a, j).id !in late && NodeAt(s, order, at, a, k).id in late
    ensures j < k
  {
    FollowsAt(s, order, late, at, a.turns, j);
    FollowsAt(s, order, late, at, a.turns, k);
    LateLast(ListAt(s, order, at), late, j, k);
  }

  lemma {:induction false} OneMoreFollows(s: Setup, order: seq<NodeInstance>, late: set<NodeId>, at: Option<NodeId>,
      turns: seq<Turn>, t: Turn)
    requires RunFollows(s, order, late, at, turns) && t.index < |ListAt(s, order, at)|
    requires TurnFollows(s, order, late, ListAt(s, order, at)[t.index], t)
    requires |turns| < |Schedule(ListAt(s, order, at), late)|
    requires Schedule(ListAt(s, order, at), late)[|turns|] == t.index
    ensures RunFollows(s, order, late, at, turns + [t])
  {
    var now, list := turns + [t], ListAt(s, order, at);
    assert Indexes(now) == Indexes(turns) + [t.index];
    forall k: nat | k < |now| && now[k].index < |list| ensures TurnFollows(s, order, late, list[now[k].index], now[k]) {
      if k < |turns| { FollowsAt(s, order, late, at, turns, k); }
    }
  }

  // ---- There are such runs --------------------------------------------------------------------------------------

  /** The turns so far, all good, in the order of the schedule. */
  ghost predicate Underway(s: Setup, order: seq<NodeInstance>, late: set<NodeId>, at: Option<NodeId>, start: RunState,
      turns: seq<Turn>)
  {
    && SoFar(s, order, ListAt(s, order, at), start, turns, StateAt(start, turns, |turns|), RanBy(turns, |turns|))
    && RunFollows(s, order, late, at, turns)
  }

  lemma {:induction false} Begun(s: Setup, order: seq<NodeInstance>, late: set<NodeId>, at: Option<NodeId>,
      start: RunState)
    ensures Underway(s, order, late, at, start, [])
  {
    NoTurnsYet(s, order, ListAt(s, order, at), start);
    assert RanBy([], 0) == {};
  }

  /** A scheduled node has not run before its place, and what it waits for has. */
  lemma {:induction false} DueNext(s: Setup, list: seq<NodeInstance>, sched: seq<nat>, turns: seq<Turn>)
    requires FeedersFirst(s, list, sched) && |turns| < |sched| && sched[|turns|] < |list|
    requires Indexes(turns) == sched[..|turns|]
    ensures sched[|turns|] !in RanBy(turns, |turns|)
    ensures Steps.Deps(s, list, sched[|turns|]) <= RanBy(turns, |turns|)
  {
    var k := |turns|;
    assert Indexes(turns)[..k] == sched[..k];
    forall j | j in Steps.Deps(s, list, sched[k]) ensures j in RanBy(turns, k) { assert j in sched[..k]; }
  }

  lemma {:induction false} NextIsReady(s: Setup, order: seq<NodeInstance>, late: set<NodeId>, at: Option<NodeId>,
      start: RunState, turns: seq<Turn>)
    returns (i: nat)
    requires Planned(s, order) && IsPlace(s, at) && Deferred(s, late) && Underway(s, order, late, at, start, turns)
    requires |turns| < |Schedule(ListAt(s, order, at), late)|
    ensures i == Schedule(ListAt(s, order, at), late)[|turns|] < |ListAt(s, order, at)|
    ensures i !in RanBy(turns, |turns|) && Steps.Deps(s, ListAt(s, order, at), i) <= RanBy(turns, |turns|)
  {
    var list, k := ListAt(s, order, at), |turns|;
    var sched := Schedule(list, late);
    i := sched[k];
    Halves(list, late, k);
    ScheduleFits(s, order, at, late);
    RanInTurn(s, order, late, at, turns);
    DueNext(s, list, sched, turns);
  }

  /** One turn more goes on, or ends the run. */
  lemma {:induction false} GoOn(s: Setup, order: seq<NodeInstance>, late: set<NodeId>, at: Option<NodeId>,
      start: RunState, turns: seq<Turn>, t: Turn)
    requires Underway(s, order, late, at, start, turns) && t.before == StateAt(start, turns, |turns|)
    requires t.index < |ListAt(s, order, at)| && t.index !in RanBy(turns, |turns|)
    requires Steps.Deps(s, ListAt(s, order, at), t.index) <= RanBy(turns, |turns|)
    requires |turns| < |Schedule(ListAt(s, order, at), late)|
    requires Schedule(ListAt(s, order, at), late)[|turns|] == t.index
    requires TurnRan(s, order, ListAt(s, order, at)[t.index], t)
    requires TurnFollows(s, order, late, ListAt(s, order, at)[t.index], t)
    ensures t.ok ==> Underway(s, order, late, at, start, turns + [t])
    ensures !t.ok ==> GraphRan(s, order, ListAt(s, order, at), start, turns + [t], t.after, false)
    ensures !t.ok ==> RunFollows(s, order, late, at, turns + [t])
  {
    var list, finished := ListAt(s, order, at), RanBy(turns, |turns|);
    Grows(s, order, list, start, turns, t, finished);
    OneMoreFollows(s, order, late, at, turns, t);
    if t.ok { RanOneMore(turns, t); }
  }

  lemma RanOneMore(turns: seq<Turn>, t: Turn)
    ensures RanBy(turns + [t], |turns + [t]|) == RanBy(turns, |turns|) + {t.index}
    ensures StateAt(t.before, turns + [t], |turns| + 1) == t.after
  {
    assert Indexes(turns + [t])[..|turns| + 1] == Indexes(turns) + [t.index];
    assert Indexes(turns)[..|turns|] == Indexes(turns);
  }

  lemma {:induction false} AllHadTheirs(s: Setup, order: seq<NodeInstance>, late: set<NodeId>, at: Option<NodeId>,
      start: RunState, turns: seq<Turn>)
    requires Underway(s, order, late, at, start, turns) && |turns| == |Schedule(ListAt(s, order, at), late)|
    ensures GraphRan(s, order, ListAt(s, order, at), start, turns, StateAt(start, turns, |turns|), true)
  {
    var list := ListAt(s, order, at);
    forall i | 0 <= i < |list| ensures i in RanBy(turns, |turns|) {
      ScheduleHolds(list, late, i);
      assert Indexes(turns) == Schedule(list, late);
      RanByAll(turns, i);
    }
    ThroughWithAll(s, order, list, start, turns, StateAt(start, turns, |turns|), RanBy(turns, |turns|));
  }

  lemma {:induction false} RunOn(s: Setup, order: seq<NodeInstance>, late: set<NodeId>, at: Option<NodeId>,
      start: RunState, turns: seq<Turn>)
    returns (a: Log)
    requires Planned(s, order) && IsPlace(s, at) && Deferred(s, late) && Underway(s, order, late, at, start, turns)
    ensures IsRun(s, order, at, a) && a.start == start && RunFollows(s, order, late, at, a.turns)
    decreases DepthAt(s, at), 2, |Schedule(ListAt(s, order, at), late)| - |turns|
  {
    if |turns| == |Schedule(ListAt(s, order, at), late)| {
      AllHadTheirs(s, order, late, at, start, turns);
      a := Log(start, turns, StateAt(start, turns, |turns|), true);
    } else {
      var i := NextIsReady(s, order, late, at, start, turns);
      var t := TurnExists(s, order, late, at, ListAt(s, order, at)[i], i, StateAt(start, turns, |turns|));
      GoOn(s, order, late, at, start, turns, t);
      if t.ok {
        a := RunOn(s, order, late, at, start, turns + [t]);
      } else {
        a := Log(start, turns + [t], t.after, false);
      }
    }
  }

  /** From any state there is a run of any list that keeps to the schedule. */
  lemma {:induction false} RunExists(s: Setup, order: seq<NodeInstance>, late: set<NodeId>, at: Option<NodeId>,
      start: RunState) returns (a: Log)
    requires Planned(s, order) && IsPlace(s, at) && Deferred(s, late)
    ensures IsRun(s, order, at, a) && a.start == start && RunFollows(s, order, late, at, a.turns)
    decreases DepthAt(s, at), 3, 0
  {
    Begun(s, order, late, at, start);
    a := RunOn(s, order, late, at, start, []);
  }

  lemma {:induction false} TurnExists(s: Setup, order: seq<NodeInstance>, late: set<NodeId>, at: Option<NodeId>,
      n: NodeInstance, i: nat, st: RunState)
    returns (t: Turn)
    requires Planned(s, order) && IsPlace(s, at) && Deferred(s, late) && n in ListAt(s, order, at)
    ensures TurnRan(s, order, n, t) && TurnFollows(s, order, late, n, t) && t.index == i && t.before == st
    decreases DepthAt(s, at), 1, 0
  {
    Listing(s, order, at, n);
    OnlyLoopsEnter(s, st, n);
    match NodeOutcome(s, st, n)
    case Fails => t := Turn(i, st, st, [], false);
    case Stores(output, errors, status, reused) =>
      t := Turn(i, st, Store(st, n.id, Stores(output, errors, status, reused)), [], true);
    case EntersLoop(input) =>
      BodySmaller(s, order, at, n);
      t := LoopExists(s, order, late, n, input, i, st);
  }

  /** Between two passes of a loop's turn that keeps to the schedule. */
  ghost predicate Circling(s: Setup, order: seq<NodeInstance>, late: set<NodeId>, n: NodeInstance, start: RunState,
      passes: seq<Pass>, queue: seq<Item>,
      input: seq<Item>)
  {
    && Looping(s, order, n, start, passes, PassState(start, passes, |passes|), queue, input,
      Totals(OwnedNodes(s, order, n), passes),
               Done(BackLinksInto(s.w.connections, s.back, n.id), passes))
    && PassesFollow(s, order, late, n, passes)
  }

  ghost predicate PassesFollow(s: Setup, order: seq<NodeInstance>, late: set<NodeId>, n: NodeInstance,
      passes: seq<Pass>)
  {
    forall k: nat {:trigger PassAt(passes, k)} :: k < |passes| ==>
      RunFollows(s, order, late, Some(n.id), passes[k].turns)
  }

  lemma {:induction false} OnePassMore(s: Setup, order: seq<NodeInstance>, late: set<NodeId>, n: NodeInstance,
      passes: seq<Pass>, p: Pass)
    requires PassesFollow(s, order, late, n, passes) && RunFollows(s, order, late, Some(n.id), p.turns)
    ensures PassesFollow(s, order, late, n, passes + [p])
  {
    var now := passes + [p];
    forall k: nat | k < |now| ensures RunFollows(s, order, late, Some(n.id), now[k].turns) {
      if k < |passes| { assert PassAt(passes, k) == now[k]; }
    }
  }

  lemma {:induction false} FollowingTurn(s: Setup, order: seq<NodeInstance>, late: set<NodeId>, n: NodeInstance,
      t: Turn)
    requires PassesFollow(s, order, late, n, t.passes)
    ensures TurnFollows(s, order, late, n, t)
  {
    forall k: nat | k < |t.passes| ensures RunFollows(s, order, late, Some(n.id), t.passes[k].turns) {
      assert PassAt(t.passes, k) == t.passes[k];
    }
  }

  lemma {:induction false} CirclesOn(s: Setup, order: seq<NodeInstance>, late: set<NodeId>, n: NodeInstance,
      start: RunState, passes: seq<Pass>, p: Pass,
      queue: seq<Item>, input: seq<Item>, i: nat)
    requires Circling(s, order, late, n, start, passes, queue, input) && queue != [] && PassRan(s, order, n, p)
    requires p.before == PassState(start, passes, |passes|) && p.batch == queue[..WorkflowRun.Taken(n, queue)]
    requires RunFollows(s, order, late, Some(n.id), p.turns)
    ensures PassesFollow(s, order, late, n, passes + [p])
    ensures p.ok ==> Circling(s, order, late, n, start, passes + [p], queue[WorkflowRun.Taken(n, queue)..], input)
    ensures !p.ok ==> LoopRan(s, order, n, input, Turn(i, start, p.after, passes + [p], false))
  {
    var body, links := OwnedNodes(s, order, n), BackLinksInto(s.w.connections, s.back, n.id);
    OnePassMore(s, order, late, n, passes, p);
    if p.ok {
      LoopGoesOn(s, order, n, start, passes, p, queue, input, Totals(body, passes), Done(links, passes));
      NextTotals(body, passes, p);
      NextPass(links, passes, p);
    } else {
      LoopBreaks(s, order, n, start, passes, p, queue, input, Totals(body, passes), Done(links, passes), i);
    }
  }

  lemma {:induction false} LoopOn(s: Setup, order: seq<NodeInstance>, late: set<NodeId>, n: NodeInstance,
      start: RunState, passes: seq<Pass>,
      queue: seq<Item>, input: seq<Item>, i: nat) returns (t: Turn)
    requires Planned(s, order) && Deferred(s, late) && n in s.w.nodes && IsLoop(n)
    requires Circling(s, order, late, n, start, passes, queue, input)
    ensures LoopRan(s, order, n, input, t) && TurnFollows(s, order, late, n, t) && t.index == i && t.before == start
    decreases |Body(s.w, n.id)|, 5, |queue|
  {
    if queue == [] {
      t := LoopDone(s, order, late, n, start, passes, input, i);
    } else {
      var p := PassExists(s, order, late, n, queue[..WorkflowRun.Taken(n, queue)], PassState(start, passes, |passes|));
      CirclesOn(s, order, late, n, start, passes, p, queue, input, i);
      if p.ok {
        t := LoopOn(s, order, late, n, start, passes + [p], queue[WorkflowRun.Taken(n, queue)..], input, i);
      } else {
        t := Turn(i, start, p.after, passes + [p], false);
        FollowingTurn(s, order, late, n, t);
      }
    }
  }

  lemma {:induction false} LoopDone(s: Setup, order: seq<NodeInstance>, late: set<NodeId>, n: NodeInstance,
      start: RunState, passes: seq<Pass>,
      input: seq<Item>, i: nat) returns (t: Turn)
    requires Circling(s, order, late, n, start, passes, [], input)
    ensures LoopRan(s, order, n, input, t) && TurnFollows(s, order, late, n, t) && t.index == i && t.before == start
  {
    var totals, done := Totals(OwnedNodes(s, order, n), passes),
      Done(BackLinksInto(s.w.connections, s.back, n.id), passes);
    LoopEnds(s, order, n, start, passes, PassState(start, passes, |passes|), input, totals, done, i);
    t := Turn(i, start, AfterPasses(PassState(start, passes, |passes|), totals, n.id, done), passes, true);
    FollowingTurn(s, order, late, n, t);
  }

  lemma {:induction false} LoopExists(s: Setup, order: seq<NodeInstance>, late: set<NodeId>, n: NodeInstance,
      input: seq<Item>, i: nat, start: RunState)
    returns (t: Turn)
    requires Planned(s, order) && Deferred(s, late) && n in s.w.nodes && IsLoop(n)
    ensures LoopRan(s, order, n, input, t) && TurnFollows(s, order, late, n, t) && t.index == i && t.before == start
    decreases |Body(s.w, n.id)|, 6, 0
  {
    LoopBegins(s, order, n, start, input);
    t := LoopOn(s, order, late, n, start, [], input, input, i);
  }

  lemma {:induction false} PassExists(s: Setup, order: seq<NodeInstance>, late: set<NodeId>, n: NodeInstance,
      batch: seq<Item>, st: RunState)
    returns (p: Pass)
    requires Planned(s, order) && Deferred(s, late) && n in s.w.nodes && IsLoop(n)
    ensures PassRan(s, order, n, p) && RunFollows(s, order, late, Some(n.id), p.turns) && p.batch == batch
    ensures p.before == st
    decreases |Body(s.w, n.id)|, 4, 0
  {
    var a := RunExists(s, order, late, Some(n.id), BeforePass(st, OwnedNodes(s, order, n), n.id, batch));
    p := Pass(batch, st, a.turns, a.end, a.ok);
  }
}
