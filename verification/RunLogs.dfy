/** What a run of the editor engine did (src/engine.rs): the turns of the nodes of a list, one after another, each on
    the state it found; a loop's turn holds its passes, and each pass the turns of the loop's body. */
module RunLogs {

  import opened Workflows
  import opened Sequences
  import opened LoopLayout
  import opened NodeRuns
  import opened LoopBatches
  import opened RunLists
  import Steps = RunGraph

  // ---- Being a run ----------------------------------------------------------------------------------------------

  function Indexes(turns: seq<Turn>): seq<nat> {
    seq(|turns|, k requires 0 <= k < |turns| => turns[k].index)
  }

  /** The state after the first `k` turns. */
  function StateAt(start: RunState, turns: seq<Turn>, k: nat): RunState
    requires k <= |turns|
  {
    if k == 0 then start else turns[k - 1].after
  }

  ghost predicate Chained(start: RunState, turns: seq<Turn>) {
    forall k :: 0 <= k < |turns| ==> turns[k].before == StateAt(start, turns, k)
  }

  /** No node has two turns, and each has its turn after all the listed nodes that feed it. */
  ghost predicate FeedersFirst(s: Setup, list: seq<NodeInstance>, ran: seq<nat>) {
    NoRepeats(ran) &&
    forall k, j :: 0 <= k < |ran| && ran[k] < |list| && j in Steps.Deps(s, list, ran[k]) ==> j in ran[..k]
  }

  ghost predicate OkButLast(turns: seq<Turn>) {
    forall k :: 0 <= k < |turns| - 1 ==> turns[k].ok
  }

  /** The turns that happened decide whether the list is through: all nodes had theirs, or the last one failed. */
  ghost predicate Through(list: seq<NodeInstance>, turns: seq<Turn>, ok: bool) {
    && OkButLast(turns)
    && (if ok then (turns != [] ==> turns[|turns| - 1].ok) && forall i :: 0 <= i < |list| ==> i in Indexes(turns)
        else turns != [] && !turns[|turns| - 1].ok)
  }

  /** Before a pass the owned nodes' entries go, and the loop's own output is the batch. */
  function BeforePass(st: RunState, body: seq<NodeInstance>, lp: NodeId, batch: seq<Item>): RunState {
    RunState((st.produced - Ids(body))[lp := [[], batch]], st.errorProduced - Ids(body), st.reused)
  }

  /** After the last pass the totals stand as the owned nodes' outputs, and everything brought back leaves by "done". */
  function AfterPasses(st: RunState, totals: map<NodeId, NodeOutput>, lp: NodeId, done: seq<Item>): RunState {
    st.(produced := (st.produced + totals)[lp := [done, []]])
  }

  /** The state after the first `k` passes. */
  function PassState(start: RunState, passes: seq<Pass>, k: nat): RunState
    requires k <= |passes|
  {
    if k == 0 then start else passes[k - 1].after
  }

  ghost predicate PassesChained(start: RunState, passes: seq<Pass>) {
    && (forall k :: 0 <= k < |passes| ==> passes[k].before == PassState(start, passes, k))
    && (forall k :: 0 <= k < |passes| - 1 ==> passes[k].ok)
  }

  /** What was sent so far and what is still queued are the input; every batch but the last is full. */
  ghost predicate Batched(passes: seq<Pass>, queue: seq<Item>, input: seq<Item>, size: nat) {
    && Sent(passes) + queue == input
    && GoodBatches(passes, size)
    && (queue != [] ==> forall k :: 0 <= k < |passes| ==> |passes[k].batch| == size)
  }

  /** A run of a list from one state to another, its turns in the order they happened. */
  ghost predicate GraphRan(
    s: Setup, order: seq<NodeInstance>, list: seq<NodeInstance>, start: RunState, turns: seq<Turn>,
    end: RunState, ok: bool)
    decreases turns, 1
  {
    && TurnsRan(s, order, list, start, turns) && end == StateAt(start, turns, |turns|)
    && FeedersFirst(s, list, Indexes(turns))
    && Through(list, turns, ok)
  }

  ghost predicate TurnsRan(s: Setup, order: seq<NodeInstance>, list: seq<NodeInstance>, start: RunState,
      turns: seq<Turn>)
    decreases turns, 0
  {
    && Chained(start, turns)
    && (forall k :: 0 <= k < |turns| ==> turns[k].index < |list|)
    && forall k: nat {:trigger TurnAt(turns, k)} :: k < |turns| ==> TurnRan(s, order, list[turns[k].index], turns[k])
  }

  function TurnAt(turns: seq<Turn>, k: nat): Turn
    requires k < |turns|
  {
    turns[k]
  }

  /** A turn does what the node's outcome on the state it found says; a loop runs its body batch by batch. */
  ghost predicate TurnRan(s: Setup, order: seq<NodeInstance>, n: NodeInstance, t: Turn)
    decreases t, 2
  {
    match NodeOutcome(s, t.before, n)
    case Fails => !t.ok && t.passes == [] && t.after == t.before
    case Stores(output, errors, status, reused) =>
      t.ok && t.passes == [] && t.after == Store(t.before, n.id, Stores(output, errors, status, reused))
    case EntersLoop(input) => LoopRan(s, order, n, input, t)
  }

  ghost predicate LoopRan(s: Setup, order: seq<NodeInstance>, lp: NodeInstance, input: seq<Item>, t: Turn)
    decreases t, 1
  {
    PassesRan(s, order, lp, t.before, t.passes) &&
      if t.ok then LoopEnded(s, order, lp, input, t) else LoopBroke(lp, input, t)
  }

  /** Passes over a loop's body, all of them good but perhaps the last. */
  ghost predicate PassesRan(s: Setup, order: seq<NodeInstance>, lp: NodeInstance, start: RunState, passes: seq<Pass>)
    decreases passes, 0
  {
    && PassesChained(start, passes)
    && forall k: nat {:trigger PassAt(passes, k)} :: k < |passes| ==> PassRan(s, order, lp, passes[k])
  }

  function PassAt(passes: seq<Pass>, k: nat): Pass
    requires k < |passes|
  {
    passes[k]
  }

  ghost predicate PassRan(s: Setup, order: seq<NodeInstance>, lp: NodeInstance, p: Pass)
    decreases p
  {
    var body := OwnedNodes(s, order, lp);
    GraphRan(s, order, body, BeforePass(p.before, body, lp.id, p.batch), p.turns, p.after, p.ok)
  }

  ghost predicate LoopEnded(s: Setup, order: seq<NodeInstance>, lp: NodeInstance, input: seq<Item>, t: Turn) {
    && (t.passes != [] ==> Last(t.passes).ok)
    && Batched(t.passes, [], input, BatchSize(lp.parameters))
    && t.after == AfterPasses(
         PassState(t.before, t.passes, |t.passes|), Totals(OwnedNodes(s, order, lp), t.passes), lp.id,
         Done(BackLinksInto(s.w.connections, s.back, lp.id), t.passes))
  }

  ghost predicate LoopBroke(lp: NodeInstance, input: seq<Item>, t: Turn) {
    && t.passes != [] && !Last(t.passes).ok && t.after == Last(t.passes).after
    && exists queue :: Batched(t.passes, queue, input, BatchSize(lp.parameters))
  }

  lemma {:induction false} TurnIn(s: Setup, order: seq<NodeInstance>, list: seq<NodeInstance>, start: RunState,
      turns: seq<Turn>, k: nat)
    requires TurnsRan(s, order, list, start, turns) && k < |turns|
    ensures turns[k].index < |list| && TurnRan(s, order, list[turns[k].index], turns[k])
    ensures turns[k].before == StateAt(start, turns, k) && turns[k].after == StateAt(start, turns, k + 1)
  {
    assert TurnAt(turns, k) == turns[k];
  }

  lemma {:induction false} PassIn(s: Setup, order: seq<NodeInstance>, n: NodeInstance, start: RunState,
      passes: seq<Pass>, k: nat)
    requires PassesRan(s, order, n, start, passes) && k < |passes|
    ensures PassRan(s, order, n, passes[k]) && passes[k].before == PassState(start, passes, k)
    ensures k + 1 < |passes| ==> passes[k].ok
  {
    assert PassAt(passes, k) == passes[k];
  }

  // ---- What a turn may write ------------------------------------------------------------------------------------

  /** What a node's turn may write: its own entries and, for a loop, its body's. */
  ghost function TurnScope(s: Setup, n: NodeInstance): set<NodeId> {
    {n.id} + if IsLoop(n) then Body(s.w, n.id) else {}
  }

  /** A turn writes only its node's entries and, for a loop, its body's. */
  lemma {:induction false} TurnKeeps(s: Setup, order: seq<NodeInstance>, n: NodeInstance, t: Turn, id: NodeId)
    requires Nested(s, order) && n in s.w.nodes && TurnRan(s, order, n, t) && id !in TurnScope(s, n)
    ensures SameEntries(t.before, t.after, id)
    decreases t, 2
  {
    if NodeOutcome(s, t.before, n).EntersLoop? {
      OnlyLoopsEnter(s, t.before, n);
      PassesKeep(s, order, n, t, |t.passes|, id);
      if t.ok {
        EndKeeps(s, order, n, t, id);
      }
    }
  }

  lemma OnlyLoopsEnter(s: Setup, st: RunState, n: NodeInstance)
    ensures NodeOutcome(s, st, n).EntersLoop? ==> IsLoop(n)
  {
  }

  lemma {:induction false} PassesKeep(s: Setup, order: seq<NodeInstance>, n: NodeInstance, t: Turn, k: nat, id: NodeId)
    requires Nested(s, order) && n in s.w.nodes && IsLoop(n) && id !in TurnScope(s, n)
    requires PassesRan(s, order, n, t.before, t.passes) && k <= |t.passes|
    ensures SameEntries(t.before, PassState(t.before, t.passes, k), id)
    decreases t, 1
  {
    forall j | 0 <= j < k ensures SameEntries(t.passes[j].before, t.passes[j].after, id) {
      PassIn(s, order, n, t.before, t.passes, j);
      PassKeeps(s, order, n, t.passes[j], id);
    }
    PassChainKeeps(t.before, t.passes, k, id);
  }

  lemma {:induction false} PassChainKeeps(start: RunState, passes: seq<Pass>, k: nat, id: NodeId)
    requires PassesChained(start, passes) && k <= |passes|
    requires forall j :: 0 <= j < k ==> SameEntries(passes[j].before, passes[j].after, id)
    ensures SameEntries(start, PassState(start, passes, k), id)
  {
    if k > 0 {
      PassChainKeeps(start, passes, k - 1, id);
      assert passes[k - 1].before == PassState(start, passes, k - 1);
    }
  }

  lemma {:induction false} PassKeeps(s: Setup, order: seq<NodeInstance>, n: NodeInstance, p: Pass, id: NodeId)
    requires Nested(s, order) && n in s.w.nodes && IsLoop(n) && PassRan(s, order, n, p) && id !in TurnScope(s, n)
    ensures SameEntries(p.before, p.after, id)
    decreases p
  {
    var body := OwnedNodes(s, order, n);
    var start := BeforePass(p.before, body, n.id, p.batch);
    assert id !in Ids(body);
    StateKeeps(s, order, body, Body(s.w, n.id), |Body(s.w, n.id)|, start, p.turns, |p.turns|, id);
  }

  /** All turns of a list together write only inside the list's scope. */
  lemma {:induction false} StateKeeps(s: Setup, order: seq<NodeInstance>, list: seq<NodeInstance>, scope: set<NodeId>,
      depth: nat, start: RunState, turns: seq<Turn>, k: nat, id: NodeId)
    requires Nested(s, order) && Listed(s, list, scope, depth) && TurnsRan(s, order, list, start, turns) && k <= |turns|
    requires id !in scope
    ensures SameEntries(start, StateAt(start, turns, k), id)
    decreases turns, 1
  {
    forall j | 0 <= j < k ensures SameEntries(turns[j].before, turns[j].after, id) {
      TurnIn(s, order, list, start, turns, j);
      ScopeInside(s, list, scope, depth, list[turns[j].index]);
      TurnKeeps(s, order, list[turns[j].index], turns[j], id);
    }
    ChainKeeps(start, turns, 0, k, id);
  }

  /** What each turn leaves alone, all of them do. */
  lemma {:induction false} ChainKeeps(start: RunState, turns: seq<Turn>, k: nat, m: nat, id: NodeId)
    requires Chained(start, turns) && k <= m <= |turns|
    requires forall j :: k <= j < m ==> SameEntries(turns[j].before, turns[j].after, id)
    ensures SameEntries(StateAt(start, turns, k), StateAt(start, turns, m), id)
  {
    if k < m {
      ChainKeeps(start, turns, k, m - 1, id);
      assert turns[m - 1].before == StateAt(start, turns, m - 1);
    }
  }

  lemma ScopeInside(s: Setup, list: seq<NodeInstance>, scope: set<NodeId>, depth: nat, n: NodeInstance)
    requires Listed(s, list, scope, depth) && n in list
    ensures TurnScope(s, n) <= scope && n in s.w.nodes
    ensures forall m :: m in list && m.id != n.id ==> m.id !in TurnScope(s, n)
  {
    assert IsLoop(n) ==> GoodLoop(s.w, list, scope, depth, n.id);
  }

  lemma EndKeeps(s: Setup, order: seq<NodeInstance>, n: NodeInstance, t: Turn, id: NodeId)
    requires Nested(s, order) && n in s.w.nodes && IsLoop(n) && LoopEnded(s, order, n, Sent(t.passes), t)
    requires id !in TurnScope(s, n) && SameEntries(t.before, PassState(t.before, t.passes, |t.passes|), id)
    ensures SameEntries(t.before, t.after, id)
  {
    TotalsKeys(OwnedNodes(s, order, n), t.passes);
    assert id !in Totals(OwnedNodes(s, order, n), t.passes);
  }

  lemma {:induction false} AddAllKeys(body: seq<NodeInstance>, st: RunState, totals: map<NodeId, NodeOutput>)
    ensures AddAll(body, st, totals).Keys <= totals.Keys + Ids(body)
  {
    if body != [] {
      var front, n := body[..|body| - 1], body[|body| - 1];
      assert body == front + [n];
      AddAllKeys(front, st, totals);
      assert n.id in Ids(body) && Ids(front) <= Ids(body);
    }
  }

  lemma {:induction false} TotalsKeys(body: seq<NodeInstance>, passes: seq<Pass>)
    ensures Totals(body, passes).Keys <= Ids(body)
  {
    if passes != [] {
      TotalsKeys(body, Front(passes));
      AddAllKeys(body, Last(passes).after, Totals(body, Front(passes)));
    }
  }

  // ---- What a turn sees and what stays of it --------------------------------------------------------------------

  /** A list that may run: the run's own lists are. */
  ghost predicate Runs(s: Setup, order: seq<NodeInstance>, list: seq<NodeInstance>, scope: set<NodeId>, depth: nat,
      start: RunState, turns: seq<Turn>)
  {
    && Nested(s, order) && Listed(s, list, scope, depth)
    && TurnsRan(s, order, list, start, turns) && FeedersFirst(s, list, Indexes(turns))
  }

  lemma OneTurnEach(s: Setup, list: seq<NodeInstance>, turns: seq<Turn>, k: nat, m: nat)
    requires FeedersFirst(s, list, Indexes(turns)) && k < m < |turns|
    ensures turns[k].index != turns[m].index
  {
    assert Indexes(turns)[k] != Indexes(turns)[m];
  }

  lemma {:induction false} OtherTurnKeeps(s: Setup, order: seq<NodeInstance>, list: seq<NodeInstance>,
      scope: set<NodeId>, depth: nat,
      t: Turn, i: nat)
    requires Nested(s, order) && Listed(s, list, scope, depth) && t.index < |list|
    requires TurnRan(s, order, list[t.index], t)
    requires i < |list| && i != t.index
    ensures SameEntries(t.before, t.after, list[i].id)
  {
    assert list[i].id != list[t.index].id;
    ScopeInside(s, list, scope, depth, list[t.index]);
    TurnKeeps(s, order, list[t.index], t, list[i].id);
  }

  lemma LaterTurnKeeps(s: Setup, order: seq<NodeInstance>, list: seq<NodeInstance>, scope: set<NodeId>,
      depth: nat, start: RunState, turns: seq<Turn>, k: nat, j: nat)
    requires Runs(s, order, list, scope, depth, start, turns) && k < j < |turns|
    ensures SameEntries(turns[j].before, turns[j].after, list[turns[k].index].id)
  {
    OneTurnEach(s, list, turns, k, j);
    TurnIn(s, order, list, start, turns, j);
    OtherTurnKeeps(s, order, list, scope, depth, turns[j], turns[k].index);
  }

  /** What a node's turn left stands until the whole list is through. */
  lemma TurnStands(s: Setup, order: seq<NodeInstance>, list: seq<NodeInstance>, scope: set<NodeId>,
      depth: nat, start: RunState, turns: seq<Turn>, k: nat, m: nat)
    requires Runs(s, order, list, scope, depth, start, turns) && k < m <= |turns|
    ensures SameEntries(turns[k].after, StateAt(start, turns, m), list[turns[k].index].id)
  {
    var id := list[turns[k].index].id;
    forall j | k + 1 <= j < m ensures SameEntries(turns[j].before, turns[j].after, id) {
      LaterTurnKeeps(s, order, list, scope, depth, start, turns, k, j);
    }
    ChainKeeps(start, turns, k + 1, m, id);
  }

  /** In its turn a node finds what the turn of each listed node feeding it left. */
  lemma FeederSeen(s: Setup, order: seq<NodeInstance>, list: seq<NodeInstance>, scope: set<NodeId>, depth: nat,
      start: RunState, turns: seq<Turn>, k: nat, j: nat) returns (m: nat)
    requires Runs(s, order, list, scope, depth, start, turns) && k < |turns|
    requires j in Steps.Deps(s, list, turns[k].index)
    ensures m < k && turns[m].index == j
    ensures SameEntries(turns[m].after, turns[k].before, list[j].id)
  {
    assert Indexes(turns)[k] == turns[k].index;
    assert j in Indexes(turns)[..k];
    m :| m < k && Indexes(turns)[m] == j;
    TurnStands(s, order, list, scope, depth, start, turns, m, k);
  }

  /** In every turn of a pass the loop offers the pass's batch on its output 1. */
  lemma {:induction false} BatchSeen(s: Setup, order: seq<NodeInstance>, lp: NodeInstance, p: Pass, k: nat)
    requires Nested(s, order) && lp in s.w.nodes && IsLoop(lp) && PassRan(s, order, lp, p) && k <= |p.turns|
    ensures var body := OwnedNodes(s, order, lp);
            OutputOf(StateAt(BeforePass(p.before, body, lp.id, p.batch), p.turns, k), lp.id) == [[], p.batch]
  {
    var body := OwnedNodes(s, order, lp);
    StateKeeps(s, order, body, Body(s.w, lp.id), |Body(s.w, lp.id)|, BeforePass(p.before, body, lp.id, p.batch),
      p.turns, k, lp.id);
  }

  lemma {:induction false} TurnProduces(s: Setup, order: seq<NodeInstance>, n: NodeInstance, t: Turn)
    requires TurnRan(s, order, n, t) && t.ok
    ensures n.id in t.after.produced
  {
  }

  lemma TurnAmong(list: seq<NodeInstance>, turns: seq<Turn>, i: nat) returns (k: nat)
    requires Through(list, turns, true) && i < |list|
    ensures k < |turns| && turns[k].index == i && turns[k].ok
  {
    assert i in Indexes(turns);
    k :| 0 <= k < |turns| && Indexes(turns)[k] == i;
  }

  lemma OnlyTurn(s: Setup, list: seq<NodeInstance>, turns: seq<Turn>, k: nat, j: nat)
    requires FeedersFirst(s, list, Indexes(turns)) && k < |turns| && j < |turns| && j != k
    ensures turns[j].index != turns[k].index
  {
    if j < k { OneTurnEach(s, list, turns, j, k); } else { OneTurnEach(s, list, turns, k, j); }
  }

  /** In a finished run each listed node had one turn, and what it sent is what that turn left. */
  lemma RunOutputs(s: Setup, order: seq<NodeInstance>, list: seq<NodeInstance>, scope: set<NodeId>, depth: nat,
      start: RunState, turns: seq<Turn>, i: nat) returns (k: nat)
    requires Runs(s, order, list, scope, depth, start, turns) && Through(list, turns, true) && i < |list|
    ensures k < |turns| && turns[k].index == i && turns[k].ok
    ensures forall m :: 0 <= m < |turns| && turns[m].index == i ==> m == k
    ensures SameEntries(turns[k].after, StateAt(start, turns, |turns|), list[i].id)
    ensures list[i].id in turns[k].after.produced
  {
    k := TurnAmong(list, turns, i);
    forall m | 0 <= m < |turns| && m != k ensures turns[m].index != i { OnlyTurn(s, list, turns, k, m); }
    TurnStands(s, order, list, scope, depth, start, turns, k, |turns|);
    TurnIn(s, order, list, start, turns, k);
    TurnProduces(s, order, list[i], turns[k]);
  }

  lemma {:induction false} PassRuns(s: Setup, order: seq<NodeInstance>, lp: NodeInstance, p: Pass)
    requires Nested(s, order) && lp in s.w.nodes && IsLoop(lp) && PassRan(s, order, lp, p)
    ensures var body := OwnedNodes(s, order, lp);
            var start := BeforePass(p.before, body, lp.id, p.batch);
            && Runs(s, order, body, Body(s.w, lp.id), |Body(s.w, lp.id)|, start, p.turns)
            && Through(body, p.turns, p.ok) && p.after == StateAt(start, p.turns, |p.turns|)
  {
    assert NestedLoop(s, order, lp);
  }

  /** In a finished pass each body node had one turn, and what it sent in the pass is what that turn left. */
  lemma PassOutputs(s: Setup, order: seq<NodeInstance>, lp: NodeInstance, p: Pass, i: nat) returns (k: nat)
    requires Nested(s, order) && lp in s.w.nodes && IsLoop(lp) && PassRan(s, order, lp, p) && p.ok
    requires i < |OwnedNodes(s, order, lp)|
    ensures k < |p.turns| && p.turns[k].index == i && p.turns[k].ok
    ensures forall m :: 0 <= m < |p.turns| && p.turns[m].index == i ==> m == k
    ensures var n := OwnedNodes(s, order, lp)[i];
            SameEntries(p.turns[k].after, p.after, n.id) && n.id in p.after.produced
  {
    var body := OwnedNodes(s, order, lp);
    PassRuns(s, order, lp, p);
    k := RunOutputs(s, order, body, Body(s.w, lp.id), |Body(s.w, lp.id)|, BeforePass(p.before, body, lp.id, p.batch),
      p.turns, i);
  }

  // ---- Conservation in loops ------------------------------------------------------------------------------------

  /** The totals hold, for each owned node, what it sent over the passes. */
  ghost predicate Tallied(passes: seq<Pass>, body: seq<NodeInstance>, totals: map<NodeId, NodeOutput>) {
    && (totals.Keys == if passes == [] then {} else Ids(body))
    && forall n :: n in body ==> Totalled(passes, n.id, TotalIn(totals, n.id))
  }

  ghost predicate AllProduced(body: seq<NodeInstance>, passes: seq<Pass>) {
    forall k :: 0 <= k < |passes| ==> BodyProduced(body, passes[k].after)
  }

  lemma {:induction false} TotalsTally(body: seq<NodeInstance>, passes: seq<Pass>)
    requires DistinctIds(body) && AllProduced(body, passes)
    ensures Tallied(passes, body, Totals(body, passes))
  {
    if passes != [] {
      var front, last := Front(passes), Last(passes);
      assert passes == front + [last];
      TotalsTally(body, front);
      forall id ensures id in Totals(body, passes) <==> id in Ids(body) {
        AddAllAdds(body, last.after, Totals(body, front), id);
      }
      forall n | n in body ensures Totalled(passes, n.id, TotalIn(Totals(body, passes), n.id)) {
        AddAllAdds(body, last.after, Totals(body, front), n.id);
        MergeTotals(front, last, n.id, TotalIn(Totals(body, front), n.id));
      }
    }
  }

  /** A node's items on one port over all passes, each pass's from the node's turn in it. */
  ghost predicate OutputsAreTotals(passes: seq<Pass>, body: seq<NodeInstance>, st: RunState) {
    forall n :: n in body ==> n.id in st.produced && Totalled(passes, n.id, st.produced[n.id])
  }

  lemma AllPassesOk(t: Turn)
    requires PassesChained(t.before, t.passes) && (t.passes != [] ==> Last(t.passes).ok)
    ensures forall k :: 0 <= k < |t.passes| ==> t.passes[k].ok
  {
  }

  lemma {:induction false} PassesProduce(s: Setup, order: seq<NodeInstance>, lp: NodeInstance, t: Turn)
    requires Nested(s, order) && lp in s.w.nodes && IsLoop(lp) && PassesRan(s, order, lp, t.before, t.passes)
    requires t.passes != [] ==> Last(t.passes).ok
    ensures AllProduced(OwnedNodes(s, order, lp), t.passes)
  {
    AllPassesOk(t);
    forall k | 0 <= k < |t.passes| ensures BodyProduced(OwnedNodes(s, order, lp), t.passes[k].after) {
      PassIn(s, order, lp, t.before, t.passes, k);
      PassProduces(s, order, lp, t.passes[k]);
    }
  }

  ghost predicate BodyProduced(body: seq<NodeInstance>, st: RunState) {
    forall n :: n in body ==> n.id in st.produced
  }

  lemma {:induction false} PassProduces(s: Setup, order: seq<NodeInstance>, lp: NodeInstance, p: Pass)
    requires Nested(s, order) && lp in s.w.nodes && IsLoop(lp) && PassRan(s, order, lp, p) && p.ok
    ensures BodyProduced(OwnedNodes(s, order, lp), p.after)
  {
    var body := OwnedNodes(s, order, lp);
    forall n | n in body ensures n.id in p.after.produced {
      var i :| 0 <= i < |body| && body[i] == n;
      var m := PassOutputs(s, order, lp, p, i);
    }
  }

  lemma {:induction false} LoopParts(s: Setup, order: seq<NodeInstance>, lp: NodeInstance, input: seq<Item>, t: Turn)
    requires TurnRan(s, order, lp, t) && t.ok && NodeOutcome(s, t.before, lp) == EntersLoop(input)
    ensures IsLoop(lp) && PassesRan(s, order, lp, t.before, t.passes) && LoopEnded(s, order, lp, input, t)
  {
    OnlyLoopsEnter(s, t.before, lp);
    assert LoopRan(s, order, lp, input, t);
  }

  lemma {:induction false} TotalsLeft(s: Setup, order: seq<NodeInstance>, lp: NodeInstance, input: seq<Item>, t: Turn)
    requires Nested(s, order) && lp in s.w.nodes && IsLoop(lp) && LoopEnded(s, order, lp, input, t) && t.passes != []
    requires AllProduced(OwnedNodes(s, order, lp), t.passes)
    ensures OutputsAreTotals(t.passes, OwnedNodes(s, order, lp), t.after)
  {
    var body := OwnedNodes(s, order, lp);
    assert NestedLoop(s, order, lp);
    TotalsTally(body, t.passes);
    forall n | n in body ensures n.id in t.after.produced && Totalled(t.passes, n.id, t.after.produced[n.id]) {
      assert n.id in Totals(body, t.passes) && n.id != lp.id;
    }
  }

  /** A loop's turn that succeeds sends its input through the body in non-empty batches of at most the batch size, all
      but the last full, each in a complete run of the body; "done" is what the return links brought back, pass by
      pass; and each owned node's output on each port is what it sent, pass by pass. */
  lemma {:induction false} LoopConserves(s: Setup, order: seq<NodeInstance>, lp: NodeInstance, input: seq<Item>,
      t: Turn)
    requires Nested(s, order) && lp in s.w.nodes && TurnRan(s, order, lp, t) && t.ok
    requires NodeOutcome(s, t.before, lp) == EntersLoop(input)
    ensures Sent(t.passes) == input && GoodBatches(t.passes, BatchSize(lp.parameters))
    ensures forall k :: 0 <= k < |t.passes| ==> PassRan(s, order, lp, t.passes[k]) && t.passes[k].ok
    ensures OutputOf(t.after, lp.id) == [Done(BackLinksInto(s.w.connections, s.back, lp.id), t.passes), []]
    ensures input != [] ==> OutputsAreTotals(t.passes, OwnedNodes(s, order, lp), t.after)
  {
    LoopParts(s, order, lp, input, t);
    AllPassesOk(t);
    assert Sent(t.passes) + [] == Sent(t.passes);
    forall k | 0 <= k < |t.passes| ensures PassRan(s, order, lp, t.passes[k]) {
      PassIn(s, order, lp, t.before, t.passes, k);
    }
    PassesProduce(s, order, lp, t);
    if input != [] { TotalsLeft(s, order, lp, input, t); }
  }

  // ---- Without loops --------------------------------------------------------------------------------------------

  /** The nodes that had one of the first `k` turns. */
  function RanBy(turns: seq<Turn>, k: nat): set<nat>
    requires k <= |turns|
  {
    set i | i in Indexes(turns)[..k]
  }

  lemma {:induction false} PlainTurn(s: Setup, list: seq<NodeInstance>, st: RunState, finished: set<nat>, i: nat)
    requires Steps.Runnable(s, list) && Steps.Inv(s, map[], list, Steps.Between(st, finished))
    requires i < |list| && i !in finished && Steps.Deps(s, list, i) <= finished
    ensures var o := NodeOutcome(s, st, list[i]);
            && (o.Stores? ==> Steps.Inv(s, map[], list, Steps.Between(Store(st, list[i].id, o), finished + {i})))
            && (!o.Stores? ==> Steps.InOrder(s, list, |list|) == Steps.RunFailed)
  {
    Steps.OneTurn(s, map[], list, st, finished, i);
    Steps.InOrderIsReference(s, list, |list|);
  }

  lemma NextTurnReady(s: Setup, list: seq<NodeInstance>, turns: seq<Turn>, k: nat)
    requires FeedersFirst(s, list, Indexes(turns)) && k < |turns| && turns[k].index < |list|
    ensures turns[k].index !in RanBy(turns, k) && Steps.Deps(s, list, turns[k].index) <= RanBy(turns, k)
    ensures RanBy(turns, k + 1) == RanBy(turns, k) + {turns[k].index}
  {
    var ran := Indexes(turns);
    assert ran[k] == turns[k].index;
    assert ran[..k + 1] == ran[..k] + [ran[k]];
  }

  lemma {:induction false} PlainOutcome(s: Setup, order: seq<NodeInstance>, n: NodeInstance, t: Turn)
    requires TurnRan(s, order, n, t) && !IsLoop(n)
    ensures NodeOutcome(s, t.before, n).Stores? <==> t.ok
    ensures t.ok ==> t.after == Store(t.before, n.id, NodeOutcome(s, t.before, n))
  {
    OnlyLoopsEnter(s, t.before, n);
  }

  /** A turn goes on from what the steps reach, and breaks off where running in order does. */
  lemma {:induction false} PlainStep(s: Setup, order: seq<NodeInstance>, list: seq<NodeInstance>, t: Turn,
      finished: set<nat>)
    requires Steps.Runnable(s, list) && Steps.Inv(s, map[], list, Steps.Between(t.before, finished))
    requires t.index < |list| && t.index !in finished && Steps.Deps(s, list, t.index) <= finished
    requires TurnRan(s, order, list[t.index], t)
    ensures t.ok ==> Steps.Inv(s, map[], list, Steps.Between(t.after, finished + {t.index}))
    ensures !t.ok ==> Steps.InOrder(s, list, |list|) == Steps.RunFailed
  {
    PlainTurn(s, list, t.before, finished, t.index);
    assert list[t.index] in list;
    PlainOutcome(s, order, list[t.index], t);
  }

  lemma {:induction false} PlainNext(s: Setup, order: seq<NodeInstance>, list: seq<NodeInstance>, turns: seq<Turn>,
      k: nat)
    requires Steps.Runnable(s, list) && FeedersFirst(s, list, Indexes(turns)) && k < |turns|
    requires turns[k].index < |list| && TurnRan(s, order, list[turns[k].index], turns[k])
    requires PlainAt(s, list, turns, k, turns[k].before)
    ensures turns[k].ok ==> PlainAt(s, list, turns, k + 1, turns[k].after)
    ensures !turns[k].ok ==> Steps.InOrder(s, list, |list|) == Steps.RunFailed
  {
    NextTurnReady(s, list, turns, k);
    PlainStep(s, order, list, turns[k], RanBy(turns, k));
  }

  /** The state after `k` turns is the one the steps reach. */
  ghost predicate PlainAt(s: Setup, list: seq<NodeInstance>, turns: seq<Turn>, k: nat, st: RunState)
    requires k <= |turns|
  {
    Steps.Inv(s, map[], list, Steps.Between(st, RanBy(turns, k)))
  }

  lemma {:induction false} PlainOneMore(s: Setup, order: seq<NodeInstance>, list: seq<NodeInstance>, turns: seq<Turn>,
      k: nat)
    requires Steps.Runnable(s, list) && TurnsRan(s, order, list, NOTHING, turns)
    requires FeedersFirst(s, list, Indexes(turns))
    requires k < |turns| && PlainAt(s, list, turns, k, StateAt(NOTHING, turns, k))
    ensures turns[k].ok ==> PlainAt(s, list, turns, k + 1, StateAt(NOTHING, turns, k + 1))
    ensures !turns[k].ok ==> Steps.InOrder(s, list, |list|) == Steps.RunFailed
  {
    TurnIn(s, order, list, NOTHING, turns, k);
    PlainNext(s, order, list, turns, k);
  }

  lemma PlainStart(s: Setup, list: seq<NodeInstance>, turns: seq<Turn>)
    ensures PlainAt(s, list, turns, 0, NOTHING)
  {
    Steps.InitialInv(s, map[], list);
    assert RanBy(turns, 0) == {};
  }

  ghost predicate AllOk(turns: seq<Turn>, k: nat)
    requires k <= |turns|
  {
    forall j :: 0 <= j < k ==> turns[j].ok
  }

  ghost predicate StaysPlain(s: Setup, list: seq<NodeInstance>, turns: seq<Turn>, k: nat)
    requires k < |turns|
  {
    PlainAt(s, list, turns, k, StateAt(NOTHING, turns, k)) ==>
      PlainAt(s, list, turns, k + 1, StateAt(NOTHING, turns, k + 1))
  }

  lemma {:induction false} StayedPlain(s: Setup, list: seq<NodeInstance>, turns: seq<Turn>, k: nat)
    requires k <= |turns| && PlainAt(s, list, turns, 0, NOTHING)
    requires forall j :: 0 <= j < k ==> StaysPlain(s, list, turns, j)
    ensures PlainAt(s, list, turns, k, StateAt(NOTHING, turns, k))
  {
    if k > 0 {
      StayedPlain(s, list, turns, k - 1);
      assert StaysPlain(s, list, turns, k - 1);
    }
  }

  /** Without loops, after any turns that went well the state is the one the steps reach. */
  lemma {:induction false} PlainState(s: Setup, order: seq<NodeInstance>, list: seq<NodeInstance>, turns: seq<Turn>,
      k: nat)
    requires Steps.Runnable(s, list) && TurnsRan(s, order, list, NOTHING, turns)
    requires FeedersFirst(s, list, Indexes(turns))
    requires k <= |turns| && AllOk(turns, k)
    ensures PlainAt(s, list, turns, k, StateAt(NOTHING, turns, k))
  {
    PlainStart(s, list, turns);
    forall j | 0 <= j < k ensures StaysPlain(s, list, turns, j) {
      if PlainAt(s, list, turns, j, StateAt(NOTHING, turns, j)) { PlainOneMore(s, order, list, turns, j); }
    }
    StayedPlain(s, list, turns, k);
  }

  lemma AllHadTurns(list: seq<NodeInstance>, turns: seq<Turn>)
    requires Through(list, turns, true)
    ensures AllOk(turns, |turns|) && forall i :: 0 <= i < |list| ==> i in RanBy(turns, |turns|)
  {
    assert Indexes(turns)[..|turns|] == Indexes(turns);
  }

  /** Without loops, a run in any order the links allow ends as running the nodes one by one in the list's order. */
  lemma {:induction false} PlainRun(s: Setup, order: seq<NodeInstance>, list: seq<NodeInstance>, turns: seq<Turn>,
      end: RunState, ok: bool)
    requires Steps.Runnable(s, list) && GraphRan(s, order, list, NOTHING, turns, end, ok)
    ensures Steps.InOrder(s, list, |list|) == if ok then Steps.Completed(end) else Steps.RunFailed
  {
    if ok {
      AllHadTurns(list, turns);
      PlainState(s, order, list, turns, |turns|);
      Steps.TurnsEnd(s, map[], list, end, RanBy(turns, |turns|));
    } else {
      var last := |turns| - 1;
      PlainState(s, order, list, turns, last);
      PlainOneMore(s, order, list, turns, last);
    }
  }
}
