/** When the timing of a run with loops does not matter (src/engine.rs): any two runs of a workflow end alike if of two
    nodes of one list, one of which feeds into the other, one always comes first. */
module RunsAgree {

  import opened Workflows
  import opened Reachability
  import opened LoopLayout
  import opened TopologicalOrder
  import opened LoopNesting
  import opened NodeRuns
  import opened LoopBatches
  import opened RunLists
  import opened RunLogs
  import opened LoopTrees
  import Steps = RunGraph

  // ---- What other turns leave alone -----------------------------------------------------------------------------

  /** The turns of one run of a list, and what surrounds them. */
  datatype Log = Log(start: RunState, turns: seq<Turn>, end: RunState, ok: bool)

  ghost predicate IsRun(s: Setup, order: seq<NodeInstance>, at: Option<NodeId>, a: Log) {
    Planned(s, order) && IsPlace(s, at) && GraphRan(s, order, ListAt(s, order, at), a.start, a.turns, a.end, a.ok)
  }

  ghost function ScopeAt(s: Setup, at: Option<NodeId>): set<NodeId> {
    match at case None => Ids(s.w.nodes) case Some(lp) => Body(s.w, lp)
  }

  ghost function DepthAt(s: Setup, at: Option<NodeId>): nat {
    match at case None => |Ids(s.w.nodes)| + 1 case Some(lp) => |Body(s.w, lp)|
  }

  lemma {:induction false} PlaceListed(s: Setup, order: seq<NodeInstance>, at: Option<NodeId>)
    requires Planned(s, order) && IsPlace(s, at)
    ensures Nested(s, order) && Listed(s, ListAt(s, order, at), ScopeAt(s, at), DepthAt(s, at))
  {
    PlannedIsNested(s, order);
    if at.None? {
      TopIsListed(s, order);
    } else {
      var n :| n in s.w.nodes && IsLoop(n) && n.id == at.value;
      assert NestedLoop(s, order, n);
    }
  }

  lemma {:induction false} BodySmaller(s: Setup, order: seq<NodeInstance>, at: Option<NodeId>, n: NodeInstance)
    requires Planned(s, order) && IsPlace(s, at) && n in ListAt(s, order, at) && IsLoop(n)
    ensures |Body(s.w, n.id)| < DepthAt(s, at)
  {
    PlaceListed(s, order, at);
    assert GoodLoop(s.w, ListAt(s, order, at), ScopeAt(s, at), DepthAt(s, at), n.id);
  }

  lemma {:induction false} RunParts(s: Setup, order: seq<NodeInstance>, at: Option<NodeId>, a: Log)
    requires IsRun(s, order, at, a)
    ensures TurnsRan(s, order, ListAt(s, order, at), a.start, a.turns) && Chained(a.start, a.turns)
    ensures a.end == StateAt(a.start, a.turns, |a.turns|)
    ensures FeedersFirst(s, ListAt(s, order, at), Indexes(a.turns)) && Through(ListAt(s, order, at), a.turns, a.ok)
  {
    assert TurnsRan(s, order, ListAt(s, order, at), a.start, a.turns);
  }

  lemma {:induction false} RunIsRuns(s: Setup, order: seq<NodeInstance>, at: Option<NodeId>, a: Log)
    requires IsRun(s, order, at, a)
    ensures Runs(s, order, ListAt(s, order, at), ScopeAt(s, at), DepthAt(s, at), a.start, a.turns)
  {
    PlaceListed(s, order, at);
    RunParts(s, order, at, a);
  }

  /** The node that has the `k`-th turn. */
  function NodeAt(s: Setup, order: seq<NodeInstance>, at: Option<NodeId>, a: Log, k: nat): NodeInstance
    requires k < |a.turns| && a.turns[k].index < |ListAt(s, order, at)|
  {
    ListAt(s, order, at)[a.turns[k].index]
  }

  lemma {:induction false} TurnFacts(s: Setup, order: seq<NodeInstance>, at: Option<NodeId>, a: Log, k: nat)
    requires IsRun(s, order, at, a) && k < |a.turns|
    ensures a.turns[k].index < |ListAt(s, order, at)| && TurnRan(s, order, NodeAt(s, order, at, a, k), a.turns[k])
    ensures a.turns[k].before == StateAt(a.start, a.turns, k) && a.turns[k].after == StateAt(a.start, a.turns, k + 1)
    ensures NodeAt(s, order, at, a, k) in s.w.nodes && OwnerOf(s.owner, NodeAt(s, order, at, a, k).id) == at
  {
    RunParts(s, order, at, a);
    TurnIn(s, order, ListAt(s, order, at), a.start, a.turns, k);
    Listing(s, order, at, NodeAt(s, order, at, a, k));
  }

  /** Whatever runs inside it, a turn writes only in its node's tree. */
  lemma {:induction false} TurnStaysWithin(s: Setup, order: seq<NodeInstance>, n: NodeInstance, t: Turn, x: NodeId)
    requires Planned(s, order) && n in s.w.nodes && TurnRan(s, order, n, t) && x !in Within(s, n.id)
    ensures SameEntries(t.before, t.after, x)
    decreases t, 2
  {
    InOwnTree(s, n.id);
    if NodeOutcome(s, t.before, n).EntersLoop? {
      OnlyLoopsEnter(s, t.before, n);
      PassesStayWithin(s, order, n, t, |t.passes|, x);
      if t.ok { EndStaysWithin(s, order, n, t, x); }
    }
  }

  lemma {:induction false} PassesStayWithin(s: Setup, order: seq<NodeInstance>, n: NodeInstance, t: Turn, k: nat,
      x: NodeId)
    requires Planned(s, order) && n in s.w.nodes && IsLoop(n) && x !in Within(s, n.id)
    requires PassesRan(s, order, n, t.before, t.passes) && k <= |t.passes|
    ensures SameEntries(t.before, PassState(t.before, t.passes, k), x)
    decreases t, 1
  {
    forall j | 0 <= j < k ensures SameEntries(t.passes[j].before, t.passes[j].after, x) {
      PassIn(s, order, n, t.before, t.passes, j);
      PassStaysWithin(s, order, n, t.passes[j], x);
    }
    PassChainKeeps(t.before, t.passes, k, x);
  }

  lemma NotOwned(s: Setup, order: seq<NodeInstance>, lp: NodeId, x: NodeId)
    requires Planned(s, order) && x !in Within(s, lp)
    ensures x !in Ids(ListAt(s, order, Some(lp))) && x != lp
    ensures forall m :: m in ListAt(s, order, Some(lp)) ==> x !in Within(s, m.id)
  {
    InOwnTree(s, lp);
    forall m | m in ListAt(s, order, Some(lp)) ensures x !in Within(s, m.id) && m.id != x {
      TreeUnder(s, order, Some(lp), m);
      InOwnTree(s, m.id);
    }
  }

  /** The run inside a pass. */
  function PassLog(s: Setup, order: seq<NodeInstance>, n: NodeInstance, p: Pass): Log {
    Log(BeforePass(p.before, OwnedNodes(s, order, n), n.id, p.batch), p.turns, p.after, p.ok)
  }

  lemma {:induction false} PassIsRun(s: Setup, order: seq<NodeInstance>, n: NodeInstance, p: Pass)
    requires Planned(s, order) && n in s.w.nodes && IsLoop(n) && PassRan(s, order, n, p)
    ensures IsRun(s, order, Some(n.id), PassLog(s, order, n, p))
  {
  }

  lemma {:induction false} PassStaysWithin(s: Setup, order: seq<NodeInstance>, n: NodeInstance, p: Pass, x: NodeId)
    requires Planned(s, order) && n in s.w.nodes && IsLoop(n) && PassRan(s, order, n, p) && x !in Within(s, n.id)
    ensures SameEntries(p.before, p.after, x)
    decreases p
  {
    var a := PassLog(s, order, n, p);
    NotOwned(s, order, n.id, x);
    PassIsRun(s, order, n, p);
    forall j | 0 <= j < |p.turns| ensures SameEntries(p.turns[j].before, p.turns[j].after, x) {
      TurnFacts(s, order, Some(n.id), a, j);
      TurnStaysWithin(s, order, NodeAt(s, order, Some(n.id), a, j), p.turns[j], x);
    }
    RunParts(s, order, Some(n.id), a);
    ChainKeeps(a.start, p.turns, 0, |p.turns|, x);
  }

  lemma EndStaysWithin(s: Setup, order: seq<NodeInstance>, n: NodeInstance, t: Turn, x: NodeId)
    requires Planned(s, order) && n in s.w.nodes && IsLoop(n) && LoopEnded(s, order, n, Sent(t.passes), t)
    requires x !in Within(s, n.id) && SameEntries(t.before, PassState(t.before, t.passes, |t.passes|), x)
    ensures SameEntries(t.before, t.after, x)
  {
    NotOwned(s, order, n.id, x);
    PlannedIsNested(s, order);
    assert NestedLoop(s, order, n);
    TotalsKeys(OwnedNodes(s, order, n), t.passes);
    assert x !in Totals(OwnedNodes(s, order, n), t.passes);
  }

  /** The `j`-th turn's tree does not hold the node. */
  ghost predicate Spares(s: Setup, order: seq<NodeInstance>, at: Option<NodeId>, a: Log, j: nat, x: NodeId)
    requires j < |a.turns|
  {
    a.turns[j].index < |ListAt(s, order, at)| ==> x !in Within(s, NodeAt(s, order, at, a, j).id)
  }

  /** The `j`-th turn leaves the node's entries alone. */
  ghost predicate Steady(a: Log, j: nat, x: NodeId)
    requires j < |a.turns|
  {
    SameEntries(a.turns[j].before, a.turns[j].after, x)
  }

  lemma {:induction false} SparedIsSteady(s: Setup, order: seq<NodeInstance>, at: Option<NodeId>, a: Log, j: nat,
      x: NodeId)
    requires IsRun(s, order, at, a) && j < |a.turns| && Spares(s, order, at, a, j, x)
    ensures Steady(a, j, x)
  {
    TurnFacts(s, order, at, a, j);
    TurnStaysWithin(s, order, NodeAt(s, order, at, a, j), a.turns[j], x);
  }

  /** Turns that may not write an entry leave it as it was. */
  lemma KeptBy(s: Setup, order: seq<NodeInstance>, at: Option<NodeId>, a: Log, k: nat, m: nat, x: NodeId)
    requires IsRun(s, order, at, a) && k <= m <= |a.turns|
    requires forall j :: k <= j < m ==> Spares(s, order, at, a, j, x)
    ensures SameEntries(StateAt(a.start, a.turns, k), StateAt(a.start, a.turns, m), x)
  {
    forall j | k <= j < m ensures SameEntries(a.turns[j].before, a.turns[j].after, x) {
      SparedIsSteady(s, order, at, a, j, x);
      assert Steady(a, j, x);
    }
    RunParts(s, order, at, a);
    ChainKeeps(a.start, a.turns, k, m, x);
  }

  lemma OtherIds(s: Setup, order: seq<NodeInstance>, at: Option<NodeId>, i: nat, j: nat)
    requires Planned(s, order) && IsPlace(s, at) && i < |ListAt(s, order, at)| && j < |ListAt(s, order, at)| && i != j
    ensures ListAt(s, order, at)[i].id != ListAt(s, order, at)[j].id
  {
    PlaceListed(s, order, at);
  }

  /** What is in one node's tree, the turns of the others leave alone. */
  lemma OthersKeep(s: Setup, order: seq<NodeInstance>, at: Option<NodeId>, a: Log, k: nat, m: nat, i: nat, x: NodeId)
    requires IsRun(s, order, at, a) && k <= m <= |a.turns|
    requires i < |ListAt(s, order, at)| && x in Within(s, ListAt(s, order, at)[i].id)
    requires forall j :: k <= j < m ==> a.turns[j].index != i
    ensures SameEntries(StateAt(a.start, a.turns, k), StateAt(a.start, a.turns, m), x)
  {
    var n := ListAt(s, order, at)[i];
    Listing(s, order, at, n);
    forall j | k <= j < m ensures Spares(s, order, at, a, j, x) {
      TurnFacts(s, order, at, a, j);
      OtherIds(s, order, at, i, a.turns[j].index);
      TreesApart(s, order, n.id, NodeAt(s, order, at, a, j).id, x);
    }
    KeptBy(s, order, at, a, k, m, x);
  }

  lemma OwnTurn(s: Setup, order: seq<NodeInstance>, at: Option<NodeId>, a: Log, k: nat, j: nat)
    requires IsRun(s, order, at, a) && k < |a.turns| && j < |a.turns| && j != k
    ensures a.turns[j].index != a.turns[k].index
  {
    RunParts(s, order, at, a);
    OnlyTurn(s, ListAt(s, order, at), a.turns, k, j);
  }

  lemma OtherTree(s: Setup, order: seq<NodeInstance>, at: Option<NodeId>, a: Log, k: nat, j: nat, x: NodeId)
    requires IsRun(s, order, at, a) && k < |a.turns| && j < |a.turns| && j != k
    requires a.turns[k].index < |ListAt(s, order, at)| && x in Within(s, NodeAt(s, order, at, a, k).id)
    ensures Spares(s, order, at, a, j, x)
  {
    TurnFacts(s, order, at, a, k);
    TurnFacts(s, order, at, a, j);
    OwnTurn(s, order, at, a, k, j);
    OtherIds(s, order, at, a.turns[k].index, a.turns[j].index);
    TreesApart(s, order, NodeAt(s, order, at, a, k).id, NodeAt(s, order, at, a, j).id, x);
  }

  /** Up to a node's own turn what is in its tree is as it was at the start. */
  lemma OwnBefore(s: Setup, order: seq<NodeInstance>, at: Option<NodeId>, a: Log, k: nat, x: NodeId)
    requires IsRun(s, order, at, a) && k < |a.turns|
    requires a.turns[k].index < |ListAt(s, order, at)| && x in Within(s, NodeAt(s, order, at, a, k).id)
    ensures SameEntries(a.start, a.turns[k].before, x)
  {
    forall j | 0 <= j < k ensures Spares(s, order, at, a, j, x) {
      OtherTree(s, order, at, a, k, j, x);
    }
    KeptBy(s, order, at, a, 0, k, x);
    TurnFacts(s, order, at, a, k);
  }

  lemma LaterTurnSteady(s: Setup, order: seq<NodeInstance>, at: Option<NodeId>, a: Log, k: nat, j: nat, x: NodeId)
    requires IsRun(s, order, at, a) && k < |a.turns| && j < |a.turns| && j != k
    requires a.turns[k].index < |ListAt(s, order, at)| && x in Within(s, NodeAt(s, order, at, a, k).id)
    ensures Steady(a, j, x)
  {
    OtherTree(s, order, at, a, k, j, x);
    SparedIsSteady(s, order, at, a, j, x);
  }

  lemma AfterTurn(a: Log, k: nat, m: nat, x: NodeId)
    requires Chained(a.start, a.turns) && k < m <= |a.turns| && forall j :: k < j < m ==> Steady(a, j, x)
    ensures SameEntries(a.turns[k].after, StateAt(a.start, a.turns, m), x)
  {
    forall j | k + 1 <= j < m ensures SameEntries(a.turns[j].before, a.turns[j].after, x) { assert Steady(a, j, x); }
    ChainKeeps(a.start, a.turns, k + 1, m, x);
  }

  /** After it, it is as the turn left it. */
  lemma OwnAfter(s: Setup, order: seq<NodeInstance>, at: Option<NodeId>, a: Log, k: nat, m: nat, x: NodeId)
    requires IsRun(s, order, at, a) && k < m <= |a.turns|
    requires a.turns[k].index < |ListAt(s, order, at)| && x in Within(s, NodeAt(s, order, at, a, k).id)
    ensures SameEntries(a.turns[k].after, StateAt(a.start, a.turns, m), x)
  {
    forall j | k < j < m ensures Steady(a, j, x) { LaterTurnSteady(s, order, at, a, k, j, x); }
    RunParts(s, order, at, a);
    AfterTurn(a, k, m, x);
  }

  lemma RunEnd(s: Setup, order: seq<NodeInstance>, at: Option<NodeId>, a: Log)
    requires IsRun(s, order, at, a)
    ensures a.end == StateAt(a.start, a.turns, |a.turns|)
  {
    RunParts(s, order, at, a);
  }

  // ---- Batches --------------------------------------------------------------------------------------------------

  lemma {:induction false} SentSplits(passes: seq<Pass>, k: nat)
    requires k < |passes|
    ensures Sent(passes[..k]) + passes[k].batch <= Sent(passes)
    ensures k + 1 == |passes| ==> Sent(passes[..k]) + passes[k].batch == Sent(passes)
  {
    var front := Front(passes);
    if k + 1 < |passes| {
      SentSplits(front, k);
      assert front[..k] == passes[..k];
    } else {
      assert passes[..k] == front;
    }
  }

  lemma SentNext(passes: seq<Pass>, k: nat)
    requires k < |passes|
    ensures Sent(passes[..k + 1]) == Sent(passes[..k]) + passes[k].batch
  {
    SentSplits(passes[..k + 1], k);
    assert passes[..k + 1][..k] == passes[..k];
  }

  /** Each batch takes as much of what is left of the input as the batch size allows. */
  lemma KthBatch(passes: seq<Pass>, queue: seq<Item>, input: seq<Item>, size: nat, k: nat)
    requires Batched(passes, queue, input, size) && k < |passes|
    ensures var from := |Sent(passes[..k])|;
            && from < |input| && from + |passes[k].batch| <= |input|
            && |passes[k].batch| == (if from + size <= |input| then size else |input| - from)
            && passes[k].batch == input[from..from + |passes[k].batch|]
  {
    var before, batch := Sent(passes[..k]), passes[k].batch;
    SentSplits(passes, k);
    assert before + batch <= input;
    assert input[..|before + batch|] == before + batch;
    assert batch == input[|before|..|before| + |batch|];
  }

  lemma SameBatch(a: seq<Pass>, aq: seq<Item>, b: seq<Pass>, bq: seq<Item>, input: seq<Item>, size: nat, k: nat)
    requires Batched(a, aq, input, size) && Batched(b, bq, input, size) && k < |a| && k < |b|
    requires Sent(a[..k]) == Sent(b[..k])
    ensures a[k].batch == b[k].batch
  {
    KthBatch(a, aq, input, size, k);
    KthBatch(b, bq, input, size, k);
  }

  /** Passes that sent everything cannot be outnumbered. */
  lemma {:induction false} NoMoreBatches(a: seq<Pass>, b: seq<Pass>, bq: seq<Item>, input: seq<Item>, size: nat)
    requires Sent(a) == input && Batched(b, bq, input, size) && |a| <= |b| && Sent(b[..|a|]) == Sent(a)
    ensures |a| == |b|
  {
    if |a| < |b| {
      KthBatch(b, bq, input, size, |a|);
    }
  }

  // ---- Agreement ------------------------------------------------------------------------------------------------

  ghost predicate AgreeOn(a: RunState, b: RunState, ids: set<NodeId>) {
    forall id :: id in ids ==> SameEntries(a, b, id)
  }

  lemma {:induction false} AddAllAgrees(body: seq<NodeInstance>, a: RunState, b: RunState, totals: map<NodeId,
      NodeOutput>)
    requires AgreeOn(a, b, Ids(body))
    ensures AddAll(body, a, totals) == AddAll(body, b, totals)
  {
    if body != [] {
      var front, n := body[..|body| - 1], body[|body| - 1];
      assert body == front + [n];
      assert n.id in Ids(body);
      AddAllAgrees(front, a, b, totals);
    }
  }

  lemma {:induction false} BroughtBackAgrees(links: seq<Connection>, a: RunState, b: RunState, ids: set<NodeId>)
    requires AgreeOn(a, b, ids) && forall c :: c in links ==> c.fromNode in ids
    ensures BroughtBack(links, a) == BroughtBack(links, b)
  {
    if links != [] {
      assert links[0] in links;
      assert SameEntries(a, b, links[0].fromNode);
      BroughtBackAgrees(links[1..], a, b, ids);
    }
  }

  /** Passes that agree one by one on some entries. */
  ghost predicate PassesAgreeOn(a: seq<Pass>, b: seq<Pass>, ids: set<NodeId>) {
    |a| == |b| && forall k :: 0 <= k < |a| ==> AgreeOn(a[k].after, b[k].after, ids)
  }

  lemma {:induction false} TotalsAgree(body: seq<NodeInstance>, links: seq<Connection>, a: seq<Pass>, b: seq<Pass>,
      ids: set<NodeId>)
    requires PassesAgreeOn(a, b, ids) && Ids(body) <= ids && forall c :: c in links ==> c.fromNode in ids
    ensures Totals(body, a) == Totals(body, b) && Done(links, a) == Done(links, b)
  {
    if a != [] {
      TotalsAgree(body, links, Front(a), Front(b), ids);
      var x, y := Last(a).after, Last(b).after;
      assert AgreeOn(x, y, ids);
      AddAllAgrees(body, x, y, Totals(body, Front(a)));
      BroughtBackAgrees(links, x, y, ids);
    }
  }

  lemma AfterPassesAgrees(a: RunState, b: RunState, totals: map<NodeId, NodeOutput>, lp: NodeId, done: seq<Item>,
      ids: set<NodeId>)
    requires AgreeOn(a, b, ids)
    ensures AgreeOn(AfterPasses(a, totals, lp, done), AfterPasses(b, totals, lp, done), ids)
  {
    forall id | id in ids ensures SameEntries(AfterPasses(a, totals, lp, done), AfterPasses(b, totals, lp, done), id) {
      assert SameEntries(a, b, id);
    }
  }

  lemma BeforePassAgrees(a: RunState, b: RunState, body: seq<NodeInstance>, lp: NodeId, batch: seq<Item>,
      ids: set<NodeId>)
    requires AgreeOn(a, b, ids)
    ensures AgreeOn(BeforePass(a, body, lp, batch), BeforePass(b, body, lp, batch), ids)
  {
    forall id | id in ids ensures SameEntries(BeforePass(a, body, lp, batch), BeforePass(b, body, lp, batch), id) {
      assert SameEntries(a, b, id);
    }
  }

  lemma StoreAgrees(a: RunState, b: RunState, id: NodeId, o: Outcome)
    requires o.Stores? && SameEntries(a, b, id)
    ensures SameEntries(Store(a, id, o), Store(b, id, o), id)
  {
  }

  // ---- One turn, one pass, one list -----------------------------------------------------------------------------

  lemma {:induction false} PlainTurnsAgree(s: Setup, order: seq<NodeInstance>, n: NodeInstance, a: Turn, b: Turn)
    requires TurnRan(s, order, n, a) && TurnRan(s, order, n, b)
    requires NodeOutcome(s, a.before, n) == NodeOutcome(s, b.before, n)
    requires AgreeOn(a.before, b.before, Sight(s, n.id)) && NodeOutcome(s, a.before, n).Stores?
    ensures a.ok && b.ok && AgreeOn(a.after, b.after, Sight(s, n.id))
  {
    forall id | id in Sight(s, n.id) ensures SameEntries(a.after, b.after, id) {
      assert SameEntries(a.before, b.before, id);
      if id == n.id { StoreAgrees(a.before, b.before, id, NodeOutcome(s, a.before, n)); }
    }
  }

  /** The first `k` passes of both turns went well, and agree. */
  ghost predicate Alike(s: Setup, n: NodeInstance, a: Turn, b: Turn, k: nat)
    requires k <= |a.passes| && k <= |b.passes|
  {
    && Sent(a.passes[..k]) == Sent(b.passes[..k])
    && AgreeOn(PassState(a.before, a.passes, k), PassState(b.before, b.passes, k), Sight(s, n.id))
    && PassesAgreeOn(a.passes[..k], b.passes[..k], Sight(s, n.id))
    && forall j :: 0 <= j < k ==> a.passes[j].ok && b.passes[j].ok
  }

  ghost predicate LoopTurn(s: Setup, order: seq<NodeInstance>, n: NodeInstance, input: seq<Item>, a: Turn) {
    && n in s.w.nodes && IsLoop(n) && PassesRan(s, order, n, a.before, a.passes)
    && exists queue :: Batched(a.passes, queue, input, BatchSize(n.parameters))
  }

  lemma MorePassesAgree(a: seq<Pass>, b: seq<Pass>, k: nat, ids: set<NodeId>)
    requires k < |a| && k < |b| && PassesAgreeOn(a[..k], b[..k], ids) && AgreeOn(a[k].after, b[k].after, ids)
    ensures PassesAgreeOn(a[..k + 1], b[..k + 1], ids)
  {
    var x, y := a[..k + 1], b[..k + 1];
    forall j | 0 <= j < k + 1 ensures AgreeOn(x[j].after, y[j].after, ids) {
      if j < k { assert a[..k][j] == a[j] && b[..k][j] == b[j]; }
    }
  }

  lemma AlikeNext(s: Setup, n: NodeInstance, a: Turn, b: Turn, k: nat)
    requires k < |a.passes| && k < |b.passes| && Alike(s, n, a, b, k)
    requires a.passes[k].batch == b.passes[k].batch && a.passes[k].ok && b.passes[k].ok
    requires AgreeOn(a.passes[k].after, b.passes[k].after, Sight(s, n.id))
    ensures Alike(s, n, a, b, k + 1)
  {
    SentNext(a.passes, k);
    SentNext(b.passes, k);
    MorePassesAgree(a.passes, b.passes, k, Sight(s, n.id));
  }

  lemma {:induction false} PassesAlike(s: Setup, order: seq<NodeInstance>, n: NodeInstance, input: seq<Item>, a: Turn,
      b: Turn,
      k: nat)
    requires Planned(s, order) && Settled(s) && LoopTurn(s, order, n, input, a) && LoopTurn(s, order, n, input, b)
    requires AgreeOn(a.before, b.before, Sight(s, n.id))
    requires k <= |a.passes| && k <= |b.passes| && forall j :: 0 <= j < k ==> a.passes[j].ok
    ensures Alike(s, n, a, b, k)
    decreases a, 2, k
  {
    AlikeStart(s, n, a, b);
    forall j | 0 <= j < k ensures AlikeStep(s, n, a, b, j) {
      if Alike(s, n, a, b, j) { AlikeOneMore(s, order, n, input, a, b, j); }
    }
    AlikeUpTo(s, n, a, b, k);
  }

  ghost predicate AlikeStep(s: Setup, n: NodeInstance, a: Turn, b: Turn, k: nat)
    requires k < |a.passes| && k < |b.passes|
  {
    Alike(s, n, a, b, k) ==> Alike(s, n, a, b, k + 1)
  }

  lemma {:induction false} AlikeUpTo(s: Setup, n: NodeInstance, a: Turn, b: Turn, k: nat)
    requires k <= |a.passes| && k <= |b.passes| && Alike(s, n, a, b, 0)
    requires forall j :: 0 <= j < k ==> AlikeStep(s, n, a, b, j)
    ensures Alike(s, n, a, b, k)
  {
    if k > 0 {
      AlikeUpTo(s, n, a, b, k - 1);
      assert AlikeStep(s, n, a, b, k - 1);
    }
  }

  lemma AlikeStart(s: Setup, n: NodeInstance, a: Turn, b: Turn)
    requires AgreeOn(a.before, b.before, Sight(s, n.id))
    ensures Alike(s, n, a, b, 0)
  {
  }

  lemma {:induction false} AlikeOneMore(s: Setup, order: seq<NodeInstance>, n: NodeInstance, input: seq<Item>,
      a: Turn, b: Turn,
      k: nat)
    requires Planned(s, order) && Settled(s) && LoopTurn(s, order, n, input, a) && LoopTurn(s, order, n, input, b)
    requires k < |a.passes| && k < |b.passes| && Alike(s, n, a, b, k) && a.passes[k].ok
    ensures Alike(s, n, a, b, k + 1)
    decreases a, 1
  {
    NextPassAlike(s, order, n, input, a, b, k);
    AlikeNext(s, n, a, b, k);
  }

  /** After passes that went alike the next ones get the same batch and end alike. */
  lemma {:induction false} NextPassAlike(s: Setup, order: seq<NodeInstance>, n: NodeInstance, input: seq<Item>,
      a: Turn, b: Turn,
      k: nat)
    requires Planned(s, order) && Settled(s) && LoopTurn(s, order, n, input, a) && LoopTurn(s, order, n, input, b)
    requires k < |a.passes| && k < |b.passes| && Alike(s, n, a, b, k)
    ensures a.passes[k].batch == b.passes[k].batch && a.passes[k].ok == b.passes[k].ok
    ensures a.passes[k].ok ==> AgreeOn(a.passes[k].after, b.passes[k].after, Sight(s, n.id))
    decreases a, 0
  {
    BatchesAlike(s, order, n, input, a, b, k);
    PassIn(s, order, n, a.before, a.passes, k);
    PassIn(s, order, n, b.before, b.passes, k);
    PassAgrees(s, order, n, a.passes[k], b.passes[k]);
  }

  lemma BatchesAlike(s: Setup, order: seq<NodeInstance>, n: NodeInstance, input: seq<Item>, a: Turn, b: Turn, k: nat)
    requires LoopTurn(s, order, n, input, a) && LoopTurn(s, order, n, input, b)
    requires k < |a.passes| && k < |b.passes| && Alike(s, n, a, b, k)
    ensures a.passes[k].batch == b.passes[k].batch
  {
    var aq :| Batched(a.passes, aq, input, BatchSize(n.parameters));
    var bq :| Batched(b.passes, bq, input, BatchSize(n.parameters));
    SameBatch(a.passes, aq, b.passes, bq, input, BatchSize(n.parameters), k);
  }

  /** Two passes with the same batch that begin alike end alike. */
  lemma {:induction false} PassAgrees(s: Setup, order: seq<NodeInstance>, n: NodeInstance, p: Pass, q: Pass)
    requires Planned(s, order) && Settled(s) && n in s.w.nodes && IsLoop(n) && PassRan(s, order, n, p)
    requires PassRan(s, order, n, q)
    requires p.batch == q.batch && AgreeOn(p.before, q.before, Sight(s, n.id))
    ensures p.ok == q.ok && (p.ok ==> AgreeOn(p.after, q.after, Sight(s, n.id)))
    decreases p
  {
    var at := Some(n.id);
    var a, b := PassLog(s, order, n, p), PassLog(s, order, n, q);
    BeforePassAgrees(p.before, q.before, OwnedNodes(s, order, n), n.id, p.batch, Sight(s, n.id));
    PassIsRun(s, order, n, p);
    PassIsRun(s, order, n, q);
    ListsAgree(s, order, at, a, b);
  }

  // ---- Two runs of one list -------------------------------------------------------------------------------------

  /** Two runs of one list from starts that agree on all its turns may read or write. */
  ghost predicate TwoRuns(s: Setup, order: seq<NodeInstance>, at: Option<NodeId>, a: Log, b: Log) {
    Settled(s) && IsRun(s, order, at, a) && IsRun(s, order, at, b) && AgreeOn(a.start, b.start, View(s, at))
  }

  lemma {:induction false} PlaceSorted(s: Setup, order: seq<NodeInstance>, at: Option<NodeId>)
    requires Planned(s, order) && IsPlace(s, at)
    ensures Sorted(s.Links(), ListAt(s, order, at))
  {
    PlaceListed(s, order, at);
  }

  lemma PlaceOf(list: seq<NodeInstance>, id: NodeId) returns (i: nat)
    requires id in Ids(list)
    ensures i < |list| && list[i].id == id
  {
    i :| 0 <= i < |list| && list[i].id == id;
  }

  /** A listed feeder is listed before the node it feeds. */
  lemma FeederListed(s: Setup, order: seq<NodeInstance>, at: Option<NodeId>, c: Connection, i: nat) returns (j: nat)
    requires Planned(s, order) && IsPlace(s, at) && i < |ListAt(s, order, at)|
    requires c in s.Links() && c.toNode == ListAt(s, order, at)[i].id && OwnerOf(s.owner, c.fromNode) == at
    ensures j < i && ListAt(s, order, at)[j].id == c.fromNode && j in Steps.Deps(s, ListAt(s, order, at), i)
  {
    LinkEnds(s, c);
    InList(s, order, at, c.fromNode);
    PlaceSorted(s, order, at);
    j := PlaceOf(ListAt(s, order, at), c.fromNode);
    FeederIsDep(s, ListAt(s, order, at), c, i, j);
  }

  lemma FeederIsDep(s: Setup, list: seq<NodeInstance>, c: Connection, i: nat, j: nat)
    requires Sorted(s.Links(), list) && i < |list| && j < |list|
    requires c in s.Links() && c.fromNode == list[j].id && c.toNode == list[i].id
    ensures j < i && j in Steps.Deps(s, list, i)
  {
    assert Linked(s.Links(), list[j].id, list[i].id);
  }

  /** A listed feeder has had its turn by the turn of the node it feeds. */
  lemma FeederTurn(s: Setup, order: seq<NodeInstance>, at: Option<NodeId>, a: Log, k: nat, c: Connection)
    returns (m: nat)
    requires IsRun(s, order, at, a) && k < |a.turns| && a.turns[k].index < |ListAt(s, order, at)|
    requires c in s.Links() && c.toNode == NodeAt(s, order, at, a, k).id && OwnerOf(s.owner, c.fromNode) == at
    ensures m < k && a.turns[m].ok && a.turns[m].index < a.turns[k].index && NodeAt(s, order, at, a, m).id == c.fromNode
  {
    var j := FeederListed(s, order, at, c, a.turns[k].index);
    RunIsRuns(s, order, at, a);
    m := FeederSeen(s, order, ListAt(s, order, at), ScopeAt(s, at), DepthAt(s, at), a.start, a.turns, k, j);
    RunParts(s, order, at, a);
  }

  lemma LastOfPath(s: Setup, at: Option<NodeId>, p: seq<NodeId>) returns (c: Connection)
    requires |p| > 1 && ListPath(s, at, p)
    ensures c in s.Links() && c.fromNode == p[|p| - 2] && c.toNode == p[|p| - 1] && OwnerOf(s.owner, c.fromNode) == at
    ensures ListPath(s, at, p[..|p| - 1])
  {
    assert Linked(s.Links(), p[|p| - 2], p[|p| - 1]);
    c :| c in s.Links() && c.fromNode == p[|p| - 2] && c.toNode == p[|p| - 1];
    SubPath(s.Links(), p, 0, |p| - 1);
    assert p[0..|p| - 1] == p[..|p| - 1];
  }

  /** A node that comes before another in the list has had its turn by the other's. */
  lemma {:induction false} BeforeTurn(s: Setup, order: seq<NodeInstance>, at: Option<NodeId>, a: Log, k: nat,
      p: seq<NodeId>) returns (m: nat)
    requires IsRun(s, order, at, a) && k < |a.turns| && a.turns[k].index < |ListAt(s, order, at)|
    requires |p| > 1 && ListPath(s, at, p) && p[|p| - 1] == NodeAt(s, order, at, a, k).id
    ensures m < k && a.turns[m].ok && a.turns[m].index < a.turns[k].index && NodeAt(s, order, at, a, m).id == p[0]
    decreases |p|
  {
    var c := LastOfPath(s, at, p);
    m := FeederTurn(s, order, at, a, k, c);
    if |p| > 2 { m := BeforeTurn(s, order, at, a, m, p[..|p| - 1]); }
  }

  lemma ComesBefore(s: Setup, order: seq<NodeInstance>, at: Option<NodeId>, a: Log, k: nat, x: NodeId) returns (m: nat)
    requires IsRun(s, order, at, a) && k < |a.turns| && a.turns[k].index < |ListAt(s, order, at)|
    requires Before(s, x, NodeAt(s, order, at, a, k).id)
    ensures m < k && a.turns[m].ok && a.turns[m].index < a.turns[k].index && NodeAt(s, order, at, a, m).id == x
  {
    var y := NodeAt(s, order, at, a, k).id;
    TurnFacts(s, order, at, a, k);
    var p :| |p| > 1 && p[0] == x && p[|p| - 1] == y && ListPath(s, OwnerOf(s.owner, y), p);
    m := BeforeTurn(s, order, at, a, k, p);
  }

  /** What no turn of the list writes stays as it was. */
  lemma OuterKept(s: Setup, order: seq<NodeInstance>, at: Option<NodeId>, a: Log, k: nat, x: NodeId)
    requires IsRun(s, order, at, a) && k <= |a.turns| && x !in Under(s, at)
    ensures SameEntries(a.start, StateAt(a.start, a.turns, k), x)
  {
    forall j | 0 <= j < k ensures Spares(s, order, at, a, j, x) {
      TurnFacts(s, order, at, a, j);
      TreeUnder(s, order, at, NodeAt(s, order, at, a, j));
    }
    KeptBy(s, order, at, a, 0, k, x);
  }

  /** If a node comes after another in the list, the other's turn finds its tree as it was at the start. */
  lemma LaterUntouched(s: Setup, order: seq<NodeInstance>, at: Option<NodeId>, a: Log, k: nat, i: nat, x: NodeId)
    requires IsRun(s, order, at, a) && k < |a.turns| && a.turns[k].index < |ListAt(s, order, at)|
    requires i < |ListAt(s, order, at)| && x in Within(s, ListAt(s, order, at)[i].id)
    requires Before(s, NodeAt(s, order, at, a, k).id, ListAt(s, order, at)[i].id)
    ensures SameEntries(a.start, a.turns[k].before, x)
  {
    forall j | 0 <= j < k ensures a.turns[j].index != i {
      if a.turns[j].index == i {
        var m := ComesBefore(s, order, at, a, j, NodeAt(s, order, at, a, k).id);
        SameIndex(s, order, at, a, m, k);
        OwnTurn(s, order, at, a, m, k);
      }
    }
    OthersKeep(s, order, at, a, 0, k, i, x);
    TurnFacts(s, order, at, a, k);
  }

  lemma SameIndex(s: Setup, order: seq<NodeInstance>, at: Option<NodeId>, a: Log, k: nat, m: nat)
    requires IsRun(s, order, at, a) && k < |a.turns| && m < |a.turns|
    requires a.turns[k].index < |ListAt(s, order, at)| && a.turns[m].index < |ListAt(s, order, at)|
    requires NodeAt(s, order, at, a, k).id == NodeAt(s, order, at, a, m).id
    ensures a.turns[k].index == a.turns[m].index
  {
    if a.turns[k].index != a.turns[m].index { OtherIds(s, order, at, a.turns[k].index, a.turns[m].index); }
  }

  /** What is in another node's tree and feeds into this one's agrees when this one's turn comes. */
  lemma {:induction false} NeighbourAgrees(s: Setup, order: seq<NodeInstance>, at: Option<NodeId>, a: Log, b: Log,
      k: nat, m: nat, i: nat, x: NodeId)
    requires TwoRuns(s, order, at, a, b) && k < |a.turns| && m < |b.turns|
    requires a.turns[k].index == b.turns[m].index < |ListAt(s, order, at)| && i < |ListAt(s, order, at)|
    requires i != a.turns[k].index && x in Within(s, ListAt(s, order, at)[i].id)
    requires x in Feeding(s, NodeAt(s, order, at, a, k).id)
    ensures SameEntries(a.turns[k].before, b.turns[m].before, x)
    decreases a.turns, 1, a.turns[k].index, 0
  {
    var list := ListAt(s, order, at);
    var n, other := NodeAt(s, order, at, a, k), list[i];
    TurnFacts(s, order, at, a, k);
    TurnFacts(s, order, at, b, m);
    Listing(s, order, at, other);
    OtherIds(s, order, at, i, a.turns[k].index);
    OneComesFirst(s, other.id, n.id, x);
    if Before(s, other.id, n.id) {
      var ka := ComesBefore(s, order, at, a, k, other.id);
      var mb := ComesBefore(s, order, at, b, m, other.id);
      assert a.turns[ka].index == b.turns[mb].index by {
        if a.turns[ka].index != b.turns[mb].index { OtherIds(s, order, at, a.turns[ka].index, b.turns[mb].index); }
      }
      NodeTurnsAgree(s, order, at, a, b, ka, mb);
      OwnAfter(s, order, at, a, ka, k, x);
      OwnAfter(s, order, at, b, mb, m, x);
      assert SameEntries(a.turns[ka].after, b.turns[mb].after, x);
    } else {
      LaterUntouched(s, order, at, a, k, i, x);
      LaterUntouched(s, order, at, b, m, i, x);
      InTreeOfList(s, order, at, i, x);
      assert SameEntries(a.start, b.start, x);
    }
  }

  lemma InTreeOfList(s: Setup, order: seq<NodeInstance>, at: Option<NodeId>, i: nat, x: NodeId)
    requires Planned(s, order) && i < |ListAt(s, order, at)| && x in Within(s, ListAt(s, order, at)[i].id)
    ensures x in Under(s, at) && x in View(s, at)
  {
    TreeUnder(s, order, at, ListAt(s, order, at)[i]);
  }

  /** What is outside the place and feeds into it is in view. */
  lemma OutsideInView(s: Setup, order: seq<NodeInstance>, at: Option<NodeId>, i: nat, x: NodeId)
    requires Planned(s, order) && i < |ListAt(s, order, at)| && x in Feeding(s, ListAt(s, order, at)[i].id)
    ensures x in View(s, at)
  {
    var n := ListAt(s, order, at)[i];
    var c :| c in s.w.connections && c.toNode in Within(s, n.id) && c.fromNode == x;
    assert HasNode(s.w, c.fromNode);
    TreeUnder(s, order, at, n);
  }

  /** All that a node's turn may read or write agrees when it comes. */
  lemma {:induction false} SightAgrees(s: Setup, order: seq<NodeInstance>, at: Option<NodeId>, a: Log, b: Log,
      k: nat, m: nat, x: NodeId)
    requires TwoRuns(s, order, at, a, b) && k < |a.turns| && m < |b.turns|
    requires a.turns[k].index == b.turns[m].index < |ListAt(s, order, at)|
    requires x in Sight(s, NodeAt(s, order, at, a, k).id)
    ensures SameEntries(a.turns[k].before, b.turns[m].before, x)
    decreases a.turns, 1, a.turns[k].index, 1
  {
    var i := a.turns[k].index;
    if x in Within(s, NodeAt(s, order, at, a, k).id) {
      OwnBefore(s, order, at, a, k, x);
      OwnBefore(s, order, at, b, m, x);
      InTreeOfList(s, order, at, i, x);
      assert SameEntries(a.start, b.start, x);
    } else if x in Under(s, at) {
      var j := BranchIndex(s, order, at, x);
      NeighbourAgrees(s, order, at, a, b, k, m, j, x);
    } else {
      OutsideInView(s, order, at, i, x);
      OuterKept(s, order, at, a, k, x);
      OuterKept(s, order, at, b, m, x);
      TurnFacts(s, order, at, a, k);
      TurnFacts(s, order, at, b, m);
      assert SameEntries(a.start, b.start, x);
    }
  }

  lemma BranchIndex(s: Setup, order: seq<NodeInstance>, at: Option<NodeId>, x: NodeId) returns (i: nat)
    requires Planned(s, order) && x in Under(s, at)
    ensures i < |ListAt(s, order, at)| && x in Within(s, ListAt(s, order, at)[i].id)
  {
    var id := Branch(s, order, at, x);
    var n :| n in ListAt(s, order, at) && n.id == id;
    i :| 0 <= i < |ListAt(s, order, at)| && ListAt(s, order, at)[i] == n;
  }

  /** The turns of one node in both runs end alike. */
  lemma {:induction false} NodeTurnsAgree(s: Setup, order: seq<NodeInstance>, at: Option<NodeId>, a: Log, b: Log,
      k: nat, m: nat)
    requires TwoRuns(s, order, at, a, b) && k < |a.turns| && m < |b.turns|
    requires a.turns[k].index == b.turns[m].index
    ensures a.turns[k].index < |ListAt(s, order, at)| && a.turns[k].ok == b.turns[m].ok
    ensures a.turns[k].ok ==> AgreeOn(a.turns[k].after, b.turns[m].after, Sight(s, NodeAt(s, order, at, a, k).id))
    decreases a.turns, 1, a.turns[k].index, 2
  {
    TurnFacts(s, order, at, a, k);
    TurnFacts(s, order, at, b, m);
    var n := NodeAt(s, order, at, a, k);
    forall x | x in Sight(s, n.id) ensures SameEntries(a.turns[k].before, b.turns[m].before, x) {
      SightAgrees(s, order, at, a, b, k, m, x);
    }
    TurnsAgree(s, order, n, a.turns[k], b.turns[m]);
  }

  /** The turn of a node in a finished run. */
  lemma TurnOf(s: Setup, order: seq<NodeInstance>, at: Option<NodeId>, a: Log, i: nat) returns (k: nat)
    requires IsRun(s, order, at, a) && a.ok && i < |ListAt(s, order, at)|
    ensures k < |a.turns| && a.turns[k].index == i && a.turns[k].ok
  {
    RunParts(s, order, at, a);
    k := TurnAmong(ListAt(s, order, at), a.turns, i);
  }

  /** A run that failed ends with a failing turn of a listed node. */
  lemma FailingTurn(s: Setup, order: seq<NodeInstance>, at: Option<NodeId>, a: Log) returns (k: nat)
    requires IsRun(s, order, at, a) && !a.ok
    ensures k < |a.turns| && a.turns[k].index < |ListAt(s, order, at)| && !a.turns[k].ok
  {
    RunParts(s, order, at, a);
    k := |a.turns| - 1;
    TurnFacts(s, order, at, a, k);
  }

  /** Two runs of one list from starts that agree both fail, or end alike. */
  lemma {:induction false} ListsAgree(s: Setup, order: seq<NodeInstance>, at: Option<NodeId>, a: Log, b: Log)
    requires TwoRuns(s, order, at, a, b)
    ensures a.ok == b.ok && (a.ok ==> AgreeOn(a.end, b.end, View(s, at)))
    decreases a.turns, 2
  {
    if a.ok && !b.ok {
      var m := FailingTurn(s, order, at, b);
      var k := TurnOf(s, order, at, a, b.turns[m].index);
      NodeTurnsAgree(s, order, at, a, b, k, m);
    } else if !a.ok && b.ok {
      var k := FailingTurn(s, order, at, a);
      var m := TurnOf(s, order, at, b, a.turns[k].index);
      NodeTurnsAgree(s, order, at, a, b, k, m);
    } else if a.ok {
      RunEnd(s, order, at, a);
      RunEnd(s, order, at, b);
      forall x | x in View(s, at) ensures SameEntries(a.end, b.end, x) {
        if x in Under(s, at) {
          var i := BranchIndex(s, order, at, x);
          var k := TurnOf(s, order, at, a, i);
          var m := TurnOf(s, order, at, b, i);
          NodeTurnsAgree(s, order, at, a, b, k, m);
          OwnAfter(s, order, at, a, k, |a.turns|, x);
          OwnAfter(s, order, at, b, m, |b.turns|, x);
          assert x in Sight(s, NodeAt(s, order, at, a, k).id);
        } else {
          UnwrittenAgrees(s, order, at, a, b, x);
        }
      }
    }
  }

  lemma UnwrittenAgrees(s: Setup, order: seq<NodeInstance>, at: Option<NodeId>, a: Log, b: Log, x: NodeId)
    requires IsRun(s, order, at, a) && IsRun(s, order, at, b) && x !in Under(s, at) && SameEntries(a.start, b.start, x)
    ensures SameEntries(a.end, b.end, x)
  {
    RunParts(s, order, at, a);
    RunParts(s, order, at, b);
    OuterKept(s, order, at, a, |a.turns|, x);
    OuterKept(s, order, at, b, |b.turns|, x);
  }

  lemma LinkEnds(s: Setup, c: Connection)
    requires EndpointsExist(s.w) && s.back == BackIndexes(s.w) && c in s.Links()
    ensures c in ForwardLinks(s.w) && c in s.w.connections && c.fromNode in Ids(s.w.nodes) && c.toNode in Ids(s.w.nodes)
  {
    ForwardLinkIff(s.w, c);
  }

  lemma {:induction false} LoopTurnsAgree(s: Setup, order: seq<NodeInstance>, n: NodeInstance, input: seq<Item>,
      a: Turn, b: Turn)
    requires Planned(s, order) && Settled(s) && n in s.w.nodes && IsLoop(n)
    requires LoopRan(s, order, n, input, a) && LoopRan(s, order, n, input, b)
    requires AgreeOn(a.before, b.before, Sight(s, n.id))
    ensures a.ok == b.ok && (a.ok ==> AgreeOn(a.after, b.after, Sight(s, n.id)))
    decreases a, 4
  {
    LoopRanParts(s, order, n, input, a);
    LoopRanParts(s, order, n, input, b);
    if a.ok {
      SameCount(s, order, n, input, a, b);
      PassesAlike(s, order, n, input, a, b, |a.passes|);
      LoopEndsAgree(s, order, n, input, a, b);
    } else if b.ok {
      SameCountBack(s, order, n, input, a, b);
    }
  }

  lemma {:induction false} LoopRanParts(s: Setup, order: seq<NodeInstance>, n: NodeInstance, input: seq<Item>, a: Turn)
    requires n in s.w.nodes && IsLoop(n) && LoopRan(s, order, n, input, a)
    ensures LoopTurn(s, order, n, input, a)
    ensures a.ok ==> LoopEnded(s, order, n, input, a) && Sent(a.passes) == input
    ensures a.ok ==> forall j :: 0 <= j < |a.passes| ==> a.passes[j].ok
    ensures !a.ok ==> LoopBroke(n, input, a)
  {
    assert PassesRan(s, order, n, a.before, a.passes);
    if a.ok {
      AllPassesOk(a);
      assert Batched(a.passes, [], input, BatchSize(n.parameters));
      assert Sent(a.passes) + [] == Sent(a.passes);
    }
  }

  lemma FeedersSeen(s: Setup, order: seq<NodeInstance>, n: NodeInstance)
    requires Planned(s, order)
    ensures forall c :: c in s.Links() && c.toNode == n.id ==> c.fromNode in Sight(s, n.id)
  {
    InOwnTree(s, n.id);
  }

  /** Two turns of a node that find the same in all it may read or write end alike. */
  lemma {:induction false} TurnsAgree(s: Setup, order: seq<NodeInstance>, n: NodeInstance, a: Turn, b: Turn)
    requires Planned(s, order) && Settled(s) && n in s.w.nodes && TurnRan(s, order, n, a) && TurnRan(s, order, n, b)
    requires AgreeOn(a.before, b.before, Sight(s, n.id))
    ensures a.ok == b.ok && (a.ok ==> AgreeOn(a.after, b.after, Sight(s, n.id)))
    decreases a, 5
  {
    FeedersSeen(s, order, n);
    OutcomeLocal(s, a.before, b.before, n);
    OnlyLoopsEnter(s, a.before, n);
    var o := NodeOutcome(s, a.before, n);
    if o.EntersLoop? {
      LoopTurnsAgree(s, order, n, o.input, a, b);
    } else if o.Stores? {
      PlainTurnsAgree(s, order, n, a, b);
    }
  }

  /** A loop's turn that went well has as many passes as the other, and so has the other. */
  lemma {:induction false} SameCount(s: Setup, order: seq<NodeInstance>, n: NodeInstance, input: seq<Item>, a: Turn,
      b: Turn)
    requires Planned(s, order) && Settled(s) && LoopRan(s, order, n, input, a) && LoopRan(s, order, n, input, b)
    requires LoopTurn(s, order, n, input, a) && LoopTurn(s, order, n, input, b)
    requires AgreeOn(a.before, b.before, Sight(s, n.id)) && a.ok
    ensures b.ok && |a.passes| == |b.passes|
    decreases a, 3
  {
    LoopRanParts(s, order, n, input, a);
    LoopRanParts(s, order, n, input, b);
    var k := if |a.passes| <= |b.passes| then |a.passes| else |b.passes|;
    PassesAlike(s, order, n, input, a, b, k);
    if !b.ok {
      LastOfBroken(n, input, b);
    }
    var aq := QueueOf(s, order, n, input, a);
    var bq := QueueOf(s, order, n, input, b);
    CountsMatch(a.passes, aq, b.passes, bq, input, BatchSize(n.parameters), k);
  }

  lemma LastOfBroken(n: NodeInstance, input: seq<Item>, b: Turn)
    requires LoopBroke(n, input, b)
    ensures b.passes != [] && !b.passes[|b.passes| - 1].ok
  {
  }

  lemma QueueOf(s: Setup, order: seq<NodeInstance>, n: NodeInstance, input: seq<Item>,
      a: Turn) returns (queue: seq<Item>)
    requires LoopTurn(s, order, n, input, a)
    ensures Batched(a.passes, queue, input, BatchSize(n.parameters))
  {
    queue :| Batched(a.passes, queue, input, BatchSize(n.parameters));
  }

  lemma {:induction false} CountsMatch(a: seq<Pass>, aq: seq<Item>, b: seq<Pass>, bq: seq<Item>, input: seq<Item>,
      size: nat, k: nat)
    requires Batched(a, aq, input, size) && Batched(b, bq, input, size) && Sent(a) == input
    requires k == (if |a| <= |b| then |a| else |b|) && Sent(a[..k]) == Sent(b[..k])
    requires |b| < |a| ==> Sent(b) == input
    ensures |a| == |b|
  {
    if k == |a| {
      assert a[..k] == a;
      NoMoreBatches(a, b, bq, input, size);
    } else {
      assert b[..k] == b;
      NoMoreBatches(b, a, aq, input, size);
    }
  }

  lemma {:induction false} SameCountBack(s: Setup, order: seq<NodeInstance>, n: NodeInstance, input: seq<Item>,
      a: Turn, b: Turn)
    requires Planned(s, order) && Settled(s) && LoopRan(s, order, n, input, a) && LoopRan(s, order, n, input, b)
    requires LoopTurn(s, order, n, input, a) && LoopTurn(s, order, n, input, b)
    requires AgreeOn(a.before, b.before, Sight(s, n.id)) && b.ok
    ensures a.ok
    decreases a, 3
  {
    LoopRanParts(s, order, n, input, a);
    LoopRanParts(s, order, n, input, b);
    if !a.ok {
      var last := |a.passes| - 1;
      forall j | 0 <= j < last ensures a.passes[j].ok { PassIn(s, order, n, a.before, a.passes, j); }
      var k := if last <= |b.passes| then last else |b.passes|;
      PassesAlike(s, order, n, input, a, b, k);
      if last < |b.passes| {
        NextPassAlike(s, order, n, input, a, b, last);
      } else {
        OutOfBatches(s, order, n, input, a, b, k);
      }
    }
  }

  lemma OutOfBatches(s: Setup, order: seq<NodeInstance>, n: NodeInstance, input: seq<Item>, a: Turn, b: Turn, k: nat)
    requires k == |b.passes| <= |a.passes|
    requires LoopTurn(s, order, n, input, a) && Alike(s, n, a, b, k) && Sent(b.passes) == input
    ensures |a.passes| == |b.passes|
  {
    assert b.passes[..k] == b.passes;
    var aq := QueueOf(s, order, n, input, a);
    NoMoreBatches(b.passes, a.passes, aq, input, BatchSize(n.parameters));
  }

  lemma OwnedInSight(s: Setup, order: seq<NodeInstance>, n: NodeInstance)
    requires Planned(s, order)
    ensures Ids(OwnedNodes(s, order, n)) <= Sight(s, n.id)
    ensures forall c :: c in BackLinksInto(s.w.connections, s.back, n.id) ==> c.fromNode in Sight(s, n.id)
  {
    InOwnTree(s, n.id);
    forall m | m in OwnedNodes(s, order, n) ensures m.id in Within(s, n.id) {
      Listing(s, order, Some(n.id), m);
      OwnedInTree(s, m.id, n.id);
    }
  }

  lemma LoopEndsAgree(s: Setup, order: seq<NodeInstance>, n: NodeInstance, input: seq<Item>, a: Turn, b: Turn)
    requires Planned(s, order) && Settled(s) && n in s.w.nodes && IsLoop(n)
    requires LoopEnded(s, order, n, input, a) && LoopEnded(s, order, n, input, b)
    requires |a.passes| == |b.passes| && Alike(s, n, a, b, |a.passes|)
    ensures AgreeOn(a.after, b.after, Sight(s, n.id))
  {
    var body, links := OwnedNodes(s, order, n), BackLinksInto(s.w.connections, s.back, n.id);
    assert a.passes[..|a.passes|] == a.passes && b.passes[..|b.passes|] == b.passes;
    OwnedInSight(s, order, n);
    TotalsAgree(body, links, a.passes, b.passes, Sight(s, n.id));
    AfterPassesAgrees(
      PassState(a.before, a.passes, |a.passes|), PassState(b.before, b.passes, |b.passes|), Totals(body, a.passes),
                      n.id, Done(links, a.passes), Sight(s, n.id));
  }

  // ---- Whole runs -----------------------------------------------------------------------------------------------

  /** Whichever ready node has its turn next, all runs of a settled workflow fail, or all end in one state. */
  lemma {:induction false} SettledRunsAgree(s: Setup, order: seq<NodeInstance>, a: Log, b: Log)
    requires Settled(s) && a.start == NOTHING && b.start == NOTHING && IsRun(s, order, None, a)
    requires IsRun(s, order, None, b)
    ensures a.ok == b.ok && (a.ok ==> a.end == b.end)
  {
    ListsAgree(s, order, None, a, b);
    if a.ok {
      forall x ensures SameEntries(a.end, b.end, x) {
        if x !in Ids(s.w.nodes) { UnwrittenAgrees(s, order, None, a, b, x); }
      }
      Steps.SameEverywhere(a.end, b.end);
    }
  }

  // ---- What stands at the end -----------------------------------------------------------------------------------

  /** What is strictly under a loop is in its body. */
  lemma {:induction false} ClimbInBody(s: Setup, order: seq<NodeInstance>, p: seq<NodeId>)
    requires Planned(s, order) && Climbs(s.owner, p) && |p| > 1
    ensures p[0] in Body(s.w, p[|p| - 1]) && LoopAround(s.w, p[|p| - 1], p[|p| - 2])
  {
    var last, inner := p[|p| - 1], p[|p| - 2];
    ClimbStep(s.owner, p, |p| - 2);
    assert IsOwner(s.w, inner, last);
    if |p| > 2 {
      Taken(s.owner, p, |p| - 1);
      var q := p[..|p| - 1];
      ClimbInBody(s, order, q);
      assert q[|q| - 1] == inner;
      OwnerIsLarger(s, order, inner);
      InnerBodyStrictlyInside(s.w, order, last, inner);
    }
  }

  /** A node in the body of a listed loop is not listed beside it. */
  lemma NotBeside(s: Setup, order: seq<NodeInstance>, at: Option<NodeId>, m: NodeId, id: NodeId)
    requires Planned(s, order) && OwnerOf(s.owner, m) == at && LoopAround(s.w, m, id) && id in Ids(s.w.nodes)
    ensures OwnerOf(s.owner, id) != at
  {
    assert Owned(s.w, id);
    if OwnerOf(s.owner, id) == at {
      assert IsOwner(s.w, id, at.value);
      OwnerIsLarger(s, order, m);
    }
  }

  /** What feeds a listed node is listed too, or nothing of the list writes it. */
  lemma FeederPlace(s: Setup, order: seq<NodeInstance>, at: Option<NodeId>, n: NodeInstance, c: Connection)
    requires Planned(s, order) && IsPlace(s, at) && n in ListAt(s, order, at) && c in s.Links() && c.toNode == n.id
    ensures OwnerOf(s.owner, c.fromNode) == at || c.fromNode !in Under(s, at)
  {
    if OwnerOf(s.owner, c.fromNode) != at && c.fromNode in Under(s, at) {
      var j := BranchIndex(s, order, at, c.fromNode);
      var m := ListAt(s, order, at)[j];
      Listing(s, order, at, m);
      Listing(s, order, at, n);
      var p :| Climbs(s.owner, p) && p[0] == c.fromNode && p[|p| - 1] == m.id;
      ClimbInBody(s, order, p);
      LinkEnds(s, c);
      BodyIsClosed(s.w, order, m.id, c);
      assert LoopAround(s.w, m.id, n.id);
      NotBeside(s, order, at, m.id, n.id);
    }
  }

  lemma OuterSettled(s: Setup, order: seq<NodeInstance>, at: Option<NodeId>, a: Log, k: nat, x: NodeId)
    requires IsRun(s, order, at, a) && k < |a.turns| && x !in Under(s, at)
    ensures SameEntries(a.turns[k].before, a.end, x)
  {
    OuterKept(s, order, at, a, k, x);
    OuterKept(s, order, at, a, |a.turns|, x);
    TurnFacts(s, order, at, a, k);
    RunEnd(s, order, at, a);
  }

  /** What feeds a node is in its turn what it is at the end of the list's run. */
  lemma FeederSettled(s: Setup, order: seq<NodeInstance>, at: Option<NodeId>, a: Log, k: nat, c: Connection)
    requires IsRun(s, order, at, a) && k < |a.turns| && a.turns[k].index < |ListAt(s, order, at)|
    requires c in s.Links() && c.toNode == NodeAt(s, order, at, a, k).id
    ensures SameEntries(a.turns[k].before, a.end, c.fromNode)
  {
    FeederPlace(s, order, at, NodeAt(s, order, at, a, k), c);
    if OwnerOf(s.owner, c.fromNode) == at {
      ListedFeederSettled(s, order, at, a, k, c);
    } else {
      OuterSettled(s, order, at, a, k, c.fromNode);
    }
  }

  lemma ListedFeederSettled(s: Setup, order: seq<NodeInstance>, at: Option<NodeId>, a: Log, k: nat, c: Connection)
    requires IsRun(s, order, at, a) && k < |a.turns| && a.turns[k].index < |ListAt(s, order, at)|
    requires c in s.Links() && c.toNode == NodeAt(s, order, at, a, k).id && OwnerOf(s.owner, c.fromNode) == at
    ensures SameEntries(a.turns[k].before, a.end, c.fromNode)
  {
    var list := ListAt(s, order, at);
    var j := FeederListed(s, order, at, c, a.turns[k].index);
    RunIsRuns(s, order, at, a);
    RunParts(s, order, at, a);
    var m := FeederSeen(s, order, list, ScopeAt(s, at), DepthAt(s, at), a.start, a.turns, k, j);
    TurnStands(s, order, list, ScopeAt(s, at), DepthAt(s, at), a.start, a.turns, m, |a.turns|);
  }

  /** In every run of the top level and in every pass over a body, settled or not, a node did in its turn what it does
      on what everything that feeds it has sent at the end, and its own entries are those its turn left. */
  lemma {:induction false} ListSettles(s: Setup, order: seq<NodeInstance>, at: Option<NodeId>, a: Log, k: nat)
    requires IsRun(s, order, at, a) && k < |a.turns|
    ensures a.turns[k].index < |ListAt(s, order, at)|
    ensures var n := NodeAt(s, order, at, a, k);
            NodeOutcome(s, a.turns[k].before, n) == NodeOutcome(s, a.end, n) &&
              SameEntries(a.turns[k].after, a.end, n.id)
  {
    TurnFacts(s, order, at, a, k);
    var n := NodeAt(s, order, at, a, k);
    forall c | c in s.Links() && c.toNode == n.id ensures SameEntries(a.turns[k].before, a.end, c.fromNode) {
      FeederSettled(s, order, at, a, k, c);
    }
    OutcomeLocal(s, a.turns[k].before, a.end, n);
    InOwnTree(s, n.id);
    OwnAfter(s, order, at, a, k, |a.turns|, n.id);
    RunEnd(s, order, at, a);
  }
}
