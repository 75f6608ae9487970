/** `Run::run_graph` (src/engine.rs) on a workflow without loops, as a step system: nodes whose upstream has
    finished start, and the running ones advance in any interleaving. Every interleaving ends as running
    the nodes one by one does. */
module RunGraph {

  import opened Workflows
  import opened Reachability
  import opened NodeRuns

  /** How far a started node has come: it reads its inputs and runs, then stores its error items and its
      record, then stores its output and finishes. */
  datatype Phase = Waiting | Ran(o: Outcome) | Reported(o: Outcome)

  datatype Status = Going | Succeeded | Broken

  /** Nodes are named by their index in the list. */
  datatype Config = Config(
    st: RunState, running: map<nat, Phase>, finished: set<nat>, records: map<NodeId, NodeRun>, status: Status)

  const INITIAL := Config(NOTHING, map[], {}, map[], Going)

  /** The nodes of the list that feed node `i` (`deps`). */
  function Deps(s: Setup, list: seq<NodeInstance>, i: nat): set<nat>
    requires i < |list|
  {
    set j | 0 <= j < |list| && list[j].id != list[i].id && Linked(s.Links(), list[j].id, list[i].id)
  }

  predicate Ready(s: Setup, list: seq<NodeInstance>, k: Config, i: nat) {
    i < |list| && i !in k.running && i !in k.finished && Deps(s, list, i) <= k.finished
  }

  // ---- Steps ----------------------------------------------------------------------------------------------------

  ghost predicate Start(s: Setup, list: seq<NodeInstance>, k: Config, k': Config, i: nat) {
    Ready(s, list, k, i) && k' == k.(running := k.running[i := Waiting])
  }

  /** The node reads what arrived and runs; a failure ends the whole run. */
  ghost predicate RunNode(s: Setup, list: seq<NodeInstance>, k: Config, k': Config, i: nat) {
    && i in k.running && i < |list| && k.running[i].Waiting?
    && var o := NodeOutcome(s, k.st, list[i]);
       if o.Stores? then k' == k.(running := k.running[i := Ran(o)]) else k' == k.(status := Broken)
  }

  ghost predicate Report(prints: map<NodeId, string>, list: seq<NodeInstance>, k: Config, k': Config, i: nat) {
    && i in k.running && i < |list| && k.running[i].Ran? && k.running[i].o.Stores?
    && var o := k.running[i].o;
       k' == k.(st := StoreErrors(k.st, list[i].id, o),
                records := k.records[list[i].id := Record(o, PrintOf(prints, list[i].id))],
                running := k.running[i := Reported(o)])
  }

  function PrintOf(prints: map<NodeId, string>, id: NodeId): Option<string> {
    if id in prints then Some(prints[id]) else None
  }

  ghost predicate Finish(list: seq<NodeInstance>, k: Config, k': Config, i: nat) {
    && i in k.running && i < |list| && k.running[i].Reported? && k.running[i].o.Stores?
    && k' == k.(st := StoreOutput(k.st, list[i].id, k.running[i].o),
                running := k.running - {i},
                finished := k.finished + {i})
  }

  /** Nothing runs and nothing can start: the loop breaks out. */
  ghost predicate BreakOut(s: Setup, list: seq<NodeInstance>, k: Config, k': Config) {
    && k.running == map[]
    && (forall i :: !Ready(s, list, k, i))
    && k' == k.(status := Succeeded)
  }

  ghost predicate Step(s: Setup, prints: map<NodeId, string>, list: seq<NodeInstance>, k: Config, k': Config, i: nat) {
    || Start(s, list, k, k', i)
    || RunNode(s, list, k, k', i)
    || Report(prints, list, k, k', i)
    || Finish(list, k, k', i)
    || BreakOut(s, list, k, k')
  }

  ghost predicate Next(s: Setup, prints: map<NodeId, string>, list: seq<NodeInstance>, k: Config, k': Config) {
    k.status == Going && exists i: nat :: Step(s, prints, list, k, k', i)
  }

  ghost predicate Stuck(s: Setup, prints: map<NodeId, string>, list: seq<NodeInstance>, k: Config) {
    forall k' :: !Next(s, prints, list, k, k')
  }

  ghost predicate Trace(s: Setup, prints: map<NodeId, string>, list: seq<NodeInstance>, t: seq<Config>) {
    && |t| > 0
    && t[0] == INITIAL
    && forall m, n :: 0 <= m < n == m + 1 < |t| ==> Next(s, prints, list, t[m], t[n])
  }

  // ---- Running the nodes one by one -----------------------------------------------------------------------------

  datatype RunResult = Completed(st: RunState) | RunFailed

  /** The first `n` nodes, in order; the first to fail fails the run. */
  function InOrder(s: Setup, list: seq<NodeInstance>, n: nat): RunResult
    requires n <= |list|
  {
    if n == 0 then Completed(NOTHING)
    else
      match InOrder(s, list, n - 1)
      case RunFailed => RunFailed
      case Completed(st) =>
        var o := NodeOutcome(s, st, list[n - 1]);
        if o.Stores? then Completed(Store(st, list[n - 1].id, o)) else RunFailed
  }

  /** The list holds every node of a loop-free workflow, left to right. */
  ghost predicate Runnable(s: Setup, list: seq<NodeInstance>) {
    DistinctIds(list) && (forall n :: n in list ==> !IsLoop(n)) && Forwards(s.Links(), list)
  }

  /** As `InOrder`, but a node that fails is passed over: what each node would find upstream. */
  ghost function Reference(s: Setup, list: seq<NodeInstance>, n: nat): RunState
    requires n <= |list|
  {
    if n == 0 then NOTHING
    else
      var st := Reference(s, list, n - 1);
      var o := NodeOutcome(s, st, list[n - 1]);
      if o.Stores? then Store(st, list[n - 1].id, o) else st
  }

  ghost function Expected(s: Setup, list: seq<NodeInstance>, i: nat): Outcome
    requires i < |list|
  {
    NodeOutcome(s, Reference(s, list, i), list[i])
  }

  lemma {:induction false} ReferenceKeeps(s: Setup, list: seq<NodeInstance>, i: nat, n: nat)
    requires DistinctIds(list) && i < n <= |list|
    ensures SameEntries(Reference(s, list, n), Reference(s, list, i + 1), list[i].id)
  {
    if n > i + 1 {
      ReferenceKeeps(s, list, i, n - 1);
      assert list[n - 1].id != list[i].id;
    }
  }

  lemma {:induction false} ReferenceSkips(s: Setup, list: seq<NodeInstance>, n: nat, id: NodeId)
    requires n <= |list| && forall j :: 0 <= j < n ==> list[j].id != id
    ensures SameEntries(Reference(s, list, n), NOTHING, id)
  {
    if n > 0 {
      ReferenceSkips(s, list, n - 1, id);
    }
  }

  /** What the reference holds of one node is what that node's outcome stores. */
  lemma {:induction false} ReferenceEntries(s: Setup, list: seq<NodeInstance>, i: nat)
    requires DistinctIds(list) && i < |list|
    ensures Expected(s, list, i).Stores? ==>
      SameEntries(Reference(s, list, i + 1), Store(NOTHING, list[i].id, Expected(s, list, i)), list[i].id)
    ensures !Expected(s, list, i).Stores? ==> SameEntries(Reference(s, list, i + 1), NOTHING, list[i].id)
  {
    ReferenceSkips(s, list, i, list[i].id);
  }

  /** None of the first `n` nodes fails. */
  ghost predicate AllStore(s: Setup, list: seq<NodeInstance>, n: nat)
    requires n <= |list|
  {
    forall i :: 0 <= i < n ==> Expected(s, list, i).Stores?
  }

  lemma OneMoreStores(s: Setup, list: seq<NodeInstance>, n: nat)
    requires n < |list|
    ensures AllStore(s, list, n + 1) <==> AllStore(s, list, n) && Expected(s, list, n).Stores?
  {
  }

  /** Running in order succeeds exactly when no node would fail, and then ends in the reference. */
  lemma {:induction false} InOrderIsReference(s: Setup, list: seq<NodeInstance>, n: nat)
    requires n <= |list|
    ensures InOrder(s, list, n) == if AllStore(s, list, n) then Completed(Reference(s, list, n)) else RunFailed
  {
    if n > 0 {
      InOrderIsReference(s, list, n - 1);
      OneMoreStores(s, list, n - 1);
    }
  }

  // ---- The invariant of every interleaving ----------------------------------------------------------------------

  ghost predicate Faithful(s: Setup, list: seq<NodeInstance>, k: Config, i: nat)
    requires i < |list|
  {
    Expected(s, list, i).Stores? && SameEntries(k.st, Store(NOTHING, list[i].id, Expected(s, list, i)), list[i].id)
  }

  ghost predicate ErrorsFaithful(s: Setup, list: seq<NodeInstance>, k: Config, i: nat)
    requires i < |list|
  {
    && Expected(s, list, i).Stores?
    && SameEntries(k.st, StoreErrors(NOTHING, list[i].id, Expected(s, list, i)), list[i].id)
  }

  ghost predicate NodeInv(s: Setup, list: seq<NodeInstance>, k: Config, i: nat)
    requires i < |list|
  {
    if i in k.finished then
      i !in k.running && Deps(s, list, i) <= k.finished && Faithful(s, list, k, i)
    else if i in k.running then
      && Deps(s, list, i) <= k.finished
      && match k.running[i]
         case Waiting => SameEntries(k.st, NOTHING, list[i].id)
         case Ran(o) => o == Expected(s, list, i) && o.Stores? && SameEntries(k.st, NOTHING, list[i].id)
         case Reported(o) => o == Expected(s, list, i) && ErrorsFaithful(s, list, k, i)
    else SameEntries(k.st, NOTHING, list[i].id)
  }

  ghost predicate RecordInv(s: Setup, prints: map<NodeId, string>, list: seq<NodeInstance>, k: Config) {
    forall id :: id in k.records ==>
      exists i :: 0 <= i < |list| && list[i].id == id && Recorded(s, prints, list, k, i)
  }

  ghost predicate Recorded(s: Setup, prints: map<NodeId, string>, list: seq<NodeInstance>, k: Config, i: nat)
    requires i < |list|
  {
    && list[i].id in k.records
    && Deps(s, list, i) <= k.finished
    && Expected(s, list, i).Stores?
    && k.records[list[i].id] == Record(Expected(s, list, i), PrintOf(prints, list[i].id))
  }

  ghost predicate OnlyListed(list: seq<NodeInstance>, st: RunState) {
    && st.produced.Keys <= Ids(list)
    && st.errorProduced.Keys <= Ids(list)
    && st.reused <= Ids(list)
  }

  ghost predicate Inv(s: Setup, prints: map<NodeId, string>, list: seq<NodeInstance>, k: Config) {
    && (forall i :: i in k.finished || i in k.running ==> i < |list|)
    && (forall i :: 0 <= i < |list| ==> NodeInv(s, list, k, i))
    && OnlyListed(list, k.st)
    && RecordInv(s, prints, list, k)
    && (k.status == Broken ==> exists i :: 0 <= i < |list| && !Expected(s, list, i).Stores?)
    && (k.status == Succeeded ==> forall i :: 0 <= i < |list| ==> i in k.finished)
  }

  /** A node whose upstream has finished reads exactly what it would when run in order. */
  lemma ReadsAsInOrder(s: Setup, prints: map<NodeId, string>, list: seq<NodeInstance>, k: Config, i: nat)
    requires Runnable(s, list) && Inv(s, prints, list, k) && i < |list| && Deps(s, list, i) <= k.finished
    ensures NodeOutcome(s, k.st, list[i]) == Expected(s, list, i)
  {
    forall c | c in s.Links() && c.toNode == list[i].id ensures SameEntries(k.st, Reference(s, list, i), c.fromNode) {
      var j := EarlierFeeder(s.Links(), list, c, i);
      assert j in Deps(s, list, i);
      assert NodeInv(s, list, k, j);
      ReferenceEntries(s, list, j);
      ReferenceKeeps(s, list, j, i);
    }
    OutcomeLocal(s, k.st, Reference(s, list, i), list[i]);
  }

  lemma Untouched(s: Setup, list: seq<NodeInstance>, k: Config, k': Config, j: nat)
    requires j < |list| && NodeInv(s, list, k, j)
    requires SameEntries(k.st, k'.st, list[j].id)
    requires k.finished <= k'.finished
    requires j in k.finished <==> j in k'.finished
    requires j in k.running <==> j in k'.running
    requires j in k.running ==> k.running[j] == k'.running[j]
    ensures NodeInv(s, list, k', j)
  {
  }

  lemma StartKeeps(s: Setup, prints: map<NodeId, string>, list: seq<NodeInstance>, k: Config, k': Config, i: nat)
    requires Inv(s, prints, list, k) && Start(s, list, k, k', i) && k.status == Going
    ensures Inv(s, prints, list, k')
  {
    forall j | 0 <= j < |list| ensures NodeInv(s, list, k', j) {
      assert NodeInv(s, list, k, j);
      if j != i { Untouched(s, list, k, k', j); }
    }
    RecordsKept(s, prints, list, k, k');
  }

  lemma RecordsKept(s: Setup, prints: map<NodeId, string>, list: seq<NodeInstance>, k: Config, k': Config)
    requires RecordInv(s, prints, list, k) && k'.records == k.records && k.finished <= k'.finished
    ensures RecordInv(s, prints, list, k')
  {
    forall id | id in k'.records
      ensures exists i :: 0 <= i < |list| && list[i].id == id && Recorded(s, prints, list, k', i)
    {
      var i :| 0 <= i < |list| && list[i].id == id && Recorded(s, prints, list, k, i);
      assert Recorded(s, prints, list, k', i);
    }
  }

  lemma RunNodeKeeps(s: Setup, prints: map<NodeId, string>, list: seq<NodeInstance>, k: Config, k': Config, i: nat)
    requires Runnable(s, list) && Inv(s, prints, list, k) && RunNode(s, list, k, k', i) && k.status == Going
    ensures Inv(s, prints, list, k')
  {
    assert NodeInv(s, list, k, i);
    ReadsAsInOrder(s, prints, list, k, i);
    forall j | 0 <= j < |list| ensures NodeInv(s, list, k', j) {
      assert NodeInv(s, list, k, j);
      if j != i { Untouched(s, list, k, k', j); }
    }
    RecordsKept(s, prints, list, k, k');
  }

  lemma ReportKeeps(s: Setup, prints: map<NodeId, string>, list: seq<NodeInstance>, k: Config, k': Config, i: nat)
    requires Runnable(s, list) && Inv(s, prints, list, k) && Report(prints, list, k, k', i) && k.status == Going
    ensures Inv(s, prints, list, k')
  {
    assert NodeInv(s, list, k, i);
    forall j | 0 <= j < |list| ensures NodeInv(s, list, k', j) {
      assert NodeInv(s, list, k, j);
      if j != i {
        assert list[j].id != list[i].id;
        Untouched(s, list, k, k', j);
      }
    }
    assert list[i].id in Ids(list);
    forall id | id in k'.records
      ensures exists j :: 0 <= j < |list| && list[j].id == id && Recorded(s, prints, list, k', j)
    {
      if id == list[i].id {
        assert Recorded(s, prints, list, k', i);
      } else {
        var j :| 0 <= j < |list| && list[j].id == id && Recorded(s, prints, list, k, j);
        assert Recorded(s, prints, list, k', j);
      }
    }
  }

  lemma FinishKeeps(s: Setup, prints: map<NodeId, string>, list: seq<NodeInstance>, k: Config, k': Config, i: nat)
    requires Runnable(s, list) && Inv(s, prints, list, k) && Finish(list, k, k', i) && k.status == Going
    ensures Inv(s, prints, list, k')
  {
    assert NodeInv(s, list, k, i);
    forall j | 0 <= j < |list| ensures NodeInv(s, list, k', j) {
      assert NodeInv(s, list, k, j);
      if j != i {
        assert list[j].id != list[i].id;
        Untouched(s, list, k, k', j);
      }
    }
    assert list[i].id in Ids(list);
    RecordsKept(s, prints, list, k, k');
  }

  /** The break comes only when every node has finished. */
  lemma NoStall(s: Setup, prints: map<NodeId, string>, list: seq<NodeInstance>, k: Config)
    requires Runnable(s, list) && Inv(s, prints, list, k)
    requires k.running == map[] && forall i :: !Ready(s, list, k, i)
    ensures forall i :: 0 <= i < |list| ==> i in k.finished
  {
    AllFinishedUpTo(s, list, k, |list|);
  }

  lemma {:induction false} AllFinishedUpTo(s: Setup, list: seq<NodeInstance>, k: Config, n: nat)
    requires Runnable(s, list) && n <= |list|
    requires k.running == map[] && forall i :: !Ready(s, list, k, i)
    ensures forall i :: 0 <= i < n ==> i in k.finished
  {
    if n > 0 {
      AllFinishedUpTo(s, list, k, n - 1);
      var i := n - 1;
      forall j | j in Deps(s, list, i) ensures j in k.finished {
        var c :| c in s.Links() && c.fromNode == list[j].id && c.toNode == list[i].id;
        var j' := EarlierFeeder(s.Links(), list, c, i);
        assert j == j';
      }
      assert !Ready(s, list, k, i);
    }
  }

  lemma StepKeeps(s: Setup, prints: map<NodeId, string>, list: seq<NodeInstance>, k: Config, k': Config)
    requires Runnable(s, list) && Inv(s, prints, list, k) && Next(s, prints, list, k, k')
    ensures Inv(s, prints, list, k')
  {
    var i :| Step(s, prints, list, k, k', i);
    if Start(s, list, k, k', i) {
      StartKeeps(s, prints, list, k, k', i);
    } else if RunNode(s, list, k, k', i) {
      RunNodeKeeps(s, prints, list, k, k', i);
    } else if Report(prints, list, k, k', i) {
      ReportKeeps(s, prints, list, k, k', i);
    } else if Finish(list, k, k', i) {
      FinishKeeps(s, prints, list, k, k', i);
    } else {
      NoStall(s, prints, list, k);
      forall j | 0 <= j < |list| ensures NodeInv(s, list, k', j) {
        assert NodeInv(s, list, k, j);
        Untouched(s, list, k, k', j);
      }
      RecordsKept(s, prints, list, k, k');
    }
  }

  // ---- Results over whole runs ----------------------------------------------------------------------------------

  lemma InitialInv(s: Setup, prints: map<NodeId, string>, list: seq<NodeInstance>)
    ensures Inv(s, prints, list, INITIAL)
  {
  }

  lemma {:induction false} TraceInv(s: Setup, prints: map<NodeId, string>, list: seq<NodeInstance>, t: seq<Config>,
      n: nat)
    requires Runnable(s, list) && Trace(s, prints, list, t) && n < |t|
    ensures Inv(s, prints, list, t[n])
  {
    if n == 0 {
      InitialInv(s, prints, list);
    } else {
      TraceInv(s, prints, list, t, n - 1);
      StepKeeps(s, prints, list, t[n - 1], t[n]);
    }
  }

  /** Confluence: however the nodes interleave, a run that is over succeeded exactly when running them in
      order does, and then left exactly what running them in order leaves. */
  lemma {:induction false} EveryInterleavingAgrees(s: Setup, prints: map<NodeId, string>, list: seq<NodeInstance>,
      t: seq<Config>)
    requires Runnable(s, list) && Trace(s, prints, list, t)
    ensures var end := t[|t| - 1];
            var inOrder := InOrder(s, list, |list|);
            && (end.status == Succeeded ==> inOrder == Completed(end.st))
            && (end.status == Broken ==> inOrder == RunFailed)
  {
    var end := t[|t| - 1];
    TraceInv(s, prints, list, t, |t| - 1);
    InOrderIsReference(s, list, |list|);
    if end.status == Succeeded {
      SucceededAgrees(s, prints, list, end);
    }
  }

  lemma {:induction false} FinishedAgrees(s: Setup, prints: map<NodeId, string>, list: seq<NodeInstance>, k: Config,
      id: NodeId)
    requires Runnable(s, list) && Inv(s, prints, list, k) && k.status == Succeeded
    ensures SameEntries(k.st, Reference(s, list, |list|), id)
  {
    if i :| 0 <= i < |list| && list[i].id == id {
      assert NodeInv(s, list, k, i);
      ReferenceEntries(s, list, i);
      ReferenceKeeps(s, list, i, |list|);
    } else {
      assert id !in Ids(list);
      ReferenceSkips(s, list, |list|, id);
    }
  }

  lemma SameEverywhere(a: RunState, b: RunState)
    requires forall id :: SameEntries(a, b, id)
    ensures a == b
  {
    forall id ensures (id in a.produced <==> id in b.produced) &&
      (id in a.produced ==> a.produced[id] == b.produced[id])
                   && (id in a.reused <==> id in b.reused)
    {
      assert SameEntries(a, b, id);
    }
    forall id ensures (id in a.errorProduced <==> id in b.errorProduced)
                   && (id in a.errorProduced ==> a.errorProduced[id] == b.errorProduced[id])
    {
      assert SameEntries(a, b, id);
    }
    assert a.produced == b.produced;
    assert a.errorProduced == b.errorProduced;
  }

  lemma RunningAdvances(s: Setup, prints: map<NodeId, string>, list: seq<NodeInstance>, k: Config, i: nat)
    returns (k': Config)
    requires Inv(s, prints, list, k) && i in k.running
    ensures Step(s, prints, list, k, k', i)
  {
    assert NodeInv(s, list, k, i);
    match k.running[i]
    case Waiting =>
      var o := NodeOutcome(s, k.st, list[i]);
      k' := if o.Stores? then k.(running := k.running[i := Ran(o)]) else k.(status := Broken);
    case Ran(r) =>
      k' := k.(st := StoreErrors(k.st, list[i].id, r),
               records := k.records[list[i].id := Record(r, PrintOf(prints, list[i].id))],
               running := k.running[i := Reported(r)]);
    case Reported(r) =>
      k' := k.(st := StoreOutput(k.st, list[i].id, r), running := k.running - {i}, finished := k.finished + {i});
  }

  /** A run that is not over can always take a step. */
  lemma CanStep(s: Setup, prints: map<NodeId, string>, list: seq<NodeInstance>, k: Config) returns (k': Config)
    requires Runnable(s, list) && Inv(s, prints, list, k) && k.status == Going
    ensures Next(s, prints, list, k, k')
  {
    ghost var i: nat := 0;
    if running: nat :| running in k.running {
      i := running;
      k' := RunningAdvances(s, prints, list, k, i);
    } else if ready: nat :| Ready(s, list, k, ready) {
      i := ready;
      k' := k.(running := k.running[i := Waiting]);
      assert Start(s, list, k, k', i);
    } else {
      assert k.running == map[];
      k' := k.(status := Succeeded);
      assert BreakOut(s, list, k, k');
    }
    assert Step(s, prints, list, k, k', i);
  }

  /** What is left to do: three steps a node, and the break. */
  ghost function Left(list: seq<NodeInstance>, k: Config): nat {
    (if k.status == Going then 1 else 0) + LeftOf(list, k, |list|)
  }

  ghost function LeftOf(list: seq<NodeInstance>, k: Config, n: nat): nat {
    if n == 0 then 0
    else LeftOf(list, k, n - 1) + NodeLeft(k, n - 1)
  }

  ghost function NodeLeft(k: Config, i: nat): nat {
    if i in k.finished then 0
    else if i !in k.running then 4
    else match k.running[i]
         case Waiting => 3
         case Ran(_) => 2
         case Reported(_) => 1
  }

  lemma {:induction false} LeftDrops(list: seq<NodeInstance>, k: Config, k': Config, i: nat, n: nat)
    requires forall j :: 0 <= j < n && j != i ==> NodeLeft(k, j) == NodeLeft(k', j)
    requires NodeLeft(k', i) < NodeLeft(k, i)
    ensures i < n ==> LeftOf(list, k', n) < LeftOf(list, k, n)
    ensures i >= n ==> LeftOf(list, k', n) == LeftOf(list, k, n)
  {
    if n > 0 {
      LeftDrops(list, k, k', i, n - 1);
    }
  }

  lemma {:induction false} LeftSame(list: seq<NodeInstance>, k: Config, k': Config, n: nat)
    requires k.finished == k'.finished && k.running == k'.running
    ensures LeftOf(list, k', n) == LeftOf(list, k, n)
  {
    if n > 0 {
      LeftSame(list, k, k', n - 1);
    }
  }

  lemma StepLeavesLess(s: Setup, prints: map<NodeId, string>, list: seq<NodeInstance>, k: Config, k': Config, i: nat)
    requires i < |list| && (i in k.running ==> i !in k.finished)
    requires Step(s, prints, list, k, k', i) && k.status == k'.status == Going
    ensures NodeLeft(k', i) < NodeLeft(k, i)
    ensures forall j: nat :: j != i ==> NodeLeft(k, j) == NodeLeft(k', j)
  {
  }

  /** Every step leaves less to do, so every run ends. */
  lemma StepsRunOut(s: Setup, prints: map<NodeId, string>, list: seq<NodeInstance>, k: Config, k': Config)
    requires Inv(s, prints, list, k) && Next(s, prints, list, k, k')
    ensures Left(list, k') < Left(list, k)
  {
    var i: nat :| Step(s, prints, list, k, k', i);
    if k'.status == Going {
      assert i < |list|;
      assert i in k.running ==> i !in k.finished by { assert NodeInv(s, list, k, i); }
      StepLeavesLess(s, prints, list, k, k', i);
      LeftDrops(list, k, k', i, |list|);
    } else {
      LeftSame(list, k, k', |list|);
    }
  }

  lemma LessLeft(s: Setup, prints: map<NodeId, string>, list: seq<NodeInstance>, t: seq<Config>, n: nat)
    requires Runnable(s, list) && Trace(s, prints, list, t) && 0 < n < |t|
    ensures Left(list, t[n]) < Left(list, t[n - 1])
  {
    TraceInv(s, prints, list, t, n - 1);
    StepsRunOut(s, prints, list, t[n - 1], t[n]);
  }

  lemma {:induction false} TraceIsShort(s: Setup, prints: map<NodeId, string>, list: seq<NodeInstance>,
      t: seq<Config>, n: nat)
    requires Runnable(s, list) && Trace(s, prints, list, t) && n < |t|
    ensures n + Left(list, t[n]) <= 4 * |list| + 1
  {
    if n == 0 {
      AllLeft(list, |list|);
    } else {
      TraceIsShort(s, prints, list, t, n - 1);
      LessLeft(s, prints, list, t, n);
    }
  }

  lemma {:induction false} AllLeft(list: seq<NodeInstance>, n: nat)
    ensures LeftOf(list, INITIAL, n) == 4 * n
  {
    if n > 0 {
      AllLeft(list, n - 1);
    }
  }

  /** A run takes at most four steps a node and one more; one that cannot go on is over. */
  lemma RunsEnd(s: Setup, prints: map<NodeId, string>, list: seq<NodeInstance>, t: seq<Config>)
    requires Runnable(s, list) && Trace(s, prints, list, t)
    ensures |t| <= 4 * |list| + 2
    ensures Stuck(s, prints, list, t[|t| - 1]) ==> t[|t| - 1].status != Going
  {
    TraceIsShort(s, prints, list, t, |t| - 1);
    TraceInv(s, prints, list, t, |t| - 1);
    if t[|t| - 1].status == Going {
      var k' := CanStep(s, prints, list, t[|t| - 1]);
    }
  }

  // ---- One turn at a time ---------------------------------------------------------------------------------------

  /** Between two turns: nothing runs, these nodes have finished. */
  function Between(st: RunState, finished: set<nat>): Config {
    Config(st, map[], finished, map[], Going)
  }

  lemma RecordsDontMatter(s: Setup, prints: map<NodeId, string>, list: seq<NodeInstance>, k: Config)
    requires Inv(s, prints, list, k)
    ensures Inv(s, prints, list, k.(records := map[]))
  {
    var k' := k.(records := map[]);
    forall i | 0 <= i < |list| ensures NodeInv(s, list, k', i) {
      assert NodeInv(s, list, k, i);
      Untouched(s, list, k, k', i);
    }
  }

  lemma NodeStarted(s: Setup, prints: map<NodeId, string>, list: seq<NodeInstance>, st: RunState, finished: set<nat>,
      i: nat)
    returns (k: Config)
    requires Runnable(s, list) && Inv(s, prints, list, Between(st, finished))
    requires i < |list| && i !in finished && Deps(s, list, i) <= finished
    ensures NodeOutcome(s, st, list[i]) == Expected(s, list, i)
    ensures Expected(s, list, i).Stores? ==> Inv(s, prints, list, k)
    ensures k == Between(st, finished).(running := map[i := Ran(Expected(s, list, i))])
  {
    var o := Expected(s, list, i);
    ReadsAsInOrder(s, prints, list, Between(st, finished), i);
    var k1 := Between(st, finished).(running := map[i := Waiting]);
    StartKeeps(s, prints, list, Between(st, finished), k1, i);
    k := Between(st, finished).(running := map[i := Ran(o)]);
    if o.Stores? {
      assert k1.running[i := Ran(o)] == map[i := Ran(o)];
      RunNodeKeeps(s, prints, list, k1, k, i);
    }
  }

  /** A whole turn of a node whose upstream has finished does what its turn in order does. */
  lemma OneTurn(s: Setup, prints: map<NodeId, string>, list: seq<NodeInstance>, st: RunState, finished: set<nat>,
      i: nat)
    requires Runnable(s, list) && Inv(s, prints, list, Between(st, finished))
    requires i < |list| && i !in finished && Deps(s, list, i) <= finished
    ensures NodeOutcome(s, st, list[i]) == Expected(s, list, i)
    ensures var o := Expected(s, list, i);
            o.Stores? ==> Inv(s, prints, list, Between(Store(st, list[i].id, o), finished + {i}))
  {
    var o, id := Expected(s, list, i), list[i].id;
    var k := NodeStarted(s, prints, list, st, finished, i);
    if o.Stores? {
      var reported := Config(StoreErrors(st, id, o), map[i := Reported(o)], finished,
        map[id := Record(o, PrintOf(prints, id))], Going);
      assert k.records[id := Record(o, PrintOf(prints, id))] == reported.records;
      assert k.running[i := Reported(o)] == reported.running;
      ReportKeeps(s, prints, list, k, reported, i);
      var done := reported.(st := Store(st, id, o), running := map[], finished := finished + {i});
      assert reported.running - {i} == map[];
      FinishKeeps(s, prints, list, reported, done, i);
      RecordsDontMatter(s, prints, list, done);
    }
  }

  /** Turns one at a time, in any order the links allow, end as running in order does. */
  lemma {:induction false} TurnsEnd(s: Setup, prints: map<NodeId, string>, list: seq<NodeInstance>, st: RunState,
      finished: set<nat>)
    requires Runnable(s, list) && Inv(s, prints, list, Between(st, finished))
    requires forall i :: 0 <= i < |list| ==> i in finished
    ensures InOrder(s, list, |list|) == Completed(st)
  {
    var k, end := Between(st, finished), Between(st, finished).(status := Succeeded);
    assert BreakOut(s, list, k, end);
    assert Step(s, prints, list, k, end, 0);
    StepKeeps(s, prints, list, k, end);
    SucceededAgrees(s, prints, list, end);
  }

  lemma {:induction false} SucceededAgrees(s: Setup, prints: map<NodeId, string>, list: seq<NodeInstance>, end: Config)
    requires Runnable(s, list) && Inv(s, prints, list, end) && end.status == Succeeded
    ensures InOrder(s, list, |list|) == Completed(end.st)
  {
    InOrderIsReference(s, list, |list|);
    forall i | 0 <= i < |list| ensures Expected(s, list, i).Stores? { assert NodeInv(s, list, end, i); }
    forall id ensures SameEntries(end.st, Reference(s, list, |list|), id) {
      FinishedAgrees(s, prints, list, end, id);
    }
    SameEverywhere(end.st, Reference(s, list, |list|));
  }
}
