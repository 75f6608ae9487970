/** Every run of single steps ends (src/engine.rs), loops included: whichever of the possible steps is taken, no run
    goes on for ever. */
module StepsEnd {

  import opened Workflows
  import opened LoopLayout
  import opened TopologicalOrder
  import opened NodeRuns
  import opened LoopBatches
  import opened RunLists
  import opened LoopTrees
  import opened RunsAgree
  import opened LoopSteps
  import opened StepsAgree
  import Steps = RunGraph

  // ---- Lists of numbers, the first ones counting most -----------------------------------------------------------

  ghost predicate LexLess(a: seq<nat>, b: seq<nat>) {
    |a| == |b| && exists c :: 0 <= c < |a| && LessAt(a, b, c)
  }

  ghost predicate LessAt(a: seq<nat>, b: seq<nat>, c: int)
    requires |a| == |b| && 0 <= c < |a|
  {
    a[c] < b[c] && forall d :: 0 <= d < c ==> a[d] == b[d]
  }

  ghost predicate Falling(v: nat -> seq<nat>) {
    forall i: nat, j: nat :: j == i + 1 ==> LexLess(v(j), v(i))
  }

  lemma LexTail(a: seq<nat>, b: seq<nat>)
    requires LexLess(a, b) && a != []
    ensures a[0] <= b[0] && (a[0] == b[0] ==> LexLess(a[1..], b[1..]))
  {
    var c :| 0 <= c < |a| && LessAt(a, b, c);
    if a[0] == b[0] { assert LessAt(a[1..], b[1..], c - 1); }
  }

  lemma {:induction false} FallingHead(v: nat -> seq<nat>, i: nat, j: nat)
    requires Falling(v) && v(0) != [] && i <= j
    ensures |v(i)| == |v(j)| == |v(0)| && v(j)[0] <= v(i)[0]
    decreases j
  {
    if j > 0 {
      FallingHead(v, if i < j then i else j - 1, j - 1);
      assert LexLess(v(j), v(j - 1));
      LexTail(v(j), v(j - 1));
    }
  }

  /** The first number comes to rest. */
  lemma {:induction false} HeadRests(v: nat -> seq<nat>, p: nat) returns (q: nat)
    requires Falling(v) && v(0) != [] && |v(p)| == |v(0)|
    ensures |v(q)| == |v(0)| && Rested(v, q)
    decreases v(p)[0]
  {
    if i: nat :| i >= p && |v(i)| == |v(0)| && v(i)[0] < v(p)[0] {
      q := HeadRests(v, i);
    } else {
      q := p;
      forall i: nat | i >= p ensures v(i) != [] && v(i)[0] == v(p)[0] { FallingHead(v, p, i); }
    }
  }

  function Rest(a: seq<nat>): seq<nat> {
    if a == [] then [] else a[1..]
  }

  /** From `q` on all first numbers are the same. */
  ghost predicate Rested(v: nat -> seq<nat>, q: nat) {
    v(q) != [] && forall i: nat :: i >= q ==> v(i) != [] && v(i)[0] == v(q)[0]
  }

  lemma RestFalls(v: nat -> seq<nat>, q: nat, i: nat, j: nat)
    requires Rested(v, q) && j == i + 1 && LexLess(v(q + j), v(q + i))
    ensures LexLess(Rest(v(q + j)), Rest(v(q + i)))
  {
    LexTail(v(q + j), v(q + i));
  }

  function Tails(v: nat -> seq<nat>, q: nat): nat -> seq<nat> {
    (i: nat) => Rest(v(q + i))
  }

  lemma {:induction false} TailsFall(v: nat -> seq<nat>, q: nat)
    requires Falling(v) && Rested(v, q)
    ensures Falling(Tails(v, q)) && |Tails(v, q)(0)| < |v(q)|
  {
    forall i: nat, j: nat | j == i + 1 ensures LexLess(Tails(v, q)(j), Tails(v, q)(i)) {
      assert LexLess(v(q + j), v(q + i));
      RestFalls(v, q, i, j);
    }
    assert Tails(v, q)(0) == Rest(v(q + 0)) == Rest(v(q));
  }

  /** No sequence of them falls for ever. */
  lemma {:induction false} NoneFalls(v: nat -> seq<nat>)
    ensures !Falling(v)
    decreases |v(0)|
  {
    if v(0) == [] {
      assert !LexLess(v(1), v(0));
    } else if Falling(v) {
      var q := HeadRests(v, 0);
      TailsFall(v, q);
      NoneFalls(Tails(v, q));
    }
  }

  // ---- How much is left to do -----------------------------------------------------------------------------------

  /** Before a node reads, what it will have to do is not known. */
  function Unread(task: Task): nat {
    match task case Idle => 2 case Begun => 1 case _ => 0
  }

  /** After that, at most so many steps of its own. */
  function Ahead(task: Task): nat {
    match task
    case Ran(_) => 2
    case Reported(_) => 1
    case Between(c) => 1 + 2 * |c.queue|
    case Inside(c) => 2 + 2 * |c.queue|
    case _ => 0
  }

  function Weight(task: Task, c: nat): nat {
    if c % 2 == 0 then Unread(task) else Ahead(task)
  }

  /** How deep a node's list lies: bodies lie deeper than their loops. */
  ghost function Level(s: Setup, id: NodeId): int {
    Height(s, OwnerOf(s.owner, id))
  }

  ghost function WeightAt(s: Setup, k: Config, n: NodeInstance, c: nat): nat {
    if Level(s, n.id) == c / 2 then Weight(TaskOf(k, n.id), c) else 0
  }

  ghost function Total(s: Setup, k: Config, nodes: seq<NodeInstance>, c: nat): nat {
    if nodes == [] then 0
    else Total(s, k, nodes[..|nodes| - 1], c) + WeightAt(s, k, nodes[|nodes| - 1], c)
  }

  /** Level by level what is unread and what is ahead: lists further out count more. */
  ghost function Measure(s: Setup, k: Config): seq<nat> {
    seq(2 * (|Ids(s.w.nodes)| + 2), c requires 0 <= c => Total(s, k, s.w.nodes, c))
  }

  lemma {:induction false} TotalSame(s: Setup, k: Config, k': Config, nodes: seq<NodeInstance>, c: nat)
    requires forall n :: n in nodes ==> WeightAt(s, k', n, c) == WeightAt(s, k, n, c)
    ensures Total(s, k', nodes, c) == Total(s, k, nodes, c)
  {
    if nodes != [] {
      assert nodes[|nodes| - 1] in nodes;
      TotalSame(s, k, k', nodes[..|nodes| - 1], c);
    }
  }

  lemma {:induction false} TotalNoMore(s: Setup, k: Config, k': Config, nodes: seq<NodeInstance>, c: nat)
    requires forall n :: n in nodes ==> WeightAt(s, k', n, c) <= WeightAt(s, k, n, c)
    ensures Total(s, k', nodes, c) <= Total(s, k, nodes, c)
  {
    if nodes != [] {
      assert nodes[|nodes| - 1] in nodes;
      TotalNoMore(s, k, k', nodes[..|nodes| - 1], c);
    }
  }

  lemma {:induction false} TotalLess(s: Setup, k: Config, k': Config, nodes: seq<NodeInstance>, c: nat, n: NodeInstance)
    requires forall m :: m in nodes ==> WeightAt(s, k', m, c) <= WeightAt(s, k, m, c)
    requires n in nodes && WeightAt(s, k', n, c) < WeightAt(s, k, n, c)
    ensures Total(s, k', nodes, c) < Total(s, k, nodes, c)
  {
    var front, last := nodes[..|nodes| - 1], nodes[|nodes| - 1];
    assert nodes == front + [last];
    if n in front {
      TotalLess(s, k, k', front, c, n);
    } else {
      TotalNoMore(s, k, k', front, c);
    }
  }

  // ---- Every step does some of it -------------------------------------------------------------------------------

  /** The number that falls with a node's step. */
  ghost function Place(s: Setup, k: Config, n: NodeInstance): int {
    2 * Level(s, n.id) + if Unread(TaskOf(k, n.id)) > 0 then 0 else 1
  }

  lemma OwnLess(s: Setup, order: seq<NodeInstance>, k: Config, k': Config, n: NodeInstance)
    requires NodeStep(s, order, k, k', n) && k'.status != Steps.Broken
    ensures Unread(TaskOf(k', n.id)) <= Unread(TaskOf(k, n.id))
    ensures if Unread(TaskOf(k, n.id)) > 0 then Unread(TaskOf(k', n.id)) < Unread(TaskOf(k, n.id))
            else Ahead(TaskOf(k', n.id)) < Ahead(TaskOf(k, n.id))
  {
    if BeginPass(s, order, k, k', n) {
      var queue, size := TaskOf(k, n.id).c.queue, BatchSize(n.parameters);
      assert |NextBatch(queue, size)| > 0;
    }
  }

  lemma LevelInRange(s: Setup, order: seq<NodeInstance>, n: NodeInstance)
    requires Planned(s, order) && n in s.w.nodes
    ensures 0 <= Level(s, n.id) <= |Ids(s.w.nodes)| + 1
  {
    Higher(s, order, n.id);
  }

  /** Lists further out, and the other nodes of its own list, a node's step leaves alone. */
  lemma OthersSame(s: Setup, order: seq<NodeInstance>, k: Config, k': Config, n: NodeInstance, m: NodeInstance)
    requires Planned(s, order) && n in s.w.nodes && m in s.w.nodes && m.id != n.id
    requires NodeStep(s, order, k, k', n) && k'.status != Steps.Broken && Level(s, m.id) <= Level(s, n.id)
    ensures TaskOf(k', m.id) == TaskOf(k, m.id)
  {
    if BeginPass(s, order, k, k', n) {
      OwnedIds(s, order, n, m.id);
      Higher(s, order, n.id);
      PassTasks(s, order, k, k', n, m.id);
    } else {
      StepMoves(s, order, k, k', n);
    }
  }

  lemma WeightsBefore(s: Setup, order: seq<NodeInstance>, k: Config, k': Config, n: NodeInstance, m: NodeInstance,
      d: nat)
    requires Planned(s, order) && n in s.w.nodes && m in s.w.nodes && NodeStep(s, order, k, k', n)
    requires k'.status != Steps.Broken && d <= Place(s, k, n)
    ensures WeightAt(s, k', m, d) <= WeightAt(s, k, m, d)
    ensures d < Place(s, k, n) || m.id != n.id ==> WeightAt(s, k', m, d) == WeightAt(s, k, m, d)
    ensures d == Place(s, k, n) && m.id == n.id ==> WeightAt(s, k', m, d) < WeightAt(s, k, m, d)
  {
    LevelInRange(s, order, n);
    OwnLess(s, order, k, k', n);
    if m.id != n.id && Level(s, m.id) == d / 2 { OthersSame(s, order, k, k', n, m); }
  }

  lemma {:induction false} TotalBefore(s: Setup, order: seq<NodeInstance>, k: Config, k': Config, n: NodeInstance,
      d: nat)
    requires Planned(s, order) && n in s.w.nodes && NodeStep(s, order, k, k', n) && k'.status != Steps.Broken
    requires d < Place(s, k, n)
    ensures Total(s, k', s.w.nodes, d) == Total(s, k, s.w.nodes, d)
  {
    forall m | m in s.w.nodes ensures WeightAt(s, k', m, d) == WeightAt(s, k, m, d) {
      WeightsBefore(s, order, k, k', n, m, d);
    }
    TotalSame(s, k, k', s.w.nodes, d);
  }

  lemma {:induction false} TotalThere(s: Setup, order: seq<NodeInstance>, k: Config, k': Config, n: NodeInstance,
      c: nat)
    requires Planned(s, order) && n in s.w.nodes && NodeStep(s, order, k, k', n) && k'.status != Steps.Broken
    requires c == Place(s, k, n)
    ensures Total(s, k', s.w.nodes, c) < Total(s, k, s.w.nodes, c)
  {
    forall m | m in s.w.nodes ensures WeightAt(s, k', m, c) <= WeightAt(s, k, m, c) {
      WeightsBefore(s, order, k, k', n, m, c);
    }
    WeightsBefore(s, order, k, k', n, n, c);
    TotalLess(s, k, k', s.w.nodes, c, n);
  }

  lemma {:induction false} MeasureLess(s: Setup, k: Config, k': Config, c: nat)
    requires c < 2 * (|Ids(s.w.nodes)| + 2) && Total(s, k', s.w.nodes, c) < Total(s, k, s.w.nodes, c)
    requires forall d: nat :: d < c ==> Total(s, k', s.w.nodes, d) == Total(s, k, s.w.nodes, d)
    ensures LexLess(Measure(s, k'), Measure(s, k))
  {
    assert LessAt(Measure(s, k'), Measure(s, k), c);
  }

  /** With every step less is left to do. */
  lemma {:induction false} StepLess(s: Setup, order: seq<NodeInstance>, k: Config, k': Config, n: NodeInstance)
    requires Planned(s, order) && n in s.w.nodes && NodeStep(s, order, k, k', n) && k'.status != Steps.Broken
    ensures LexLess(Measure(s, k'), Measure(s, k))
  {
    LevelInRange(s, order, n);
    var c := Place(s, k, n);
    forall d: nat | d < c ensures Total(s, k', s.w.nodes, d) == Total(s, k, s.w.nodes, d) {
      TotalBefore(s, order, k, k', n, d);
    }
    TotalThere(s, order, k, k', n, c);
    MeasureLess(s, k, k', c);
  }

  /** No run goes on for ever: in every sequence of configurations some one does not follow from the one before. */
  lemma {:induction false} RunsEnd(s: Setup, order: seq<NodeInstance>, f: nat -> Config)
    requires Planned(s, order)
    ensures exists i: nat, j: nat :: j == i + 1 && !Next(s, order, f(i), f(j))
  {
    if i: nat :| f(i).status != Steps.Going {
      assert !Next(s, order, f(i), f(i + 1));
    } else {
      var v := (i: nat) => Measure(s, f(i));
      NoneFalls(v);
      var i: nat, j: nat :| j == i + 1 && !LexLess(v(j), v(i));
      if Next(s, order, f(i), f(j)) {
        var n :| n in s.w.nodes && NodeStep(s, order, f(i), f(j), n);
        StepLess(s, order, f(i), f(j), n);
      }
    }
  }
}
