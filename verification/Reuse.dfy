/** Incremental runs (`reusable_runs`, src/execution_runner.rs, with `try_reuse`, src/engine.rs): taking the
    unchanged nodes' output from the last run gives what running every node gives, over any history of edits
    to node fields and runs. */
module Reuse {

  import opened CanonicalJson
  import opened Workflows
  import opened LoopLayout
  import opened TopologicalOrder
  import opened NodeRuns
  import opened RunGraph
  import opened Fingerprints

  /** What stays the same over a history: the links, the node types, the trigger's items and the hash. */
  datatype World = World(
    connections: seq<Connection>, registry: map<string, NodeType>, trigger: Option<seq<Item>>, hash: Hash)

  /** A node's work sees its parameters only up to the order of object keys. */
  ghost predicate KeyOrderBlind(registry: map<string, NodeType>) {
    forall t, p, q, settings, batch, groups, all ::
      t in registry && Canonical(p) == Canonical(q) ==>
        registry[t].work(p, settings, batch, groups, all) == registry[t].work(q, settings, batch, groups, all)
  }

  ghost predicate GoodWorld(world: World) {
    KeyOrderBlind(world.registry) && GoodHash(world.hash)
  }

  /** One version of the workflow, with the order its nodes run in. */
  datatype Version = Version(w: Workflow, order: seq<NodeInstance>)

  ghost predicate GoodVersion(world: World, v: Version) {
    && v.w.connections == world.connections
    && v.w.nodes != []
    && LoopFree(v.w)
    && EndpointsExist(v.w)
    && (|v.w.nodes| > 1 ==> OneStart(v.w.nodes, ForwardLinks(v.w)))
    && IsOrder(v.w, v.order)
    && forall n :: n in v.w.nodes ==> WellFormed(n.parameters)
  }

  function RunSetup(world: World, v: Version, reuse: map<NodeId, NodeRun>): Setup
    requires v.order != []
  {
    Setup(v.w, {}, map[], world.registry, Some(v.order[0].id), world.trigger, reuse)
  }

  function VersionPrints(world: World, v: Version): map<NodeId, string> {
    Prints(world.hash, Without(world.connections, {}), v.order, |v.order|)
  }

  /** The records a new run may reuse (`reusable_runs`). */
  function Reusable(prints: map<NodeId, string>, records: map<NodeId, NodeRun>): map<NodeId, NodeRun> {
    map id | id in records && records[id].status == Success && records[id].fingerprint.Some?
             && id in prints && prints[id] == records[id].fingerprint.value :: records[id]
  }

  // ---- Loop-free workflows --------------------------------------------------------------------------------------

  lemma VersionIsRunnable(world: World, v: Version, reuse: map<NodeId, NodeRun>)
    requires GoodVersion(world, v)
    ensures v.order != [] && Runnable(RunSetup(world, v, reuse), v.order)
    ensures Forwards(Without(world.connections, {}), v.order)
  {
    NoBackLinks(v.w);
    assert |multiset(v.order)| == |multiset(v.w.nodes)|;
    var links := Without(world.connections, {});
    assert links == ForwardLinks(v.w);
    forall n | n in v.order ensures n in v.w.nodes {
      assert n in multiset(v.order);
    }
    forall c, j | c in links && IsAt(v.order, j, c.toNode) ensures Preceded(v.order, j, c.fromNode) {
      LinkIds(v.w, links);
      SameNodesSameIds(v.w.nodes, v.order, c.fromNode);
      assert c.fromNode in Ids(v.order);
      var i :| 0 <= i < |v.order| && v.order[i].id == c.fromNode;
      assert IsAt(v.order, i, c.fromNode);
    }
  }

  lemma FirstIsUnfed(world: World, v: Version)
    requires GoodVersion(world, v)
    ensures v.order != [] && !HasIncoming(Without(world.connections, {}), v.order[0].id)
  {
    VersionIsRunnable(world, v, map[]);
    forall c | c in Without(world.connections, {}) ensures c.toNode != v.order[0].id {
      if c.toNode == v.order[0].id {
        var i := EarlierFeeder(Without(world.connections, {}), v.order, c, 0);
      }
    }
  }

  lemma NodeIndex(v: Version, n: NodeInstance) returns (i: nat)
    requires multiset(v.order) == multiset(v.w.nodes) && n in v.order
    ensures i < |v.w.nodes| && v.w.nodes[i] == n
  {
    assert n in multiset(v.order);
    i :| i < |v.w.nodes| && v.w.nodes[i] == n;
  }

  /** The first node in order is the only one nothing feeds. */
  lemma OnlyFirstIsUnfed(world: World, v: Version, n: NodeInstance)
    requires GoodVersion(world, v) && n in v.order && n.id != v.order[0].id
    ensures HasIncoming(Without(world.connections, {}), n.id)
  {
    NoBackLinks(v.w);
    FirstIsUnfed(world, v);
    var a := NodeIndex(v, v.order[0]);
    var b := NodeIndex(v, n);
    assert a != b;
    var s :| 0 <= s < |v.w.nodes| && OnlyStart(v.w.nodes, ForwardLinks(v.w), s);
    assert NoInput(ForwardLinks(v.w), v.w.nodes[a].id);
    assert !NoInput(ForwardLinks(v.w), v.w.nodes[b].id);
  }

  /** Two versions of one workflow: the same node ids, any fields. */
  ghost predicate SameIds(a: Version, b: Version) {
    forall id :: id in Ids(a.order) <==> id in Ids(b.order)
  }

  lemma SameStart(world: World, a: Version, b: Version)
    requires GoodVersion(world, a) && GoodVersion(world, b) && SameIds(a, b)
    ensures a.order != [] && b.order != [] && a.order[0].id == b.order[0].id
  {
    FirstIsUnfed(world, a);
    FirstIsUnfed(world, b);
    assert a.order[0].id in Ids(a.order);
    var n :| n in b.order && n.id == a.order[0].id;
    if n.id != b.order[0].id {
      OnlyFirstIsUnfed(world, b, n);
    }
  }

  // ---- A node with the same fields and the same upstream does the same ------------------------------------------

  lemma {:induction false} CallEachAlike(registry: map<string, NodeType>, t: string, a: NodeInstance, b: NodeInstance,
      batches: seq<seq<Item>>,
                                         groups: seq<seq<Item>>, all: seq<Item>, routed: bool, done: Calls)
    requires KeyOrderBlind(registry) && t in registry && SameFields(a, b)
    ensures CallEach(registry[t].work, a, batches, groups, all, routed, done) ==
        CallEach(registry[t].work, b, batches, groups, all, routed, done)
  {
    if batches != [] {
      var work := registry[t].work;
      assert work(a.parameters, a.settings, batches[0], groups, all) ==
        work(b.parameters, b.settings, batches[0], groups, all);
      match work(a.parameters, a.settings, batches[0], groups, all)
      case Unresolved =>
      case Produced(out) =>
        CallEachAlike(registry, t, a, b, batches[1..], groups, all, routed,
          done.(output := MergePorts(done.output, out)));
      case Failed(message) =>
        if routed {
          CallEachAlike(registry, t, a, b, batches[1..], groups, all, routed,
                        Calls(done.output, done.errors + [ErrorItem(message)], true));
        } else if a.settings.continueOnFail {
          CallEachAlike(registry, t, a, b, batches[1..], groups, all, routed,
                        Calls(OntoFirstPort(done.output, ErrorItem(message)), done.errors, true));
        }
    }
  }

  lemma RunUnchanged(s: Setup, t: Setup, x: RunState, y: RunState, a: NodeInstance, b: NodeInstance)
    requires s.w.connections == t.w.connections && s.back == t.back && s.registry == t.registry
    requires s.start == t.start && s.trigger == t.trigger && KeyOrderBlind(s.registry)
    requires a.id == b.id && SameFields(a, b) && UpstreamAlike(s.Links(), x, y, a.id)
    ensures Run(s, x, a) == Run(t, y, b)
  {
    GatherAlike(s.Links(), x, y, a.id);
    GroupsAlike(s.Links(), x, y, a.id, []);
    var items := Gather(s.Links(), x, a.id);
    var groups := Groups(s.Links(), x, a.id);
    if a.nodeType in s.registry {
      var nt := s.registry[a.nodeType];
      var batches := if nt.runsPerItem && |items| > 1 then OneByOne(items) else [items];
      CallEachAlike(s.registry, a.nodeType, a, b, batches, if nt.runsPerItem then [] else groups, items,
                    ErrorRoute(s.w, a.id), Calls([], [], false));
      assert NodeRuns.Execute(s, a, nt, items, groups) == NodeRuns.Execute(t, b, nt, items, groups);
    }
  }

  // ---- Records that tell what the node would do -----------------------------------------------------------------

  ghost predicate Alike(o: Outcome, r: Outcome) {
    if o.Stores? then r.Stores? && SamePorts(o.output, r.output) && o.errors == r.errors && o.status == r.status
    else o == r
  }

  /** What node `i` of a version does in a run that reuses nothing. */
  ghost function FullOutcome(world: World, v: Version, i: nat): Outcome
    requires i < |v.order|
  {
    Expected(RunSetup(world, v, map[]), v.order, i)
  }

  /** A successful record holds what a full run of the version gives the node, under its fingerprint. */
  ghost predicate RecordHolds(world: World, v: Version, i: nat, r: NodeRun)
    requires i < |v.order|
  {
    && v.order[i].id in VersionPrints(world, v)
    && r.fingerprint == Some(VersionPrints(world, v)[v.order[i].id])
    && var o := FullOutcome(world, v, i);
       o.Stores? && o.status == Success && SamePorts(r.outputs, o.output) && r.errorItems == o.errors
  }

  ghost predicate RecordsHold(world: World, v: Version, records: map<NodeId, NodeRun>) {
    forall id :: id in records && records[id].status == Success ==>
      exists i :: 0 <= i < |v.order| && v.order[i].id == id && RecordHolds(world, v, i, records[id])
  }

  // ---- One incremental run --------------------------------------------------------------------------------------

  /** What a state built in order holds of an earlier node is what that node's turn stored. */
  lemma {:induction false} SentByOutcome(s: Setup, list: seq<NodeInstance>, k: nat, n: nat)
    requires DistinctIds(list) && k < n <= |list|
    ensures var o := Expected(s, list, k);
            var st := Reference(s, list, n);
            && OutputOf(st, list[k].id) == (if o.Stores? then o.output else [])
            && ErrorsOf(st, list[k].id) == (if o.Stores? then o.errors else [])
            && (list[k].id in st.reused <==> o.Stores? && o.reused)
  {
    ReferenceEntries(s, list, k);
    ReferenceKeeps(s, list, k, n);
  }

  lemma {:induction false} AlikeSent(s: Setup, t: Setup, a: seq<NodeInstance>, b: seq<NodeInstance>, i: nat, m: nat,
      j: nat, n: nat)
    requires DistinctIds(a) && DistinctIds(b) && i < m <= |a| && j < n <= |b| && a[i].id == b[j].id
    requires Alike(Expected(s, a, i), Expected(t, b, j))
    ensures SentAlike(Reference(s, a, m), Reference(t, b, n), a[i].id)
  {
    SentByOutcome(s, a, i, m);
    SentByOutcome(t, b, j, n);
  }

  ghost predicate Agrees(world: World, v: Version, reuse: map<NodeId, NodeRun>, i: nat)
    requires i < |v.order|
  {
    Alike(Expected(RunSetup(world, v, reuse), v.order, i), FullOutcome(world, v, i))
  }

  ghost predicate AsBefore(world: World, prev: Version, v: Version, i: nat)
    requires i < |v.order|
  {
    exists j :: 0 <= j < |prev.order| && prev.order[j].id == v.order[i].id &&
      FullOutcome(world, v, i) == FullOutcome(world, prev, j)
  }

  ghost predicate ReusedAsBefore(world: World, prev: Version, v: Version, reuse: map<NodeId, NodeRun>, i: nat)
    requires i < |v.order|
  {
    var o := Expected(RunSetup(world, v, reuse), v.order, i);
    o.Stores? && o.reused ==> AsBefore(world, prev, v, i)
  }

  lemma RunIsNotReuse(s: Setup, st: RunState, n: NodeInstance)
    ensures Run(s, st, n).Stores? ==> !Run(s, st, n).reused
  {
  }

  /** A node that runs finds upstream what a full run would. */
  lemma {:induction false} RunningNodeAgrees(world: World, v: Version, reuse: map<NodeId, NodeRun>, i: nat)
    requires GoodWorld(world) && GoodVersion(world, v) && v.order != [] && i < |v.order|
    requires forall k :: 0 <= k < i ==> Agrees(world, v, reuse, k)
    requires !MayReuse(RunSetup(world, v, reuse), Reference(RunSetup(world, v, reuse), v.order, i), v.order[i])
    ensures Expected(RunSetup(world, v, reuse), v.order, i) == FullOutcome(world, v, i)
  {
    VersionIsRunnable(world, v, reuse);
    var s, t := RunSetup(world, v, reuse), RunSetup(world, v, map[]);
    var n := v.order[i];
    forall c | c in s.Links() && c.toNode == n.id
      ensures SentAlike(Reference(s, v.order, i), Reference(t, v.order, i), c.fromNode)
    {
      var k := EarlierFeeder(s.Links(), v.order, c, i);
      assert Agrees(world, v, reuse, k);
      AlikeSent(s, t, v.order, v.order, k, i, k, i);
    }
    RunUnchanged(s, t, Reference(s, v.order, i), Reference(t, v.order, i), n, n);
  }

  /** The version before, and the node's place in it. */
  ghost predicate Earlier(world: World, prev: Version, v: Version, records: map<NodeId, NodeRun>) {
    GoodWorld(world) && GoodVersion(world, prev) && GoodVersion(world, v) && SameIds(prev, v) &&
      RecordsHold(world, prev, records)
  }

  lemma Feeder(world: World, v: Version, c: Connection, i: nat) returns (k: nat)
    requires GoodVersion(world, v) && i < |v.order| && v.order[i].id == c.toNode && c in Without(world.connections, {})
    ensures k < i && v.order[k].id == c.fromNode
  {
    VersionIsRunnable(world, v, map[]);
    k := EarlierFeeder(Without(world.connections, {}), v.order, c, i);
  }

  lemma SameFeeder(world: World, prev: Version, v: Version, k: nat, l: nat)
    requires GoodVersion(world, prev) && v.order != [] && prev.order != [] && k < |v.order| && l < |prev.order|
    requires v.order[k].id == prev.order[l].id && AsBefore(world, prev, v, k)
    ensures FullOutcome(world, v, k) == FullOutcome(world, prev, l)
  {
    var m :| 0 <= m < |prev.order| && prev.order[m].id == v.order[k].id &&
      FullOutcome(world, v, k) == FullOutcome(world, prev, m);
    assert m == l;
  }

  lemma {:induction false} UpstreamAsBefore(world: World, prev: Version, v: Version, i: nat, j: nat, c: Connection)
    requires GoodVersion(world, prev) && GoodVersion(world, v) && i < |v.order| && j < |prev.order|
    requires v.order != [] && prev.order != [] && prev.order[j].id == v.order[i].id == c.toNode
    requires c in Without(world.connections, {})
    requires forall k :: 0 <= k < i && v.order[k].id == c.fromNode ==> AsBefore(world, prev, v, k)
    ensures SentAlike(Reference(RunSetup(world, v, map[]), v.order, i),
        Reference(RunSetup(world, prev, map[]), prev.order, j), c.fromNode)
  {
    var k := Feeder(world, v, c, i);
    var l := Feeder(world, prev, c, j);
    VersionIsRunnable(world, v, map[]);
    VersionIsRunnable(world, prev, map[]);
    SameFeeder(world, prev, v, k, l);
    AlikeSent(RunSetup(world, v, map[]), RunSetup(world, prev, map[]), v.order, prev.order, k, i, l, j);
  }

  /** A reused node would do now what it did then. */
  lemma ReusedNodeAsBefore(world: World, prev: Version, v: Version, i: nat, j: nat)
    requires GoodWorld(world) && GoodVersion(world, prev) && GoodVersion(world, v) && SameIds(prev, v)
    requires i < |v.order| && j < |prev.order| && prev.order[j].id == v.order[i].id
    requires SameFields(v.order[i], prev.order[j])
    requires forall c, k ::
        (c in Without(world.connections, {}) && c.toNode == v.order[i].id && 0 <= k < i
         && v.order[k].id == c.fromNode)
        ==> AsBefore(world, prev, v, k)
    ensures FullOutcome(world, v, i) == FullOutcome(world, prev, j)
  {
    SameStart(world, prev, v);
    var s, t := RunSetup(world, v, map[]), RunSetup(world, prev, map[]);
    forall c | c in s.Links() && c.toNode == v.order[i].id
      ensures SentAlike(Reference(s, v.order, i), Reference(t, prev.order, j), c.fromNode)
    {
      UpstreamAsBefore(world, prev, v, i, j, c);
    }
    RunUnchanged(s, t, Reference(s, v.order, i), Reference(t, prev.order, j), v.order[i], prev.order[j]);
  }

  lemma ReusedSamePorts(r: NodeRun, o: Outcome)
    requires o.Stores? && o.status == Success && SamePorts(r.outputs, o.output) && r.errorItems == o.errors
    ensures Alike(NodeRuns.Reuse(r), o)
  {
    if r.outputs == [] {
      forall k: nat ensures PortItems([[]], k) == PortItems(o.output, k) {
        assert PortItems(r.outputs, k) == PortItems(o.output, k);
      }
    }
  }

  ghost predicate Settled(world: World, prev: Version, v: Version, reuse: map<NodeId, NodeRun>, i: nat)
    requires i < |v.order|
  {
    Agrees(world, v, reuse, i) && ReusedAsBefore(world, prev, v, reuse, i)
  }

  lemma NodeAgrees(world: World, prev: Version, v: Version, records: map<NodeId, NodeRun>,
      reuse: map<NodeId, NodeRun>, i: nat)
    requires Earlier(world, prev, v, records) && v.order != [] && i < |v.order|
    requires reuse == Reusable(VersionPrints(world, v), records)
    requires forall k :: 0 <= k < i ==> Settled(world, prev, v, reuse, k)
    ensures Settled(world, prev, v, reuse, i)
  {
    forall k | 0 <= k < i ensures Agrees(world, v, reuse, k) { assert Settled(world, prev, v, reuse, k); }
    var s := RunSetup(world, v, reuse);
    var st := Reference(s, v.order, i);
    var n := v.order[i];
    VersionIsRunnable(world, v, reuse);
    if !MayReuse(s, st, n) {
      RunningNodeAgrees(world, v, reuse, i);
      RunIsNotReuse(s, st, n);
    } else {
      var r := reuse[n.id];
      var j :| 0 <= j < |prev.order| && prev.order[j].id == n.id && RecordHolds(world, prev, j, r);
      SameVersionFields(world, prev, v, i, j);
      forall c, k | c in s.Links() && c.toNode == n.id && 0 <= k < i && v.order[k].id == c.fromNode
        ensures AsBefore(world, prev, v, k)
      {
        SentByOutcome(s, v.order, k, i);
        assert Settled(world, prev, v, reuse, k);
      }
      ReusedNodeAsBefore(world, prev, v, i, j);
      ReusedSamePorts(r, FullOutcome(world, prev, j));
    }
  }

  lemma SameVersionFields(world: World, prev: Version, v: Version, i: nat, j: nat)
    requires GoodWorld(world) && GoodVersion(world, prev) && GoodVersion(world, v)
    requires i < |v.order| && j < |prev.order|
    requires v.order[i].id in VersionPrints(world, v) && prev.order[j].id in VersionPrints(world, prev)
    requires VersionPrints(world, v)[v.order[i].id] == VersionPrints(world, prev)[prev.order[j].id]
    ensures SameFields(v.order[i], prev.order[j])
  {
    VersionIsRunnable(world, v, map[]);
    VersionIsRunnable(world, prev, map[]);
    assert v.order[i] in multiset(v.order) && prev.order[j] in multiset(prev.order);
    SamePrintSameFields(world.hash, Without(world.connections, {}), v.order, i, Without(world.connections, {}),
      prev.order, j);
  }

  lemma {:induction false} NodeSettled(world: World, prev: Version, v: Version, records: map<NodeId, NodeRun>,
      reuse: map<NodeId, NodeRun>, i: nat)
    requires Earlier(world, prev, v, records) && v.order != [] && i < |v.order|
    requires reuse == Reusable(VersionPrints(world, v), records)
    ensures Settled(world, prev, v, reuse, i)
  {
    forall k | 0 <= k < i ensures Settled(world, prev, v, reuse, k) { NodeSettled(world, prev, v, records, reuse, k); }
    NodeAgrees(world, prev, v, records, reuse, i);
  }

  // ---- Any history of edits and runs ----------------------------------------------------------------------------

  /** A version and one run of it, in any interleaving, over or stopped on the way. */
  datatype Revision = Revision(v: Version, run: seq<Config>)

  function RecordsAfter(r: Revision): map<NodeId, NodeRun>
    requires r.run != []
  {
    r.run[|r.run| - 1].records
  }

  /** Each run reuses what the records of the one before allow; the first reuses nothing. */
  ghost predicate History(world: World, h: seq<Revision>) {
    forall k :: 0 <= k < |h| ==> GoodRevision(world, h, k)
  }

  ghost predicate GoodRevision(world: World, h: seq<Revision>, k: nat)
    requires k < |h|
  {
    && GoodVersion(world, h[k].v) && h[k].v.order != []
    && (k > 0 ==> h[k - 1].run != [] && GoodVersion(world, h[k - 1].v) && SameIds(h[k - 1].v, h[k].v))
    && Trace(RunSetup(world, h[k].v, RevisionReuse(world, h, k)), VersionPrints(world, h[k].v), h[k].v.order, h[k].run)
  }

  ghost function RevisionReuse(world: World, h: seq<Revision>, k: nat): map<NodeId, NodeRun>
    requires k < |h| && (k > 0 ==> h[k - 1].run != [])
  {
    if k == 0 then map[] else Reusable(VersionPrints(world, h[k].v), RecordsAfter(h[k - 1]))
  }

  lemma RecordsOfRunHold(world: World, v: Version, reuse: map<NodeId, NodeRun>, run: seq<Config>)
    requires GoodVersion(world, v) && v.order != []
    requires Trace(RunSetup(world, v, reuse), VersionPrints(world, v), v.order, run)
    requires AllAgree(world, v, reuse)
    ensures RecordsHold(world, v, run[|run| - 1].records)
  {
    var s, prints := RunSetup(world, v, reuse), VersionPrints(world, v);
    var end := run[|run| - 1];
    VersionIsRunnable(world, v, reuse);
    TraceInv(s, prints, v.order, run, |run| - 1);
    forall id | id in end.records && end.records[id].status == Success
      ensures exists i :: 0 <= i < |v.order| && v.order[i].id == id && RecordHolds(world, v, i, end.records[id])
    {
      var i :| 0 <= i < |v.order| && v.order[i].id == id && Recorded(s, prints, v.order, end, i);
      assert Agrees(world, v, reuse, i);
      PrintsAt(world.hash, Without(world.connections, {}), v.order, |v.order|, i);
      assert RecordHolds(world, v, i, end.records[id]);
    }
  }

  ghost predicate LastRecordsHold(world: World, h: seq<Revision>, n: nat)
    requires n <= |h|
  {
    n > 0 ==> h[n - 1].run != [] && RecordsHold(world, h[n - 1].v, RecordsAfter(h[n - 1]))
  }

  lemma NodesAgree(world: World, h: seq<Revision>, n: nat, i: nat)
    requires GoodWorld(world) && n < |h| && GoodRevision(world, h, n) && i < |h[n].v.order|
    requires LastRecordsHold(world, h, n)
    ensures Agrees(world, h[n].v, RevisionReuse(world, h, n), i)
  {
    if n > 0 {
      NodeSettled(world, h[n - 1].v, h[n].v, RecordsAfter(h[n - 1]), RevisionReuse(world, h, n), i);
    }
  }

  ghost predicate AllAgree(world: World, v: Version, reuse: map<NodeId, NodeRun>) {
    forall i :: 0 <= i < |v.order| ==> Agrees(world, v, reuse, i)
  }

  lemma AllNodesAgree(world: World, h: seq<Revision>, n: nat)
    requires GoodWorld(world) && n < |h| && GoodRevision(world, h, n)
    requires LastRecordsHold(world, h, n)
    ensures AllAgree(world, h[n].v, RevisionReuse(world, h, n))
  {
    forall i | 0 <= i < |h[n].v.order| ensures Agrees(world, h[n].v, RevisionReuse(world, h, n), i) {
      NodesAgree(world, h, n, i);
    }
  }

  lemma NextRecordsHold(world: World, h: seq<Revision>, n: nat)
    requires GoodWorld(world) && n < |h| && GoodRevision(world, h, n)
    requires LastRecordsHold(world, h, n)
    ensures LastRecordsHold(world, h, n + 1)
  {
    AllNodesAgree(world, h, n);
    RecordsOfRunHold(world, h[n].v, RevisionReuse(world, h, n), h[n].run);
  }

  /** The records any run leaves are valid for the next edit. */
  lemma {:induction false} RecordsStayValid(world: World, h: seq<Revision>, n: nat)
    requires GoodWorld(world) && History(world, h) && n <= |h|
    ensures LastRecordsHold(world, h, n)
  {
    if n > 0 {
      RecordsStayValid(world, h, n - 1);
      NextRecordsHold(world, h, n - 1);
    }
  }

  /** The same items on every port and error output. */
  ghost predicate SameItems(a: RunState, b: RunState) {
    forall id :: SentAlike(a, b, id)
  }

  lemma AgreeingRuns(world: World, v: Version, reuse: map<NodeId, NodeRun>)
    requires GoodVersion(world, v) && v.order != []
    requires AllAgree(world, v, reuse)
    ensures var a, b := InOrder(RunSetup(world, v, reuse), v.order, |v.order|),
        InOrder(RunSetup(world, v, map[]), v.order, |v.order|);
            (a.Completed? <==> b.Completed?) && (a.Completed? ==> SameItems(a.st, b.st))
  {
    var s, t := RunSetup(world, v, reuse), RunSetup(world, v, map[]);
    var n := |v.order|;
    InOrderIsReference(s, v.order, n);
    InOrderIsReference(t, v.order, n);
    forall i | 0 <= i < n ensures Expected(s, v.order, i).Stores? <==> Expected(t, v.order, i).Stores? {
      assert Agrees(world, v, reuse, i);
    }
    forall id ensures SentAlike(Reference(s, v.order, n), Reference(t, v.order, n), id) {
      if i :| 0 <= i < n && v.order[i].id == id {
        assert Agrees(world, v, reuse, i);
        AlikeSent(s, t, v.order, v.order, i, n, i, n);
      } else {
        ReferenceSkips(s, v.order, n, id);
        ReferenceSkips(t, v.order, n, id);
      }
    }
  }

  /** Incremental runs equal full runs: after any history of edits to node fields and runs, in any
      interleavings, a run that is over ended as a full run of its version does, with the same items on
      every port. */
  lemma IncrementalEqualsFull(world: World, h: seq<Revision>, n: nat)
    requires GoodWorld(world) && History(world, h) && n < |h|
    ensures GoodRevision(world, h, n)
    ensures var end := h[n].run[|h[n].run| - 1];
            var full := InOrder(RunSetup(world, h[n].v, map[]), h[n].v.order, |h[n].v.order|);
            && (end.status == Succeeded ==> full.Completed? && SameItems(end.st, full.st))
            && (end.status == Broken ==> full == RunFailed)
  {
    RecordsStayValid(world, h, n);
    AllNodesAgree(world, h, n);
    RunAgreesWithFull(world, h[n].v, RevisionReuse(world, h, n), h[n].run);
  }

  lemma RunAgreesWithFull(world: World, v: Version, reuse: map<NodeId, NodeRun>, run: seq<Config>)
    requires GoodVersion(world, v) && v.order != [] && AllAgree(world, v, reuse)
    requires Trace(RunSetup(world, v, reuse), VersionPrints(world, v), v.order, run)
    ensures var end := run[|run| - 1];
            var full := InOrder(RunSetup(world, v, map[]), v.order, |v.order|);
            && (end.status == Succeeded ==> full.Completed? && SameItems(end.st, full.st))
            && (end.status == Broken ==> full == RunFailed)
  {
    VersionIsRunnable(world, v, reuse);
    EveryInterleavingAgrees(RunSetup(world, v, reuse), VersionPrints(world, v), v.order, run);
    AgreeingRuns(world, v, reuse);
  }
}
