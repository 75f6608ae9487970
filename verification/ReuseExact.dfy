/** Which nodes an incremental run reuses (`reusable_runs`, src/execution_runner.rs, with `try_reuse`, src/engine.rs),
    in terms of the edits made: exactly those that no edit, and no failed or skipped node, is upstream of. */
module ReuseExact {

  import opened Workflows
  import opened LoopLayout
  import opened NodeRuns
  import opened RunGraph
  import opened Fingerprints
  import opened Reuse
  import Turns = NodeTurns
  import Records = RunRecords
  import Whole = WorkflowPrints

  /** A node of both versions that has the same fields in them. */
  ghost predicate Unedited(prev: Version, v: Version, id: NodeId) {
    exists i, j :: 0 <= i < |v.order| && 0 <= j < |prev.order| && v.order[i].id == prev.order[j].id == id &&
      SameFields(v.order[i], prev.order[j])
  }

  /** Nodes that were not edited, succeeded when they last ran, and are fed by one another only. */
  ghost predicate Untouched(world: World, prev: Version, v: Version, records: map<NodeId, NodeRun>, ids: set<NodeId>) {
    forall id :: id in ids ==>
      && Unedited(prev, v, id) && id in records && records[id].status.Success?
      && forall c :: c in world.connections && c.toNode == id ==> c.fromNode in ids
  }

  // ---- Untouched nodes keep their fingerprint -------------------------------------------------------------------

  lemma SameText(a: NodeInstance, b: NodeInstance, feed: string)
    requires SameFields(a, b)
    ensures NodeText(a, feed) == NodeText(b, feed)
  {
  }

  /** The fingerprint of a node when its own turn to be fingerprinted comes is the one it ends with. */
  lemma {:induction false} PrintStands(world: World, v: Version, k: nat, i: nat)
    requires GoodVersion(world, v) && k < i <= |v.order|
    ensures var links := Without(world.connections, {});
            && v.order[k].id in Prints(world.hash, links, v.order, i)
            && v.order[k].id in VersionPrints(world, v)
            && Prints(world.hash, links, v.order, i)[v.order[k].id] == VersionPrints(world, v)[v.order[k].id]
  {
    VersionIsRunnable(world, v, map[]);
    PrintsAt(world.hash, Without(world.connections, {}), v.order, i, k);
    PrintsAt(world.hash, Without(world.connections, {}), v.order, |v.order|, k);
  }

  ghost predicate KeepsPrint(world: World, prev: Version, v: Version, id: NodeId) {
    Whole.SamePrint(VersionPrints(world, v), VersionPrints(world, prev), id)
  }

  lemma FeederPrint(world: World, v: Version, c: Connection, i: nat) returns (k: nat)
    requires GoodVersion(world, v) && i < |v.order| && v.order[i].id == c.toNode && c in Without(world.connections, {})
    ensures k < i && v.order[k].id == c.fromNode
    ensures var before := Prints(world.hash, Without(world.connections, {}), v.order, i);
            && c.fromNode in before && c.fromNode in VersionPrints(world, v)
            && before[c.fromNode] == VersionPrints(world, v)[c.fromNode]
  {
    k := Feeder(world, v, c, i);
    PrintStands(world, v, k, i);
  }

  lemma {:induction false} SameFeed(world: World, prev: Version, v: Version, i: nat, j: nat)
    requires GoodVersion(world, prev) && GoodVersion(world, v) && i < |v.order| && j < |prev.order|
    requires v.order[i].id == prev.order[j].id
    requires forall c :: c in world.connections && c.toNode == v.order[i].id ==> KeepsPrint(world, prev, v, c.fromNode)
    ensures var links, id := Without(world.connections, {}), v.order[i].id;
            FeedText(links, Prints(world.hash, links, v.order, i), id) ==
              FeedText(links, Prints(world.hash, links, prev.order, j), id)
  {
    var links, id := Without(world.connections, {}), v.order[i].id;
    var a, b := Prints(world.hash, links, v.order, i), Prints(world.hash, links, prev.order, j);
    forall c | c in links && c.toNode == id ensures Whole.SamePrint(a, b, c.fromNode) {
      var k := FeederPrint(world, v, c, i);
      var l := FeederPrint(world, prev, c, j);
      assert KeepsPrint(world, prev, v, c.fromNode);
    }
    Whole.IncomingAgrees(links, a, b, id);
  }

  lemma {:induction false} UntouchedKeepsPrint(world: World, prev: Version, v: Version, records: map<NodeId, NodeRun>,
      ids: set<NodeId>, i: nat)
    requires GoodVersion(world, prev) && GoodVersion(world, v) && Untouched(world, prev, v, records, ids)
    requires i < |v.order| && v.order[i].id in ids
    ensures KeepsPrint(world, prev, v, v.order[i].id)
  {
    var id, links := v.order[i].id, Without(world.connections, {});
    var i', j :| 0 <= i' < |v.order| && 0 <= j < |prev.order| && v.order[i'].id == prev.order[j].id == id &&
      SameFields(v.order[i'], prev.order[j]);
    assert i' == i;
    forall c | c in world.connections && c.toNode == id ensures KeepsPrint(world, prev, v, c.fromNode) {
      var k := Feeder(world, v, c, i);
      UntouchedKeepsPrint(world, prev, v, records, ids, k);
    }
    SameFeed(world, prev, v, i, j);
    SameText(v.order[i], prev.order[j], FeedText(links, Prints(world.hash, links, v.order, i), id));
    VersionIsRunnable(world, v, map[]);
    VersionIsRunnable(world, prev, map[]);
    PrintsAt(world.hash, links, v.order, |v.order|, i);
    PrintsAt(world.hash, links, prev.order, |prev.order|, j);
  }

  // ---- What a run reuses ----------------------------------------------------------------------------------------

  /** A run of a version that went well, with the records of the run before. */
  ghost predicate RanAgain(world: World, prev: Version, v: Version, before: seq<Config>, reuse: map<NodeId, NodeRun>,
      run: seq<Config>, earlier: map<NodeId, NodeRun>)
  {
    && GoodWorld(world) && GoodVersion(world, prev) && GoodVersion(world, v) && SameIds(prev, v)
    && v.order != [] && prev.order != []
    && Trace(RunSetup(world, prev, earlier), VersionPrints(world, prev), prev.order, before)
    && reuse == Reusable(VersionPrints(world, v), before[|before| - 1].records)
    && Trace(RunSetup(world, v, reuse), VersionPrints(world, v), v.order, run)
    && run[|run| - 1].status == Succeeded
  }

  lemma {:induction false} ReusedHere(world: World, v: Version, reuse: map<NodeId, NodeRun>, run: seq<Config>, i: nat)
    requires GoodVersion(world, v) && v.order != [] && i < |v.order|
    requires Trace(RunSetup(world, v, reuse), VersionPrints(world, v), v.order, run)
    requires run[|run| - 1].status == Succeeded
    ensures var reused := run[|run| - 1].st.reused;
            v.order[i].id in reused <==>
              && v.order[i].id in reuse
              && forall c :: c in world.connections && c.toNode == v.order[i].id ==> c.fromNode in reused
  {
    var s, end, n := RunSetup(world, v, reuse), run[|run| - 1].st, v.order[i];
    VersionIsRunnable(world, v, reuse);
    Records.NodesHold(s, VersionPrints(world, v), v.order, run, i);
    assert n in v.order && !IsLoop(n);
    if forall c :: c in world.connections && c.toNode == n.id ==> c.fromNode in end.reused {
      forall k | Turns.LinkInto(s, k, n.id) ensures s.w.connections[k].fromNode in end.reused {
        assert s.w.connections[k] in world.connections;
      }
    }
    if Turns.Reusable(s, end, n) {
      forall c | c in world.connections && c.toNode == n.id ensures c.fromNode in end.reused {
        var k :| 0 <= k < |world.connections| && world.connections[k] == c;
        assert Turns.LinkInto(s, k, n.id);
      }
    }
  }

  /** A record of the run before tells the status and carries that version's fingerprint. */
  lemma {:induction false} OldRecord(world: World, prev: Version, earlier: map<NodeId, NodeRun>, before: seq<Config>,
      id: NodeId) returns (j: nat)
    requires GoodVersion(world, prev) && prev.order != []
    requires Trace(RunSetup(world, prev, earlier), VersionPrints(world, prev), prev.order, before)
    requires id in before[|before| - 1].records
    ensures j < |prev.order| && prev.order[j].id == id && id in VersionPrints(world, prev)
    ensures before[|before| - 1].records[id].fingerprint == Some(VersionPrints(world, prev)[id])
  {
    var s, prints, end := RunSetup(world, prev, earlier), VersionPrints(world, prev), before[|before| - 1];
    VersionIsRunnable(world, prev, earlier);
    TraceInv(s, prints, prev.order, before, |before| - 1);
    j := RecordOf(s, prints, prev.order, end, id);
    PrintsAt(world.hash, Without(world.connections, {}), prev.order, |prev.order|, j);
  }

  lemma RecordOf(s: Setup, prints: map<NodeId, string>, list: seq<NodeInstance>, k: Config, id: NodeId)
    returns (j: nat)
    requires Inv(s, prints, list, k) && id in k.records
    ensures j < |list| && list[j].id == id && k.records[id].fingerprint == PrintOf(prints, id)
  {
    j :| 0 <= j < |list| && list[j].id == id && Recorded(s, prints, list, k, j);
  }

  lemma {:induction false} ReusedIsUntouched(world: World, prev: Version, v: Version, earlier: map<NodeId, NodeRun>,
      before: seq<Config>, reuse: map<NodeId, NodeRun>, run: seq<Config>, i: nat)
    requires RanAgain(world, prev, v, before, reuse, run, earlier) && i < |v.order|
    requires v.order[i].id in run[|run| - 1].st.reused
    ensures var id, records, reused := v.order[i].id, before[|before| - 1].records, run[|run| - 1].st.reused;
            && Unedited(prev, v, id) && id in records && records[id].status.Success?
            && forall c :: c in world.connections && c.toNode == id ==> c.fromNode in reused
  {
    ReusedHere(world, v, reuse, run, i);
    var j := OldRecord(world, prev, earlier, before, v.order[i].id);
    SameVersionFields(world, prev, v, i, j);
  }

  lemma {:induction false} UntouchedMayBeReused(world: World, prev: Version, v: Version,
      earlier: map<NodeId, NodeRun>, before: seq<Config>, reuse: map<NodeId, NodeRun>, run: seq<Config>,
      ids: set<NodeId>, i: nat)
    requires RanAgain(world, prev, v, before, reuse, run, earlier) && i < |v.order|
    requires Untouched(world, prev, v, before[|before| - 1].records, ids) && v.order[i].id in ids
    ensures v.order[i].id in reuse
  {
    UntouchedKeepsPrint(world, prev, v, before[|before| - 1].records, ids, i);
    var j := OldRecord(world, prev, earlier, before, v.order[i].id);
  }

  lemma {:induction false} UntouchedIsReused(world: World, prev: Version, v: Version, earlier: map<NodeId, NodeRun>,
      before: seq<Config>, reuse: map<NodeId, NodeRun>, run: seq<Config>, ids: set<NodeId>, i: nat)
    requires RanAgain(world, prev, v, before, reuse, run, earlier) && i < |v.order|
    requires Untouched(world, prev, v, before[|before| - 1].records, ids) && v.order[i].id in ids
    ensures v.order[i].id in run[|run| - 1].st.reused
  {
    forall c | c in world.connections && c.toNode == v.order[i].id ensures c.fromNode in run[|run| - 1].st.reused {
      var k := Feeder(world, v, c, i);
      UntouchedIsReused(world, prev, v, earlier, before, reuse, run, ids, k);
    }
    UntouchedMayBeReused(world, prev, v, earlier, before, reuse, run, ids, i);
    ReusedHere(world, v, reuse, run, i);
  }

  lemma ReusedIsListed(s: Setup, prints: map<NodeId, string>, list: seq<NodeInstance>, run: seq<Config>, id: NodeId)
    returns (i: nat)
    requires Runnable(s, list) && Trace(s, prints, list, run) && id in run[|run| - 1].st.reused
    ensures i < |list| && list[i].id == id
  {
    TraceInv(s, prints, list, run, |run| - 1);
    i :| 0 <= i < |list| && list[i].id == id;
  }

  lemma {:induction false} AllReusedUntouched(world: World, prev: Version, v: Version, earlier: map<NodeId, NodeRun>,
      before: seq<Config>, reuse: map<NodeId, NodeRun>, run: seq<Config>)
    requires RanAgain(world, prev, v, before, reuse, run, earlier)
    ensures Untouched(world, prev, v, before[|before| - 1].records, run[|run| - 1].st.reused)
  {
    var records, reused := before[|before| - 1].records, run[|run| - 1].st.reused;
    VersionIsRunnable(world, v, reuse);
    forall id | id in reused
      ensures Unedited(prev, v, id) && id in records && records[id].status.Success?
      ensures forall c :: c in world.connections && c.toNode == id ==> c.fromNode in reused
    {
      var i := ReusedIsListed(RunSetup(world, v, reuse), VersionPrints(world, v), v.order, run, id);
      ReusedIsUntouched(world, prev, v, earlier, before, reuse, run, i);
    }
  }

  lemma {:induction false} AllUntouchedReused(world: World, prev: Version, v: Version, earlier: map<NodeId, NodeRun>,
      before: seq<Config>, reuse: map<NodeId, NodeRun>, run: seq<Config>, ids: set<NodeId>)
    requires RanAgain(world, prev, v, before, reuse, run, earlier)
    requires Untouched(world, prev, v, before[|before| - 1].records, ids)
    ensures ids <= run[|run| - 1].st.reused
  {
    forall id | id in ids ensures id in run[|run| - 1].st.reused {
      assert Unedited(prev, v, id);
      var i :| 0 <= i < |v.order| && v.order[i].id == id;
      UntouchedIsReused(world, prev, v, earlier, before, reuse, run, ids, i);
    }
  }

  /** The largest untouched set. */
  ghost predicate LargestUntouched(world: World, prev: Version, v: Version, records: map<NodeId, NodeRun>,
      reused: set<NodeId>)
  {
    && Untouched(world, prev, v, records, reused)
    && forall ids :: Untouched(world, prev, v, records, ids) ==> ids <= reused
  }

  lemma {:induction false} ReusedIsLargest(world: World, prev: Version, v: Version, earlier: map<NodeId, NodeRun>,
      before: seq<Config>, reuse: map<NodeId, NodeRun>, run: seq<Config>)
    requires RanAgain(world, prev, v, before, reuse, run, earlier)
    ensures LargestUntouched(world, prev, v, before[|before| - 1].records, run[|run| - 1].st.reused)
  {
    var records := before[|before| - 1].records;
    AllReusedUntouched(world, prev, v, earlier, before, reuse, run);
    forall ids | Untouched(world, prev, v, records, ids) ensures ids <= run[|run| - 1].st.reused {
      AllUntouchedReused(world, prev, v, earlier, before, reuse, run, ids);
    }
  }

  /** In any history of edits and runs, a run that goes well reuses the largest set of nodes that were not edited
      since the run before, succeeded in it, and are fed by nodes of the set only: nothing downstream of an edited,
      failed or skipped node, and everything else. */
  lemma {:induction false} ReusesTheUntouched(world: World, h: seq<Revision>, n: nat)
    requires GoodWorld(world) && 0 < n < |h| && GoodRevision(world, h, n - 1) && GoodRevision(world, h, n)
    requires h[n].run[|h[n].run| - 1].status == Succeeded
    ensures LargestUntouched(world, h[n - 1].v, h[n].v, RecordsAfter(h[n - 1]), h[n].run[|h[n].run| - 1].st.reused)
  {
    ReusedIsLargest(world, h[n - 1].v, h[n].v, RevisionReuse(world, h, n - 1), h[n - 1].run, RevisionReuse(world, h, n),
      h[n].run);
  }
}
