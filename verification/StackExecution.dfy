/** A whole execution of the stack machine (`Engine.Execute`, src/n8n/engine.rs) is one of the runs that lineage,
    joins and conservation are about; what they say of it when it is over. */
module StackExecution {

  import opened StackMachine
  import opened StackLineage
  import opened StackJoins
  import opened StackConservation

  /** Sub-nodes never bear the running node's name. */
  ghost predicate SubsApart(work: Work) {
    forall e, rd :: OwnSubs(e, work(e, rd))
  }

  function End(t: seq<Watched>): Watched
    requires t != []
  {
    t[|t| - 1]
  }

  lemma OneTurnMore(w: Flow, v1: bool, t: seq<Watched>, os: seq<Outcome>, e: Entry, rd: RunData, o: Outcome)
    requires WatchedRun(w, v1, t, os, e, rd) && CanPop(End(t).m) && OwnSubs(Popped(End(t).m), o)
    ensures WatchedRun(w, v1, t + [WatchTurn(w, v1, End(t), o)], os + [o], e, rd)
  {
    var t', os' := t + [WatchTurn(w, v1, End(t), o)], os + [o];
    forall n | 0 <= n < |os'|
      ensures CanPop(t'[n].m) && OwnSubs(Popped(t'[n].m), os'[n]) && t'[n + 1] == WatchTurn(w, v1, t'[n], os'[n])
    {
      if n < |os| {
        assert t'[n] == t[n] && t'[n + 1] == t[n + 1] && os'[n] == os[n];
      }
    }
  }

  lemma {:induction false} RunToTheEnd(w: Flow, v1: bool, work: Work, t: seq<Watched>, os: seq<Outcome>, e: Entry,
      rd: RunData)
    returns (t': seq<Watched>, os': seq<Outcome>)
    requires SubsApart(work) && WatchedRun(w, v1, t, os, e, rd)
    ensures WatchedRun(w, v1, t', os', e, rd) && End(t').m == Loop(w, v1, work, End(t).m) && !CanPop(End(t').m)
    decreases End(t).m.left, !End(t).m.over
  {
    var x := End(t);
    if CanPop(x.m) {
      var o := work(Popped(x.m), x.m.rd);
      OneTurnMore(w, v1, t, os, e, rd, o);
      t', os' := RunToTheEnd(w, v1, work, t + [WatchTurn(w, v1, x, o)], os + [o], e, rd);
    } else {
      t', os' := t, os;
    }
  }

  /** The loop's end is the end of a run, from its start entry on. */
  lemma LoopIsRun(w: Flow, v1: bool, work: Work, e: Entry, rd: RunData) returns (t: seq<Watched>, os: seq<Outcome>)
    requires SubsApart(work) && Find(w.nodes, e.node).Some?
    ensures WatchedRun(w, v1, t, os, e, rd) && End(t).m == Loop(w, v1, work, Begin(e, rd)) && !CanPop(End(t).m)
  {
    t, os := RunToTheEnd(w, v1, work, [Watched(Begin(e, rd), [], [], {})], [], e, rd);
  }

  function Machines(t: seq<Watched>): seq<Machine> {
    seq(|t|, n requires 0 <= n < |t| => t[n].m)
  }

  lemma WatchedIsRun(w: Flow, v1: bool, t: seq<Watched>, os: seq<Outcome>, e: Entry, rd: RunData)
    requires WatchedRun(w, v1, t, os, e, rd)
    ensures Run(w, v1, Machines(t), os, e, rd)
  {
  }

  lemma NotOverYet(m: Machine)
    requires CanPop(m)
    ensures !m.over
  {
  }

  lemma {:induction false} TurnsCounted(w: Flow, v1: bool, t: seq<Watched>, os: seq<Outcome>, e: Entry, rd: RunData,
      n: nat)
    requires WatchedRun(w, v1, t, os, e, rd) && n <= |os|
    ensures !t[n].m.over ==> n <= MAX_NODE_RUNS && t[n].m.left == MAX_NODE_RUNS - n
  {
    if n > 0 {
      TurnsCounted(w, v1, t, os, e, rd, n - 1);
      WatchedStep(w, v1, t, os, e, rd, n - 1);
      NotOverYet(t[n - 1].m);
      TurnCounts(w, v1, t[n - 1], os[n - 1]);
    }
  }

  /** The log holds the entries in the order they were started. */
  lemma {:induction false} LogIsPopped(w: Flow, v1: bool, t: seq<Machine>, os: seq<Outcome>, e: Entry, rd: RunData,
      n: nat,
      k: nat)
    requires Run(w, v1, t, os, e, rd) && n <= |os| && k < |t[n].log|
    ensures k < n && CanPop(t[k]) && t[n].log[k] == Popped(t[k])
  {
    assert n > 0;
    RunStep(w, v1, t, os, e, rd, n - 1);
    LogCounts(w, v1, t, os, e, rd, n - 1);
    if k < |t[n - 1].log| {
      LogIsPopped(w, v1, t, os, e, rd, n - 1, k);
    }
  }

  lemma {:induction false} LogCounts(w: Flow, v1: bool, t: seq<Machine>, os: seq<Outcome>, e: Entry, rd: RunData,
      n: nat)
    requires Run(w, v1, t, os, e, rd) && n <= |os|
    ensures |t[n].log| <= n && (t[n].over || |t[n].log| == n)
  {
    if n > 0 {
      LogCounts(w, v1, t, os, e, rd, n - 1);
      RunStep(w, v1, t, os, e, rd, n - 1);
    }
  }

  lemma LogTraced(w: Flow, v1: bool, t: seq<Machine>, os: seq<Outcome>, e: Entry, rd: RunData, n: nat)
    requires Run(w, v1, t, os, e, rd) && n <= |os|
    ensures forall k :: 0 < k < |t[n].log| ==> Traced(t[n].rd, t[n].log[k])
  {
    forall k | 0 < k < |t[n].log| ensures Traced(t[n].rd, t[n].log[k]) {
      LogIsPopped(w, v1, t, os, e, rd, n, k);
      StaysTraced(w, v1, t, os, e, rd, k, n);
    }
  }

  /** Every node that ran had the inputs its recorded sources name, as the finished execution's run data show them. */
  lemma {:induction false} ExecutionTraced(w: Flow, v1: bool, work: Work, e: Entry, rd: RunData)
    requires SubsApart(work) && Find(w.nodes, e.node).Some?
    ensures var end := Loop(w, v1, work, Begin(e, rd)); forall k :: 0 < k < |end.log| ==> Traced(end.rd, end.log[k])
  {
    var watched, os := LoopIsRun(w, v1, work, e, rd);
    WatchedIsRun(w, v1, watched, os, e, rd);
    var t, n := Machines(watched), |os|;
    assert t[n] == End(watched).m;
    LogTraced(w, v1, t, os, e, rd, n);
  }

  /** An execution that nothing cut short used up everything: each delivery sent, and the start's own input, went into
      exactly as many runs' inputs as it was sent. */
  lemma ExecutionConserves(w: Flow, v1: bool, work: Work, e: Entry, rd: RunData)
    returns (t: seq<Watched>, os: seq<Outcome>)
    requires SubsApart(work) && Find(w.nodes, e.node).Some?
    ensures var end := Loop(w, v1, work, Begin(e, rd));
            && WatchedRun(w, v1, t, os, e, rd) && End(t).m == end && !CanPop(end)
            && (!end.over ==> forall q :: HeldAll(end.log, q) == SentTimes(End(t).sent, q) + Held(e, q))
  {
    t, os := LoopIsRun(w, v1, work, e, rd);
    var n := |os|;
    if !t[n].m.over {
      TurnsCounted(w, v1, t, os, e, rd, n);
      forall q ensures HeldAll(t[n].m.log, q) == SentTimes(t[n].sent, q) + Held(e, q) {
        DeliveriesConserved(w, v1, t, os, e, rd, n, q);
      }
    }
  }

  /** An execution from its first entry, with the run it is. */
  method RunFlow(w: Flow, v1: bool, work: Work, start: Entry)
    returns (q: Engine, log: seq<Entry>, left: nat, over: bool, ghost t: seq<Watched>, ghost os: seq<Outcome>)
    requires SubsApart(work) && Find(w.nodes, start.node).Some?
    ensures WatchedRun(w, v1, t, os, start, map[]) && End(t).m == Machine(q.stack, q.waiting, q.rd, log, left, over)
    ensures forall k :: 0 < k < |log| ==> Traced(q.rd, log[k])
    ensures over || (q.stack == [] && q.waiting == [] && forall p ::
        HeldAll(log, p) == SentTimes(End(t).sent, p) + Held(start, p))
  {
    q := new Engine(w, v1, start);
    log, left, over := q.Execute(work);
    ExecutionTraced(w, v1, work, start, map[]);
    t, os := ExecutionConserves(w, v1, work, start, map[]);
  }
}
