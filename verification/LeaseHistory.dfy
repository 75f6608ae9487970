/** Leases, places and sweeps of the Redis queue (src/n8n/queue.rs) from the actions alone: who holds a lease until
    when, how often an id stands in which list, and that a sweep looks at every job. */
module LeaseHistory {

  import opened Workflows
  import opened LeaseQueue
  import opened QueueDuplicates
  import opened QueueOrder

  // ---- Leases ---------------------------------------------------------------------------------------------------

  /** When the job's lease ends, if it has one, by the actions so far: taking it and a worker's heartbeats move the
      end, a sweep gives one only where there is none, an ack and a sweep's removal end it. */
  ghost function LeaseEnd(lease: nat, t: seq<Sys>, acts: seq<Action>, n: nat, id: JobId): Option<int>
    requires n <= |acts| < |t|
  {
    if n == 0 then None
    else
      var before := LeaseEnd(lease, t, acts, n - 1, id);
      var y := t[n - 1];
      match acts[n - 1]
      case LeaseTaken(c, at) => if PhaseOf(y, c) == Leasing(id) then Some(at + lease) else before
      case Heartbeat(c, at) =>
        if before.Some? && PhaseOf(y, c).Working? && PhaseOf(y, c).id == id then Some(at + lease) else before
      case Mark(c, at) =>
        if before.None? && PhaseOf(y, c).Marking? && PhaseOf(y, c).todo != [] && PhaseOf(y, c).todo[0] == id
        then Some(at + lease) else before
      case Unlease(c) =>
        if PhaseOf(y, c).Sweeping? && PhaseOf(y, c).todo != [] && PhaseOf(y, c).todo[0] == id then None else before
      case Ack(c) => if PhaseOf(y, c).Working? && PhaseOf(y, c).id == id then None else before
      case Drop(c) => if PhaseOf(y, c) == Dropping(id) then None else before
      case _ => before
  }

  lemma {:induction false} LeasesAsGranted(lease: nat, t: seq<Sys>, acts: seq<Action>, n: nat, id: JobId)
    requires Trace(lease, t, acts) && n <= |acts|
    ensures LeaseEnd(lease, t, acts, n, id) ==
            if id in t[n].store.leases then Some(t[n].store.leases[id]) else None
  {
    if n > 0 {
      LeasesAsGranted(lease, t, acts, n - 1, id);
      StepAt(lease, t, acts, n - 1);
    }
  }

  /** A sweep lists exactly the jobs whose lease, by the history, is over at the time it read. */
  lemma {:induction false} ListedExactly(lease: nat, t: seq<Sys>, acts: seq<Action>, n: nat, id: JobId)
    requires Trace(lease, t, acts) && n < |acts| && acts[n].ListExpired?
    ensures id in acts[n].ids <==>
              var end := LeaseEnd(lease, t, acts, n, id); end.Some? && end.value <= acts[n].at
  {
    StepAt(lease, t, acts, n);
    LeasesAsGranted(lease, t, acts, n, id);
  }

  /** A client goes on to requeue a job exactly if its own removal ended the lease. */
  lemma RequeuesExactly(lease: nat, t: seq<Sys>, acts: seq<Action>, n: nat)
    requires Trace(lease, t, acts) && n < |acts| && acts[n].Unlease?
    ensures var p, p' := PhaseOf(t[n], acts[n].c), PhaseOf(t[n + 1], acts[n].c);
            && p.Sweeping? && p.todo != []
            && p' == if LeaseEnd(lease, t, acts, n, p.todo[0]).Some? then Requeueing(p.todo[0], p.todo[1..])
                     else Sweeping(p.todo[1..])
  {
    StepAt(lease, t, acts, n);
    LeasesAsGranted(lease, t, acts, n, PhaseOf(t[n], acts[n].c).todo[0]);
  }

  // ---- Places ---------------------------------------------------------------------------------------------------

  function Waiting(y: Sys, id: JobId): nat {
    multiset(y.store.wait)[id]
  }

  function InHand(y: Sys, id: JobId): nat {
    multiset(y.store.active)[id]
  }

  predicate Acks(t: seq<Sys>, acts: seq<Action>, n: nat, id: JobId)
    requires n < |acts| < |t|
  {
    || (acts[n].Ack? && PhaseOf(t[n], acts[n].c).Working? && PhaseOf(t[n], acts[n].c).id == id)
    || (acts[n].Drop? && PhaseOf(t[n], acts[n].c) == Dropping(id))
  }

  function One(b: bool): nat {
    if b then 1 else 0
  }

  lemma {:induction false} WaitingAfter(s: seq<JobId>, x: JobId, id: JobId)
    ensures multiset([x] + s)[id] == multiset(s + [x])[id] == multiset(s)[id] + One(x == id)
  {
    assert multiset([x] + s) == multiset{x} + multiset(s) == multiset(s + [x]);
  }

  lemma {:induction false} WithoutOne(s: seq<JobId>, x: JobId, id: JobId)
    ensures multiset(RemoveFirst(s, x))[id] + One(x == id && multiset(s)[id] > 0) == multiset(s)[id]
  {
    RemoveFirstCount(s, x);
  }

  lemma TakenFromWait(y: Sys, id: JobId)
    requires y.store.wait != []
    ensures var wait := y.store.wait;
            multiset(wait[..|wait| - 1])[id] + One(wait[|wait| - 1] == id) == multiset(wait)[id]
  {
    var wait := y.store.wait;
    WaitingAfter(wait[..|wait| - 1], wait[|wait| - 1], id);
    assert wait == wait[..|wait| - 1] + [wait[|wait| - 1]];
  }

  /** Who joins and leaves the waiting list, and where; what is taken stands first among the active. */
  lemma WaitAfter(lease: nat, y: Sys, a: Action)
    requires Enabled(lease, y, a)
    ensures var wait, wait' := y.store.wait, Apply(lease, y, a).store.wait;
            && (a.Push? ==> wait' == [a.id] + wait)
            && (a.PutBack? ==> wait' == wait + [PhaseOf(y, a.c).id])
            && (a.Take? ==> wait' == wait[..|wait| - 1])
            && (a.Take? ==> Apply(lease, y, a).store.active == [wait[|wait| - 1]] + y.store.active)
            && (!a.Push? && !a.PutBack? && !a.Take? ==> wait' == wait)
  {
  }

  /** An id comes to wait once with its push and with each put-back, and stops with each take. */
  lemma WaitingStep(lease: nat, t: seq<Sys>, acts: seq<Action>, n: nat, id: JobId)
    requires Trace(lease, t, acts) && n < |acts|
    ensures Waiting(t[n + 1], id) + One(Takes(t, acts, n, id)) ==
            Waiting(t[n], id) + One(Pushes(acts, n, id)) + One(PutsBack(t, acts, n, id))
  {
    StepAt(lease, t, acts, n);
    WaitAfter(lease, t[n], acts[n]);
    match acts[n]
    case Push(_, x, _) => WaitingAfter(t[n].store.wait, x, id);
    case PutBack(c) => WaitingAfter(t[n].store.wait, PhaseOf(t[n], c).id, id);
    case Take(_) => TakenFromWait(t[n], id);
    case _ =>
  }

  /** It comes in hand with each take, and one place of it goes with each ack and put-back that finds one. */
  lemma InHandStep(lease: nat, t: seq<Sys>, acts: seq<Action>, n: nat, id: JobId)
    requires Trace(lease, t, acts) && n < |acts|
    ensures InHand(t[n + 1], id) + One((Acks(t, acts, n, id) || PutsBack(t, acts, n, id)) && InHand(t[n], id) > 0) ==
            InHand(t[n], id) + One(Takes(t, acts, n, id))
  {
    StepAt(lease, t, acts, n);
    var active := t[n].store.active;
    match acts[n]
    case Take(_) => WaitingAfter(active, t[n].store.wait[|t[n].store.wait| - 1], id);
    case PutBack(c) => WithoutOne(active, PhaseOf(t[n], c).id, id);
    case Ack(c) => WithoutOne(active, PhaseOf(t[n], c).id, id);
    case Drop(c) => WithoutOne(active, PhaseOf(t[n], c).id, id);
    case _ =>
  }

  // ---- Sweeps ---------------------------------------------------------------------------------------------------

  /** The client marks the job, or removes its lease. */
  ghost predicate Visits(t: seq<Sys>, acts: seq<Action>, k: nat, c: nat, id: JobId)
    requires k < |acts| < |t|
  {
    var p := PhaseOf(t[k], c);
    && (acts[k].Mark? || acts[k].Unlease?) && acts[k].c == c
    && (p.Marking? || p.Sweeping?) && p.todo != [] && p.todo[0] == id && (p.Marking? <==> acts[k].Mark?)
  }

  ghost predicate VisitedBy(t: seq<Sys>, acts: seq<Action>, i: nat, n: nat, c: nat, id: JobId)
    requires n <= |acts| < |t|
  {
    exists k :: i <= k < n && Visits(t, acts, k, c, id)
  }

  /** The first `done` jobs of the list are done, the others left to do. */
  ghost predicate LeftTo(p: Phase, ids: seq<JobId>, marking: bool, done: nat) {
    && done <= |ids|
    && (if marking then p == Marking(ids[done..])
        else p == Sweeping(ids[done..]) || (done > 0 && p == Requeueing(ids[done - 1], ids[done..])))
  }

  /** The first `done` jobs of the list have been visited. */
  ghost predicate SoFar(t: seq<Sys>, acts: seq<Action>, i: nat, n: nat, c: nat, ids: seq<JobId>, marking: bool,
      done: nat)
    requires n <= |acts| < |t|
  {
    LeftTo(PhaseOf(t[n], c), ids, marking, done) && forall j :: 0 <= j < done ==> VisitedBy(t, acts, i, n, c, ids[j])
  }

  predicate IsVisit(a: Action, c: nat) {
    (a.Mark? || a.Unlease?) && a.c == c
  }

  lemma OneLess(lease: nat, y: Sys, a: Action, c: nat, ids: seq<JobId>, marking: bool, done: nat)
    requires Enabled(lease, y, a) && LeftTo(PhaseOf(y, c), ids, marking, done)
    requires a != Crash(c) && a != EndSweep(c) && !(a.ListExpired? && a.c == c)
    ensures LeftTo(PhaseOf(Apply(lease, y, a), c), ids, marking, if IsVisit(a, c) then done + 1 else done)
    ensures IsVisit(a, c) ==> done < |ids| && PhaseOf(y, c).todo != [] && PhaseOf(y, c).todo[0] == ids[done]
  {
    if IsVisit(a, c) { assert ids[done..][0] == ids[done] && ids[done..][1..] == ids[done + 1..]; }
  }

  lemma OneMore(lease: nat, t: seq<Sys>, acts: seq<Action>, i: nat, n: nat, c: nat, ids: seq<JobId>, marking: bool,
      done: nat) returns (next: nat)
    requires Trace(lease, t, acts) && i <= n < |acts| && SoFar(t, acts, i, n, c, ids, marking, done)
    requires acts[n] != Crash(c) && acts[n] != EndSweep(c) && !(acts[n].ListExpired? && acts[n].c == c)
    ensures SoFar(t, acts, i, n + 1, c, ids, marking, next)
  {
    StepAt(lease, t, acts, n);
    next := if IsVisit(acts[n], c) then done + 1 else done;
    OneLess(lease, t[n], acts[n], c, ids, marking, done);
    forall j | 0 <= j < next ensures VisitedBy(t, acts, i, n + 1, c, ids[j]) {
      if j < done {
        assert VisitedBy(t, acts, i, n, c, ids[j]);
      } else {
        assert Visits(t, acts, n, c, ids[j]);
      }
    }
  }

  /** From `i` to `n` the client neither crashes nor finishes its list. */
  ghost predicate Onward(acts: seq<Action>, i: nat, n: nat, c: nat) {
    forall k :: i <= k < n && k < |acts| ==>
      acts[k] != Crash(c) && acts[k] != EndSweep(c) && !(acts[k].ListExpired? && acts[k].c == c)
  }

  lemma {:induction false} Progress(lease: nat, t: seq<Sys>, acts: seq<Action>, i: nat, n: nat, c: nat,
      ids: seq<JobId>, marking: bool) returns (done: nat)
    requires Trace(lease, t, acts) && i <= n <= |acts| && Onward(acts, i, n, c)
    requires PhaseOf(t[i], c) == if marking then Marking(ids) else Sweeping(ids)
    ensures SoFar(t, acts, i, n, c, ids, marking, done)
    decreases n
  {
    if n == i {
      done := 0;
      assert ids[0..] == ids;
    } else {
      var before := Progress(lease, t, acts, i, n - 1, c, ids, marking);
      done := OneMore(lease, t, acts, i, n - 1, c, ids, marking, before);
    }
  }

  /** Before a sweep asks for expired leases it has offered one to every job that was in hand when it began. */
  lemma SweepMarksAll(lease: nat, t: seq<Sys>, acts: seq<Action>, i: nat, n: nat, c: nat, id: JobId)
    requires Trace(lease, t, acts) && i < n < |acts| && acts[i] == StartSweep(c)
    requires acts[n].ListExpired? && acts[n].c == c && Onward(acts, i + 1, n, c) && InHand(t[i], id) > 0
    ensures exists k :: i < k < n && acts[k].Mark? && Visits(t, acts, k, c, id)
  {
    StepAt(lease, t, acts, i);
    StepAt(lease, t, acts, n);
    var ids := t[i].store.active;
    var done := Progress(lease, t, acts, i + 1, n, c, ids, true);
    NotListed(ids, id);
    var j :| 0 <= j < |ids| && ids[j] == id;
    assert VisitedBy(t, acts, i + 1, n, c, ids[j]);
    var k :| i + 1 <= k < n && Visits(t, acts, k, c, id);
    var before := Progress(lease, t, acts, i + 1, k, c, ids, true);
  }

  /** Before it ends a sweep has tried to remove the lease of every job it listed. */
  lemma SweepTriesAll(lease: nat, t: seq<Sys>, acts: seq<Action>, i: nat, n: nat, c: nat, id: JobId)
    requires Trace(lease, t, acts) && i < n < |acts| && acts[i].ListExpired? && acts[i].c == c && id in acts[i].ids
    requires acts[n] == EndSweep(c) && Onward(acts, i + 1, n, c)
    ensures exists k :: i < k < n && acts[k].Unlease? && Visits(t, acts, k, c, id)
  {
    StepAt(lease, t, acts, i);
    StepAt(lease, t, acts, n);
    var ids := acts[i].ids;
    var done := Progress(lease, t, acts, i + 1, n, c, ids, false);
    var j :| 0 <= j < |ids| && ids[j] == id;
    assert VisitedBy(t, acts, i + 1, n, c, ids[j]);
    var k :| i + 1 <= k < n && Visits(t, acts, k, c, id);
    var before := Progress(lease, t, acts, i + 1, k, c, ids, false);
  }
}
