/** Time in the hand-off of chat updates (src/telegram_poller.rs): an idle worker gives up only after the idle time, and
    once the poller stops the workers run what they have and leave without waiting. */
module ChatTimes {

  import opened ChatHandOff

  // ---- A worker waits the idle time out -------------------------------------------------------------------------

  /** The `n`-th step of an interleaving. */
  ghost predicate StepAt(idle: nat, gap: nat, ys: seq<Sys>, acts: seq<Action>, n: nat)
    requires n < |acts| < |ys|
  {
    Enabled(idle, gap, ys[n], acts[n]) && ys[n + 1] == Apply(idle, gap, ys[n], acts[n])
  }

  /** The states of an interleaving, one step after the other. */
  ghost predicate Steps(idle: nat, gap: nat, ys: seq<Sys>, acts: seq<Action>) {
    |ys| == |acts| + 1 && ys[0] == INITIAL && forall n: nat :: n < |acts| ==> StepAt(idle, gap, ys, acts, n)
  }

  /** The worker starts waiting with this step. */
  predicate StartsWaiting(a: Action, w: nat) {
    a == Begin(w) || a == Finish(w)
  }

  /** Time does not run back; a worker waits since this step or goes on waiting. */
  ghost predicate GoesOn(y: Sys, a: Action, z: Sys, w: nat) {
    && y.clock <= z.clock && |y.workers| <= |z.workers|
    && (StartsWaiting(a, w) ==> w < |y.workers|)
    && (w < |y.workers| && z.workers[w].phase.Polling? ==>
          if StartsWaiting(a, w) then z.workers[w].phase.since == y.clock
          else y.workers[w].phase == z.workers[w].phase || z.workers[w].phase.since == y.clock)
  }

  lemma ActionGoesOn(idle: nat, gap: nat, y: Sys, a: Action, w: nat)
    requires Enabled(idle, gap, y, a)
    ensures GoesOn(y, a, Apply(idle, gap, y, a), w)
  {
  }

  lemma StepGoesOn(idle: nat, gap: nat, ys: seq<Sys>, acts: seq<Action>, n: nat, w: nat)
    requires Steps(idle, gap, ys, acts) && n < |acts|
    ensures GoesOn(ys[n], acts[n], ys[n + 1], w)
  {
    assert StepAt(idle, gap, ys, acts, n);
    ActionGoesOn(idle, gap, ys[n], acts[n], w);
  }

  lemma {:induction false} ClockRuns(idle: nat, gap: nat, ys: seq<Sys>, acts: seq<Action>, m: nat, n: nat)
    requires Steps(idle, gap, ys, acts) && m <= n <= |acts|
    ensures ys[m].clock <= ys[n].clock && |ys[m].workers| <= |ys[n].workers|
  {
    if m < n {
      ClockRuns(idle, gap, ys, acts, m, n - 1);
      StepGoesOn(idle, gap, ys, acts, n - 1, 0);
    }
  }

  /** A waiting worker remembers when it last started to. */
  lemma {:induction false} WaitingSince(idle: nat, gap: nat, ys: seq<Sys>, acts: seq<Action>, m: nat, n: nat, w: nat)
    requires Steps(idle, gap, ys, acts) && m < n <= |acts| && StartsWaiting(acts[m], w)
    ensures w < |ys[n].workers|
    ensures ys[n].workers[w].phase.Polling? ==> ys[m].clock <= ys[n].workers[w].phase.since
  {
    ClockRuns(idle, gap, ys, acts, m, n - 1);
    if m < n - 1 { WaitingSince(idle, gap, ys, acts, m, n - 1, w); }
    StepGoesOn(idle, gap, ys, acts, n - 1, w);
  }

  /** A worker times out only when it has neither started nor finished a job for the idle time, and then there is no job
      in its channel. */
  lemma {:induction false} QuietBeforeTimeOut(idle: nat, gap: nat, ys: seq<Sys>, acts: seq<Action>, m: nat, n: nat,
      w: nat)
    requires Steps(idle, gap, ys, acts) && m < n < |acts| && StartsWaiting(acts[m], w) && acts[n] == TimeOut(w)
    ensures w < |ys[n].workers| && ys[n].workers[w].queue == []
    ensures ys[n].clock >= ys[m].clock + idle
  {
    assert StepAt(idle, gap, ys, acts, n);
    WaitingSince(idle, gap, ys, acts, m, n, w);
  }

  // ---- After the poller has stopped -----------------------------------------------------------------------------

  /** Neither time passes nor anything is sent, and no worker times out. */
  predicate AtOnce(a: Action) {
    !a.Send? && !a.Place? && !a.Tick? && !a.TimeOut? && !a.Stop?
  }

  ghost predicate AllAtOnce(acts: seq<Action>) {
    forall a :: a in acts ==> AtOnce(a)
  }

  /** How far a worker is from having left. */
  function Distance(x: Worker): nat {
    3 * |x.queue| + match x.phase
                    case Gone => 0
                    case Leaving => 1
                    case Polling(_) => 2
                    case Draining => 2
                    case _ => 3
  }

  /** What the worker does next when nobody sends to it any more. */
  function NextStep(x: Worker, w: nat): Action {
    match x.phase
    case Starting => Begin(w)
    case Closing => Close(w)
    case Busy(_) => Finish(w)
    case Leaving => Exit(w)
    case _ => if x.queue != [] then Take(w) else Leave(w)
  }

  /** Nothing but the worker has changed, and it has had the same jobs sent. */
  ghost predicate OnlyIt(y: Sys, z: Sys, w: nat)
    requires w < |y.workers|
  {
    && z == y.(workers := z.workers) && OnlyWorker(y, z, w) && z.workers[w].sent == y.workers[w].sent
  }

  lemma StoppedStep(idle: nat, gap: nat, y: Sys, w: nat)
    requires Inv(y) && y.stopped && w < |y.workers| && !y.workers[w].phase.Gone?
    ensures var a := NextStep(y.workers[w], w);
            && Enabled(idle, gap, y, a) && AtOnce(a)
            && var z := Apply(idle, gap, y, a);
               Inv(z) && OnlyIt(y, z, w) && Distance(z.workers[w]) < Distance(y.workers[w])
  {
    assert WorkerOk(y, w);
    var a := NextStep(y.workers[w], w);
    StepKeeps(idle, gap, y, a);
    if a.Exit? { NothingThrownAway(idle, gap, y, w); }
  }

  lemma {:induction false} LeaveOne(idle: nat, gap: nat, y: Sys, w: nat) returns (acts: seq<Action>, z: Sys)
    requires Inv(y) && y.stopped && w < |y.workers|
    ensures Leads(idle, gap, y, acts, z) && AllAtOnce(acts) && Inv(z)
    ensures OnlyIt(y, z, w) && z.workers[w].phase.Gone?
    decreases Distance(y.workers[w])
  {
    if y.workers[w].phase.Gone? {
      acts, z := [], y;
    } else {
      StoppedStep(idle, gap, y, w);
      var a := NextStep(y.workers[w], w);
      acts, z := LeaveOne(idle, gap, Apply(idle, gap, y, a), w);
      LeadsStep(idle, gap, y, a, acts, z);
      acts := [a] + acts;
    }
  }

  lemma {:induction false} LeadsOn(idle: nat, gap: nat, x: Sys, before: seq<Action>, y: Sys, acts: seq<Action>, z: Sys)
    requires Leads(idle, gap, x, before, y) && Leads(idle, gap, y, acts, z)
    ensures Leads(idle, gap, x, before + acts, z)
    decreases |before|
  {
    if before == [] {
      assert before + acts == acts;
    } else {
      LeadsOn(idle, gap, Apply(idle, gap, x, before[0]), before[1..], y, acts, z);
      assert (before + acts)[1..] == before[1..] + acts;
    }
  }

  /** The first `k` workers have left; the others are as they were. */
  ghost predicate Left(y: Sys, z: Sys, k: nat)
    requires k <= |y.workers|
  {
    && z == y.(workers := z.workers) && |z.workers| == |y.workers|
    && (forall w :: 0 <= w < k ==> z.workers[w].phase.Gone? && z.workers[w].sent == y.workers[w].sent)
    && forall w :: k <= w < |y.workers| ==> z.workers[w] == y.workers[w]
  }

  lemma {:induction false} LeaveUpTo(idle: nat, gap: nat, y: Sys, k: nat) returns (acts: seq<Action>, z: Sys)
    requires Inv(y) && y.stopped && k <= |y.workers|
    ensures Leads(idle, gap, y, acts, z) && AllAtOnce(acts) && Inv(z) && Left(y, z, k)
  {
    if k == 0 {
      acts, z := [], y;
    } else {
      var before, x := LeaveUpTo(idle, gap, y, k - 1);
      var more;
      more, z := LeaveOne(idle, gap, x, k - 1);
      LeadsOn(idle, gap, y, before, x, more, z);
      acts := before + more;
    }
  }

  /** However far the workers are when the poller stops, they can all leave from there at once, without waiting for the
      idle time, and have then run every job they were sent. */
  lemma StopDrains(idle: nat, gap: nat, y: Sys) returns (acts: seq<Action>, z: Sys)
    requires Reachable(idle, gap, y) && y.stopped
    ensures Leads(idle, gap, y, acts, z) && AllAtOnce(acts)
    ensures z.clock == y.clock && z.lost == y.lost && |z.workers| == |y.workers|
    ensures forall w :: 0 <= w < |z.workers| ==> z.workers[w].phase.Gone? && Ran(z.workers[w]) == y.workers[w].sent
  {
    ReachableKeeps(idle, gap, y);
    acts, z := LeaveUpTo(idle, gap, y, |y.workers|);
    forall w | 0 <= w < |z.workers| ensures Ran(z.workers[w]) == y.workers[w].sent {
      assert WorkerOk(z, w);
    }
  }
}
