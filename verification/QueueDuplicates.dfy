/** When a job is queued twice (`requeue_expired` and `pop`, src/n8n/queue.rs). "Only the process that removes the lease
    requeues the job" does not keep a job single: the requeue's LREM may find nothing, and still the id is pushed. */
module QueueDuplicates {

  import opened LeaseQueue

  /** No id is held twice, be it in one list or in both. */
  ghost predicate Single(s: Store) {
    forall id :: multiset(s.wait)[id] + multiset(s.active)[id] <= 1
  }

  /** The client puts back a job that is no longer active and waits already: the LREM removes nothing. */
  predicate PutsBackAgain(y: Sys, a: Action) {
    a.PutBack? && PhaseOf(y, a.c).Requeueing? && PhaseOf(y, a.c).id !in y.store.active &&
      PhaseOf(y, a.c).id in y.store.wait
  }

  // ---- Exactly the put-backs that find nothing ------------------------------------------------------------------

  lemma {:induction false} RemoveFirstCount(s: seq<JobId>, id: JobId)
    ensures multiset(RemoveFirst(s, id)) == multiset(s) - multiset{id}
  {
    if s != [] {
      assert s == [s[0]] + s[1..];
      if s[0] != id {
        RemoveFirstCount(s[1..], id);
      }
    }
  }

  lemma NotListed(s: seq<JobId>, id: JobId)
    ensures multiset(s)[id] == 0 <==> id !in s
  {
    assert id in s <==> id in multiset(s);
  }

  lemma PushKeepsSingle(s: Store, id: JobId, payload: string)
    requires Single(s) && id !in s.wait && id !in s.active
    ensures Single(PushJob(s, id, payload))
  {
    NotListed(s.wait, id);
    NotListed(s.active, id);
    assert multiset([id] + s.wait) == multiset{id} + multiset(s.wait);
    forall x ensures multiset([id] + s.wait)[x] + multiset(s.active)[x] <= 1 {
      assert multiset(s.wait)[x] + multiset(s.active)[x] <= 1;
    }
  }

  lemma MoveKeepsSingle(s: Store)
    requires Single(s) && s.wait != []
    ensures Single(MoveNext(s))
  {
    var front, last := s.wait[..|s.wait| - 1], s.wait[|s.wait| - 1];
    assert s.wait == front + [last];
    assert multiset(s.wait) == multiset(front) + multiset{last};
    assert multiset([last] + s.active) == multiset{last} + multiset(s.active);
    forall x ensures multiset(front)[x] + multiset([last] + s.active)[x] <= 1 {
      assert multiset(s.wait)[x] + multiset(s.active)[x] <= 1;
    }
  }

  lemma AckKeepsSingle(s: Store, id: JobId)
    requires Single(s)
    ensures Single(AckJob(s, id))
  {
    RemoveFirstCount(s.active, id);
    forall x ensures multiset(s.wait)[x] + multiset(RemoveFirst(s.active, id))[x] <= 1 {
      assert multiset(s.wait)[x] + multiset(s.active)[x] <= 1;
    }
  }

  lemma RequeueCounts(s: Store, id: JobId, x: JobId)
    ensures multiset(Requeue(s, id).wait)[x] == multiset(s.wait)[x] + if x == id then 1 else 0
    ensures multiset(Requeue(s, id).active)[x] == multiset(s.active)[x] - if x == id && id in s.active then 1 else 0
  {
    RemoveFirstCount(s.active, id);
    NotListed(s.active, id);
    assert multiset(s.wait + [id]) == multiset(s.wait) + multiset{id};
  }

  lemma RequeueKeepsSingle(s: Store, id: JobId)
    requires Single(s)
    ensures Single(Requeue(s, id)) <==> id in s.active || id !in s.wait
  {
    NotListed(s.wait, id);
    NotListed(s.active, id);
    forall x ensures x != id || id in s.active || id !in s.wait ==>
        multiset(Requeue(s, id).wait)[x] + multiset(Requeue(s, id).active)[x] <= 1
    {
      RequeueCounts(s, id, x);
      assert multiset(s.wait)[x] + multiset(s.active)[x] <= 1;
    }
    RequeueCounts(s, id, id);
  }

  lemma SingleStep(lease: nat, y: Sys, a: Action)
    requires Inv(lease, y) && Enabled(lease, y, a) && Single(y.store)
    ensures Single(Apply(lease, y, a).store) <==> !PutsBackAgain(y, a)
  {
    match a
    case Push(_, id, payload) => PushKeepsSingle(y.store, id, payload);
    case Take(_) => MoveKeepsSingle(y.store);
    case Drop(c) => AckKeepsSingle(y.store, PhaseOf(y, c).id);
    case Ack(c) => AckKeepsSingle(y.store, PhaseOf(y, c).id);
    case PutBack(c) => RequeueKeepsSingle(y.store, PhaseOf(y, c).id);
    case _ => assert Apply(lease, y, a).store.wait == y.store.wait && Apply(lease, y, a).store.active == y.store.active;
  }

  ghost predicate AllSingle(t: seq<Sys>) {
    forall n :: 0 <= n < |t| ==> Single(t[n].store)
  }

  lemma StepOf(lease: nat, t: seq<Sys>, acts: seq<Action>, n: nat)
    requires Trace(lease, t, acts) && n < |acts|
    ensures Inv(lease, t[n]) && Enabled(lease, t[n], acts[n]) && t[n + 1] == Apply(lease, t[n], acts[n])
  {
    TraceKeeps(lease, t, acts, n);
  }

  lemma {:induction false} SingleUpTo(lease: nat, t: seq<Sys>, acts: seq<Action>, n: nat)
    requires Trace(lease, t, acts) && n < |t|
    requires forall k :: 0 <= k < |acts| ==> !PutsBackAgain(t[k], acts[k])
    ensures Single(t[n].store)
  {
    if n > 0 {
      SingleUpTo(lease, t, acts, n - 1);
      StepOf(lease, t, acts, n - 1);
      SingleStep(lease, t[n - 1], acts[n - 1]);
    }
  }

  /** In every run, no job is ever held twice exactly when no client puts a job back that waits and is not active. */
  lemma SingleIff(lease: nat, t: seq<Sys>, acts: seq<Action>)
    requires Trace(lease, t, acts)
    ensures AllSingle(t) <==> forall n :: 0 <= n < |acts| ==> !PutsBackAgain(t[n], acts[n])
  {
    if AllSingle(t) {
      forall n | 0 <= n < |acts| ensures !PutsBackAgain(t[n], acts[n]) {
        StepOf(lease, t, acts, n);
        SingleStep(lease, t[n], acts[n]);
      }
    } else {
      var n :| 0 <= n < |t| && !Single(t[n].store);
      if forall k :: 0 <= k < |acts| ==> !PutsBackAgain(t[k], acts[k]) { SingleUpTo(lease, t, acts, n); }
    }
  }

  // ---- Where it starts: a lease for a job that is on its way back -----------------------------------------------

  predicate Requeues(p: Phase, id: JobId) {
    p.Requeueing? && p.id == id
  }

  ghost predicate BeingRequeued(y: Sys, id: JobId) {
    exists c :: Requeues(PhaseOf(y, c), id)
  }

  /** The id a command puts under a lease. */
  predicate Leases(y: Sys, a: Action, id: JobId) {
    match a
    case LeaseTaken(c, _) => PhaseOf(y, c) == Leasing(id)
    case Mark(c, _) => PhaseOf(y, c).Marking? && PhaseOf(y, c).todo != [] && PhaseOf(y, c).todo[0] == id
    case _ => false
  }

  /** A new lease goes to a job that neither waits nor is being requeued. */
  ghost predicate LeasesSafely(y: Sys, a: Action) {
    forall id :: Leases(y, a, id) && id !in y.store.leases ==> id !in y.store.wait && !BeingRequeued(y, id)
  }

  /** A leased job does not wait and nobody requeues it; a job is requeued by one client at most, and does not
      wait meanwhile. */
  ghost predicate Clean(y: Sys) {
    && Single(y.store)
    && (forall id :: id in y.store.leases ==> id !in y.store.wait && !BeingRequeued(y, id))
    && (forall c, id :: Requeues(PhaseOf(y, c), id) ==> id !in y.store.wait)
    && forall c, d, id :: Requeues(PhaseOf(y, c), id) && Requeues(PhaseOf(y, d), id) ==> c == d
  }

  lemma CleanStep(lease: nat, y: Sys, a: Action)
    requires Inv(lease, y) && Enabled(lease, y, a) && Clean(y) && LeasesSafely(y, a)
    ensures Clean(Apply(lease, y, a))
  {
    var y' := Apply(lease, y, a);
    SingleStep(lease, y, a);
    forall id | id in y'.store.leases ensures id !in y'.store.wait && !BeingRequeued(y', id) {
      CleanLease(lease, y, a, id);
    }
    forall c, id | Requeues(PhaseOf(y', c), id) ensures id !in y'.store.wait { CleanWait(lease, y, a, c, id); }
    forall c, d, id | Requeues(PhaseOf(y', c), id) && Requeues(PhaseOf(y', d), id) ensures c == d {
      OneRequeues(lease, y, a, c, d, id);
    }
  }

  lemma KnownRequeue(lease: nat, y: Sys, c: nat, id: JobId)
    requires Inv(lease, y) && Requeues(PhaseOf(y, c), id)
    ensures id in y.jobs
  {
    assert PhaseKnown(y, y.clients[c]);
  }

  /** What can be requeued after a step: what was before, or the job whose lease the step removed. */
  lemma RequeuesAfter(lease: nat, y: Sys, a: Action, c: nat, id: JobId)
    requires Enabled(lease, y, a)
    ensures Requeues(PhaseOf(Apply(lease, y, a), c), id) ==>
              && (Requeues(PhaseOf(y, c), id)
                  || (a == Unlease(c) && id in y.store.leases && id == PhaseOf(y, c).todo[0]))
              && a != PutBack(c)
  {
  }

  lemma WaitsAfter(lease: nat, y: Sys, a: Action, id: JobId)
    requires Enabled(lease, y, a)
    ensures id in Apply(lease, y, a).store.wait ==>
              id in y.store.wait || (a.Push? && a.id == id && id !in y.jobs) ||
                (a.PutBack? && Requeues(PhaseOf(y, a.c), id))
  {
  }

  lemma LeasedAfter(lease: nat, y: Sys, a: Action, id: JobId)
    requires Enabled(lease, y, a) && id in Apply(lease, y, a).store.leases
    ensures id in y.store.leases || Leases(y, a, id)
    ensures !(a.Unlease? && PhaseOf(y, a.c).todo[0] == id)
  {
  }

  lemma CleanLease(lease: nat, y: Sys, a: Action, id: JobId)
    requires Inv(lease, y) && Enabled(lease, y, a) && Clean(y) && LeasesSafely(y, a)
    requires id in Apply(lease, y, a).store.leases
    ensures id !in Apply(lease, y, a).store.wait && !BeingRequeued(Apply(lease, y, a), id)
  {
    var y' := Apply(lease, y, a);
    LeasedAfter(lease, y, a, id);
    assert id !in y.store.wait && !BeingRequeued(y, id);
    WaitsAfter(lease, y, a, id);
    forall c ensures !Requeues(PhaseOf(y', c), id) { RequeuesAfter(lease, y, a, c, id); }
  }

  lemma CleanWait(lease: nat, y: Sys, a: Action, c: nat, id: JobId)
    requires Inv(lease, y) && Enabled(lease, y, a) && Clean(y) && Requeues(PhaseOf(Apply(lease, y, a), c), id)
    ensures id !in Apply(lease, y, a).store.wait
  {
    RequeuesAfter(lease, y, a, c, id);
    if Requeues(PhaseOf(y, c), id) { KnownRequeue(lease, y, c, id); }
    WaitsAfter(lease, y, a, id);
  }

  lemma OneRequeues(lease: nat, y: Sys, a: Action, c: nat, d: nat, id: JobId)
    requires Enabled(lease, y, a) && Clean(y)
    requires Requeues(PhaseOf(Apply(lease, y, a), c), id) && Requeues(PhaseOf(Apply(lease, y, a), d), id)
    ensures c == d
  {
    RequeuesAfter(lease, y, a, c, id);
    RequeuesAfter(lease, y, a, d, id);
    if id in y.store.leases {
      assert !BeingRequeued(y, id);
    }
  }

  lemma {:induction false} CleanUpTo(lease: nat, t: seq<Sys>, acts: seq<Action>, n: nat)
    requires Trace(lease, t, acts) && n < |t| && forall k :: 0 <= k < |acts| ==> LeasesSafely(t[k], acts[k])
    ensures Clean(t[n])
  {
    if n > 0 {
      CleanUpTo(lease, t, acts, n - 1);
      StepOf(lease, t, acts, n - 1);
      CleanStep(lease, t[n - 1], acts[n - 1]);
    }
  }

  /** No job is ever held twice when new leases only go to jobs that neither wait nor are being requeued. */
  lemma SafeLeasesKeepSingle(lease: nat, t: seq<Sys>, acts: seq<Action>)
    requires Trace(lease, t, acts) && forall k :: 0 <= k < |acts| ==> LeasesSafely(t[k], acts[k])
    ensures AllSingle(t)
  {
    forall n | 0 <= n < |t| ensures Single(t[n].store) { CleanUpTo(lease, t, acts, n); }
  }

  // ---- And every other lease leads there ------------------------------------------------------------------------

  lemma Extend(lease: nat, t: seq<Sys>, acts: seq<Action>, a: Action)
    requires Trace(lease, t, acts) && Enabled(lease, t[|t| - 1], a)
    ensures Trace(lease, t + [Apply(lease, t[|t| - 1], a)], acts + [a])
  {
    var t', acts' := t + [Apply(lease, t[|t| - 1], a)], acts + [a];
    forall n | 0 <= n < |acts'| ensures Enabled(lease, t'[n], acts'[n]) && t'[n + 1] == Apply(lease, t'[n], acts'[n]) {
      if n < |acts| { assert t'[n] == t[n] && t'[n + 1] == t[n + 1] && acts'[n] == acts[n]; }
    }
  }

  /** A run that goes on from another. */
  ghost predicate GoesOn(acts: seq<Action>, acts': seq<Action>) {
    |acts| <= |acts'| && acts'[..|acts|] == acts
  }

  /** The lists and the other clients are as they were, and the lease still stands. */
  ghost predicate OnlySwept(y: Sys, y': Sys, c: nat, id: JobId) {
    && y'.store.wait == y.store.wait && y'.store.active == y.store.active
    && (forall d :: d != c ==> PhaseOf(y', d) == PhaseOf(y, d))
    && (id in y.store.leases ==> id in y'.store.leases)
  }

  lemma {:induction false} MarkAll(lease: nat, t: seq<Sys>, acts: seq<Action>, c: nat, id: JobId)
    returns (t': seq<Sys>, acts': seq<Action>)
    requires Trace(lease, t, acts) && PhaseOf(t[|t| - 1], c).Marking?
    ensures Trace(lease, t', acts') && GoesOn(acts, acts') && OnlySwept(t[|t| - 1], t'[|t'| - 1], c, id)
    ensures PhaseOf(t'[|t'| - 1], c) == Marking([])
    decreases |PhaseOf(t[|t| - 1], c).todo|
  {
    var y := t[|t| - 1];
    if PhaseOf(y, c).todo == [] {
      t', acts' := t, acts;
    } else {
      Extend(lease, t, acts, Mark(c, y.clock));
      t', acts' := MarkAll(lease, t + [Apply(lease, y, Mark(c, y.clock))], acts + [Mark(c, y.clock)], c, id);
      assert acts'[..|acts|] == acts'[..|acts| + 1][..|acts|];
    }
  }

  lemma {:induction false} ListFrom(s: set<JobId>) returns (ids: seq<JobId>)
    ensures Lists(ids, s)
    decreases |s|
  {
    if s == {} {
      ids := [];
    } else {
      var id :| id in s;
      var rest := ListFrom(s - {id});
      ids := [id] + rest;
    }
  }

  /** The client has removed the job's lease and not put it back; the lists and the other clients are as they were. */
  ghost predicate SweptUpTo(y: Sys, y': Sys, c: nat, id: JobId) {
    && y'.store.wait == y.store.wait && y'.store.active == y.store.active
    && (forall d :: d != c ==> PhaseOf(y', d) == PhaseOf(y, d)) && Requeues(PhaseOf(y', c), id)
  }

  /** Once all leases have run out they are listed, this one first. */
  lemma ListFirst(lease: nat, t: seq<Sys>, acts: seq<Action>, c: nat, id: JobId, ids: seq<JobId>)
    returns (t': seq<Sys>, acts': seq<Action>)
    requires Trace(lease, t, acts) && PhaseOf(t[|t| - 1], c) == Marking([]) && Lists(ids, t[|t| - 1].store.leases.Keys)
    ensures Trace(lease, t', acts') && GoesOn(acts, acts') && OnlySwept(t[|t| - 1], t'[|t'| - 1], c, id)
    ensures PhaseOf(t'[|t'| - 1], c) == Sweeping(ids)
  {
    var y := t[|t| - 1];
    TraceKeeps(lease, t, acts, |t| - 1);
    Extend(lease, t, acts, Tick(lease));
    var y1 := Apply(lease, y, Tick(lease));
    assert Expired(y1.store, y1.clock) == y.store.leases.Keys;
    var list := ListExpired(c, y1.clock, ids);
    Extend(lease, t + [y1], acts + [Tick(lease)], list);
    t', acts' := t + [y1] + [Apply(lease, y1, list)], acts + [Tick(lease)] + [list];
  }

  /** A client that sweeps after all leases ran out takes this one first. */
  lemma SweepTakes(lease: nat, t: seq<Sys>, acts: seq<Action>, c: nat, id: JobId)
    returns (t': seq<Sys>, acts': seq<Action>)
    requires Trace(lease, t, acts) && PhaseOf(t[|t| - 1], c) == Marking([]) && id in t[|t| - 1].store.leases
    ensures Trace(lease, t', acts') && GoesOn(acts, acts') && SweptUpTo(t[|t| - 1], t'[|t'| - 1], c, id)
  {
    var rest := ListFrom(t[|t| - 1].store.leases.Keys - {id});
    var t1, acts1 := ListFirst(lease, t, acts, c, id, [id] + rest);
    Extend(lease, t1, acts1, Unlease(c));
    t', acts' := t1 + [Apply(lease, t1[|t1| - 1], Unlease(c))], acts1 + [Unlease(c)];
    assert acts'[..|acts|] == acts1[..|acts|];
  }

  /** An idle client's whole sweep, up to the moment the lease is gone and the job not yet back. */
  lemma Sweep(lease: nat, t: seq<Sys>, acts: seq<Action>, c: nat, id: JobId)
    returns (t': seq<Sys>, acts': seq<Action>)
    requires Trace(lease, t, acts) && PhaseOf(t[|t| - 1], c).Idle? && id in t[|t| - 1].store.leases
    ensures Trace(lease, t', acts') && GoesOn(acts, acts') && SweptUpTo(t[|t| - 1], t'[|t'| - 1], c, id)
  {
    var y := t[|t| - 1];
    Extend(lease, t, acts, StartSweep(c));
    var t1, acts1 := t + [Apply(lease, y, StartSweep(c))], acts + [StartSweep(c)];
    var t2, acts2 := MarkAll(lease, t1, acts1, c, id);
    t', acts' := SweepTakes(lease, t2, acts2, c, id);
    assert acts'[..|acts|] == acts'[..|acts2|][..|acts1|][..|acts|];
  }

  lemma {:induction false} FreshClient(s: set<nat>) returns (c: nat)
    ensures c !in s && forall d :: d in s ==> d < c
    decreases |s|
  {
    if s == {} {
      c := 0;
    } else {
      var d :| d in s;
      c := FreshClient(s - {d});
      assert forall e :: e in s ==> e == d || e in s - {d};
      if c <= d { c := d + 1; }
    }
  }

  lemma PutBackWaits(lease: nat, t: seq<Sys>, acts: seq<Action>, c: nat, id: JobId)
    requires Trace(lease, t, acts) && Requeues(PhaseOf(t[|t| - 1], c), id)
    ensures var y, y' := t[|t| - 1], Apply(lease, t[|t| - 1], PutBack(c));
            && Trace(lease, t + [y'], acts + [PutBack(c)])
            && (forall d :: d != c ==> PhaseOf(y', d) == PhaseOf(y, d)) && id in y'.store.wait
            && (id in y.store.wait && id !in y.store.active ==> !Single(y'.store))
  {
    var y := t[|t| - 1];
    Extend(lease, t, acts, PutBack(c));
    RequeueCounts(y.store, id, id);
    NotListed(y.store.wait, id);
  }

  /** A client about to put back a job that waits: the job is held twice already, or will be. */
  lemma PutBackDoubles(lease: nat, t: seq<Sys>, acts: seq<Action>, c: nat, id: JobId)
    returns (t': seq<Sys>, acts': seq<Action>)
    requires Trace(lease, t, acts) && Requeues(PhaseOf(t[|t| - 1], c), id) && id in t[|t| - 1].store.wait
    ensures Trace(lease, t', acts') && GoesOn(acts, acts') && !Single(t'[|t'| - 1].store)
  {
    t', acts' := t, acts;
    if Single(t[|t| - 1].store) {
      HeldOnce(t[|t| - 1].store, id);
      PutBackWaits(lease, t, acts, c, id);
      t', acts' := t + [Apply(lease, t[|t| - 1], PutBack(c))], acts + [PutBack(c)];
    }
  }

  /** Once a job is leased that waits or is being requeued, some continuation of the run holds it twice. */
  lemma LeasedBackDoubles(lease: nat, t: seq<Sys>, acts: seq<Action>, id: JobId)
    returns (t': seq<Sys>, acts': seq<Action>)
    requires Trace(lease, t, acts) && id in t[|t| - 1].store.leases
    requires id in t[|t| - 1].store.wait || BeingRequeued(t[|t| - 1], id)
    ensures Trace(lease, t', acts') && GoesOn(acts, acts') && !Single(t'[|t'| - 1].store)
  {
    var y := t[|t| - 1];
    var c := FreshClient(y.clients.Keys);
    var t1, acts1 := Sweep(lease, t, acts, c, id);
    if id in y.store.wait {
      t', acts' := PutBackDoubles(lease, t1, acts1, c, id);
      assert acts'[..|acts|] == acts'[..|acts1|][..|acts|];
    } else {
      var d :| Requeues(PhaseOf(y, d), id);
      PutBackWaits(lease, t1, acts1, d, id);
      var t2, acts2 := t1 + [Apply(lease, t1[|t1| - 1], PutBack(d))], acts1 + [PutBack(d)];
      t', acts' := PutBackDoubles(lease, t2, acts2, c, id);
      assert acts'[..|acts|] == acts'[..|acts2|][..|acts1|][..|acts|];
    }
  }

  lemma HeldOnce(s: Store, id: JobId)
    requires Single(s) && id in s.wait
    ensures id !in s.active
  {
    NotListed(s.wait, id);
    NotListed(s.active, id);
  }

  /** So the condition on leases is exact: after a step that breaks it some continuation holds a job twice. */
  lemma UnsafeLeaseDoubles(lease: nat, t: seq<Sys>, acts: seq<Action>, a: Action)
    returns (t': seq<Sys>, acts': seq<Action>)
    requires Trace(lease, t, acts) && Enabled(lease, t[|t| - 1], a) && !LeasesSafely(t[|t| - 1], a)
    ensures Trace(lease, t', acts') && GoesOn(acts + [a], acts') && !Single(t'[|t'| - 1].store)
  {
    var y := t[|t| - 1];
    var id :| Leases(y, a, id) && id !in y.store.leases && (id in y.store.wait || BeingRequeued(y, id));
    var y1 := Apply(lease, y, a);
    Extend(lease, t, acts, a);
    if BeingRequeued(y, id) {
      var d :| Requeues(PhaseOf(y, d), id);
      assert Requeues(PhaseOf(y1, d), id);
    }
    t', acts' := LeasedBackDoubles(lease, t + [y1], acts + [a], id);
  }

  // ---- Two ways to get there ------------------------------------------------------------------------------------

  lemma Then(lease: nat, t: seq<Sys>, acts: seq<Action>, a: Action, y': Sys)
    requires Trace(lease, t, acts) && Enabled(lease, t[|t| - 1], a) && Apply(lease, t[|t| - 1], a) == y'
    ensures Trace(lease, t + [y'], acts + [a])
  {
    Extend(lease, t, acts, a);
  }

  const JOB := map[0 := "job"]

  function OneActive(leases: map<JobId, int>, clients: map<nat, Phase>, clock: int): Sys {
    Sys(Store(JOB, [], [0], leases), clients, clock, JOB, {})
  }

  /** A job is pushed and worker 1 takes it. */
  lemma TakenByOne(lease: nat) returns (t: seq<Sys>)
    ensures Trace(lease, t, [Push(0, 0, "job"), Take(1)]) && t[|t| - 1] == OneActive(map[], map[1 := Leasing(0)], 0)
  {
    var y1 := Sys(Store(JOB, [0], [], map[]), map[], 0, JOB, {});
    var y2 := OneActive(map[], map[1 := Leasing(0)], 0);
    Then(lease, [INITIAL], [], Push(0, 0, "job"), y1);
    Then(lease, [INITIAL] + [y1], [] + [Push(0, 0, "job")], Take(1), y2);
    t := [INITIAL] + [y1] + [y2];
    assert [] + [Push(0, 0, "job")] + [Take(1)] == [Push(0, 0, "job"), Take(1)];
  }

  function SweepOfTwo(lease: nat): seq<Action> {
    [StartSweep(2), Mark(2, 0), Tick(lease), ListExpired(2, lease, [0]), Unlease(2)]
  }

  /** Client 2 sweeps, up to the moment it has removed the job's lease. */
  lemma SweptByTwo(lease: nat, t: seq<Sys>, acts: seq<Action>, p: Phase) returns (t': seq<Sys>)
    requires Trace(lease, t, acts)
    requires t[|t| - 1] == OneActive(map[], map[1 := p], 0) || t[|t| - 1] == OneActive(map[0 := lease], map[1 := p], 0)
    ensures Trace(lease, t', acts + SweepOfTwo(lease))
    ensures t'[|t'| - 1] == OneActive(map[], map[1 := p, 2 := Requeueing(0, [])], lease)
  {
    var y1 := Apply(lease, t[|t| - 1], StartSweep(2));
    Then(lease, t, acts, StartSweep(2), y1);
    assert PhaseOf(y1, 2) == Marking([0]) && [0][1..] == [];
    var y2 := OneActive(map[0 := lease], map[1 := p, 2 := Marking([])], 0);
    var acts1 := acts + [StartSweep(2)];
    Then(lease, t + [y1], acts1, Mark(2, 0), y2);
    t' := SweptOn(lease, t + [y1] + [y2], acts1 + [Mark(2, 0)], p);
    assert acts1 + [Mark(2, 0)] + [Tick(lease), ListExpired(2, lease, [0]), Unlease(2)] == acts + SweepOfTwo(lease);
  }

  lemma SweptOn(lease: nat, t: seq<Sys>, acts: seq<Action>, p: Phase) returns (t': seq<Sys>)
    requires Trace(lease, t, acts) && t[|t| - 1] == OneActive(map[0 := lease], map[1 := p, 2 := Marking([])], 0)
    ensures Trace(lease, t', acts + [Tick(lease), ListExpired(2, lease, [0]), Unlease(2)])
    ensures t'[|t'| - 1] == OneActive(map[], map[1 := p, 2 := Requeueing(0, [])], lease)
  {
    var list := ListExpired(2, lease, [0]);
    var y1 := OneActive(map[0 := lease], map[1 := p, 2 := Marking([])], lease);
    var y2 := OneActive(map[0 := lease], map[1 := p, 2 := Sweeping([0])], lease);
    var y3 := OneActive(map[], map[1 := p, 2 := Requeueing(0, [])], lease);
    Then(lease, t, acts, Tick(lease), y1);
    assert Expired(y1.store, lease) == {0};
    Then(lease, t + [y1], acts + [Tick(lease)], list, y2);
    assert [0][1..] == [] && y2.store.leases - {0} == map[];
    Then(lease, t + [y1] + [y2], acts + [Tick(lease)] + [list], Unlease(2), y3);
    t' := t + [y1] + [y2] + [y3];
    assert acts + [Tick(lease)] + [list] + [Unlease(2)] == acts + [Tick(lease), list, Unlease(2)];
  }

  /** Two sweeps overlap: client 3 leases the job that client 2 has unleased and not yet put back. */
  lemma OverlappingSweepsDouble(lease: nat) returns (t: seq<Sys>, acts: seq<Action>)
    ensures Trace(lease, t, acts) && !Single(t[|t| - 1].store)
    ensures GoesOn([Push(0, 0, "job"), Take(1)] + [LeaseTaken(1, 0)] + SweepOfTwo(lease) + [StartSweep(3)]
        + [Mark(3, lease)], acts)
  {
    var t0 := TakenByOne(lease);
    var acts0 := [Push(0, 0, "job"), Take(1)];
    var y1 := OneActive(map[0 := lease], map[1 := Reading(0)], 0);
    Then(lease, t0, acts0, LeaseTaken(1, 0), y1);
    var t1 := SweptByTwo(lease, t0 + [y1], acts0 + [LeaseTaken(1, 0)], Reading(0));
    var acts1 := acts0 + [LeaseTaken(1, 0)] + SweepOfTwo(lease);
    var y2 := Apply(lease, t1[|t1| - 1], StartSweep(3));
    Then(lease, t1, acts1, StartSweep(3), y2);
    var y3 := Apply(lease, y2, Mark(3, lease));
    Then(lease, t1 + [y2], acts1 + [StartSweep(3)], Mark(3, lease), y3);
    assert Requeues(PhaseOf(y3, 2), 0);
    t, acts := LeasedBackDoubles(lease, t1 + [y2] + [y3], acts1 + [StartSweep(3)] + [Mark(3, lease)], 0);
  }

  /** No sweeps overlap: worker 1 stalls between taking the job and leasing it, and leases it when client 2 has
      put it back. */
  lemma LateLeaseDoubles(lease: nat) returns (t: seq<Sys>, acts: seq<Action>)
    ensures Trace(lease, t, acts) && !Single(t[|t| - 1].store)
    ensures GoesOn([Push(0, 0, "job"), Take(1)] + SweepOfTwo(lease) + [PutBack(2)] + [EndSweep(2)]
        + [LeaseTaken(1, lease)], acts)
  {
    var t0 := TakenByOne(lease);
    var acts0 := [Push(0, 0, "job"), Take(1)];
    var t1 := SweptByTwo(lease, t0, acts0, Leasing(0));
    var acts1 := acts0 + SweepOfTwo(lease);
    var y1 := Apply(lease, t1[|t1| - 1], PutBack(2));
    Then(lease, t1, acts1, PutBack(2), y1);
    var y2 := Apply(lease, y1, EndSweep(2));
    Then(lease, t1 + [y1], acts1 + [PutBack(2)], EndSweep(2), y2);
    var y3 := Apply(lease, y2, LeaseTaken(1, lease));
    Then(lease, t1 + [y1] + [y2], acts1 + [PutBack(2)] + [EndSweep(2)], LeaseTaken(1, lease), y3);
    assert 0 in y3.store.wait;
    t, acts := LeasedBackDoubles(lease, t1 + [y1] + [y2] + [y3],
      acts1 + [PutBack(2)] + [EndSweep(2)] + [LeaseTaken(1, lease)], 0);
  }
}
