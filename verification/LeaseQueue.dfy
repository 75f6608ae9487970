/** The Redis job queue (src/n8n/queue.rs): one atomic step for each Redis command or pipe, any number of
    clients, a crash possible between any two steps. */
module LeaseQueue {

  type JobId = nat

  /** What Redis holds: job data, the list of waiting ids, the list of active ids, lease ends. */
  datatype Store = Store(data: map<JobId, string>, wait: seq<JobId>, active: seq<JobId>, leases: map<JobId, int>)

  const EMPTY := Store(map[], [], [], map[])

  // ---- Commands -------------------------------------------------------------------------------------------------

  /** LREM key 1 id: the first occurrence goes. */
  function RemoveFirst(s: seq<JobId>, id: JobId): seq<JobId> {
    if s == [] then [] else if s[0] == id then s[1..] else [s[0]] + RemoveFirst(s[1..], id)
  }

  function PushJob(s: Store, id: JobId, payload: string): Store {
    s.(data := s.data[id := payload], wait := [id] + s.wait)
  }

  /** BLMOVE wait active RIGHT LEFT. */
  function MoveNext(s: Store): Store
    requires s.wait != []
  {
    s.(wait := s.wait[..|s.wait| - 1], active := [s.wait[|s.wait| - 1]] + s.active)
  }

  function Lease(s: Store, id: JobId, until: int): Store {
    s.(leases := s.leases[id := until])
  }

  function LeaseIfNew(s: Store, id: JobId, until: int): Store {
    if id in s.leases then s else Lease(s, id, until)
  }

  function LeaseIfThere(s: Store, id: JobId, until: int): Store {
    if id in s.leases then Lease(s, id, until) else s
  }

  function AckJob(s: Store, id: JobId): Store {
    Store(s.data - {id}, s.wait, RemoveFirst(s.active, id), s.leases - {id})
  }

  function DropLease(s: Store, id: JobId): Store {
    s.(leases := s.leases - {id})
  }

  function Requeue(s: Store, id: JobId): Store {
    s.(active := RemoveFirst(s.active, id), wait := s.wait + [id])
  }

  /** ZRANGEBYSCORE leases -inf now. */
  function Expired(s: Store, now: int): set<JobId> {
    set id | id in s.leases && s.leases[id] <= now
  }

  // ---- Clients --------------------------------------------------------------------------------------------------

  /** How far a client has come in the operation it is running. */
  datatype Phase =
    | Idle
    | Leasing(id: JobId)
    | Reading(id: JobId)
    | Dropping(id: JobId)
    | Working(id: JobId, payload: string)
    | Marking(todo: seq<JobId>)
    | Sweeping(todo: seq<JobId>)
    | Requeueing(id: JobId, todo: seq<JobId>)

  /** `jobs` and `acked` remember every push and every ack that Redis applied. */
  datatype Sys = Sys(store: Store, clients: map<nat, Phase>, clock: int, jobs: map<JobId, string>, acked: set<JobId>)

  const INITIAL := Sys(EMPTY, map[], 0, map[], {})

  function PhaseOf(y: Sys, c: nat): Phase {
    if c in y.clients then y.clients[c] else Idle
  }

  /** `at` is the time a client read off the clock for the command, now or earlier. */
  datatype Action =
    | Push(c: nat, id: JobId, payload: string)
    | Take(c: nat)
    | LeaseTaken(c: nat, at: int)
    | Read(c: nat)
    | Drop(c: nat)
    | Heartbeat(c: nat, at: int)
    | Ack(c: nat)
    | StartSweep(c: nat)
    | Mark(c: nat, at: int)
    | ListExpired(c: nat, at: int, ids: seq<JobId>)
    | Unlease(c: nat)
    | PutBack(c: nat)
    | EndSweep(c: nat)
    | Crash(c: nat)
    | Tick(ms: nat)

  predicate Lists(ids: seq<JobId>, s: set<JobId>) {
    (forall id :: id in ids ==> id in s) && (forall id :: id in s ==> id in ids)
    && forall i, j :: 0 <= i < j < |ids| ==> ids[i] != ids[j]
  }

  predicate Enabled(lease: nat, y: Sys, a: Action) {
    match a
    case Push(c, id, _) => PhaseOf(y, c).Idle? && id !in y.jobs
    case Take(c) => PhaseOf(y, c).Idle? && y.store.wait != []
    case LeaseTaken(c, at) => PhaseOf(y, c).Leasing? && at <= y.clock
    case Read(c) => PhaseOf(y, c).Reading?
    case Drop(c) => PhaseOf(y, c).Dropping?
    case Heartbeat(c, at) => PhaseOf(y, c).Working? && at <= y.clock
    case Ack(c) => PhaseOf(y, c).Working?
    case StartSweep(c) => PhaseOf(y, c).Idle?
    case Mark(c, at) => PhaseOf(y, c).Marking? && PhaseOf(y, c).todo != [] && at <= y.clock
    case ListExpired(c, at, ids) =>
      PhaseOf(y, c).Marking? && PhaseOf(y, c).todo == [] && at <= y.clock && Lists(ids, Expired(y.store, at))
    case Unlease(c) => PhaseOf(y, c).Sweeping? && PhaseOf(y, c).todo != []
    case PutBack(c) => PhaseOf(y, c).Requeueing?
    case EndSweep(c) => PhaseOf(y, c).Sweeping? && PhaseOf(y, c).todo == []
    case Crash(_) => true
    case Tick(_) => true
  }

  function Apply(lease: nat, y: Sys, a: Action): Sys
    requires Enabled(lease, y, a)
  {
    match a
    case Push(c, id, payload) => y.(store := PushJob(y.store, id, payload), jobs := y.jobs[id := payload])
    case Take(c) => y.(store := MoveNext(y.store), clients := y.clients[c := Leasing(y.store.wait[|y.store.wait| - 1])])
    case LeaseTaken(c, at) =>
      var id := PhaseOf(y, c).id;
      y.(store := Lease(y.store, id, at + lease), clients := y.clients[c := Reading(id)])
    case Read(c) =>
      var id := PhaseOf(y, c).id;
      y.(clients := y.clients[c := if id in y.store.data then Working(id, y.store.data[id]) else Dropping(id)])
    case Drop(c) =>
      var id := PhaseOf(y, c).id;
      y.(store := AckJob(y.store, id), clients := y.clients[c := Idle], acked := y.acked + {id})
    case Heartbeat(c, at) => y.(store := LeaseIfThere(y.store, PhaseOf(y, c).id, at + lease))
    case Ack(c) =>
      var id := PhaseOf(y, c).id;
      y.(store := AckJob(y.store, id), clients := y.clients[c := Idle], acked := y.acked + {id})
    case StartSweep(c) => y.(clients := y.clients[c := Marking(y.store.active)])
    case Mark(c, at) =>
      var todo := PhaseOf(y, c).todo;
      y.(store := LeaseIfNew(y.store, todo[0], at + lease), clients := y.clients[c := Marking(todo[1..])])
    case ListExpired(c, at, ids) => y.(clients := y.clients[c := Sweeping(ids)])
    case Unlease(c) =>
      var todo := PhaseOf(y, c).todo;
      if todo[0] in y.store.leases then
        y.(store := DropLease(y.store, todo[0]), clients := y.clients[c := Requeueing(todo[0], todo[1..])])
      else y.(clients := y.clients[c := Sweeping(todo[1..])])
    case PutBack(c) =>
      y.(store := Requeue(y.store, PhaseOf(y, c).id), clients := y.clients[c := Sweeping(PhaseOf(y, c).todo)])
    case EndSweep(c) => y.(clients := y.clients[c := Idle])
    case Crash(c) => y.(clients := y.clients[c := Idle])
    case Tick(ms) => y.(clock := y.clock + ms)
  }

  /** Any interleaving, from an empty queue. */
  ghost predicate Trace(lease: nat, t: seq<Sys>, acts: seq<Action>) {
    && |t| == |acts| + 1
    && t[0] == INITIAL
    && forall n :: 0 <= n < |acts| ==> Enabled(lease, t[n], acts[n]) && t[n + 1] == Apply(lease, t[n], acts[n])
  }

  // ---- No job is lost -------------------------------------------------------------------------------------------

  ghost predicate Placed(s: Store) {
    forall id :: id in s.data ==> id in s.wait || id in s.active
  }

  ghost predicate LeasesBounded(s: Store, clock: int, lease: nat) {
    forall id :: id in s.leases ==> s.leases[id] <= clock + lease
  }

  ghost predicate KnownIds(y: Sys) {
    && (forall id :: id in y.store.wait ==> id in y.jobs)
    && (forall id :: id in y.store.active ==> id in y.jobs)
    && (forall id :: id in y.store.leases ==> id in y.jobs)
    && forall c :: c in y.clients ==> PhaseKnown(y, y.clients[c])
  }

  ghost predicate PhaseKnown(y: Sys, p: Phase) {
    match p
    case Idle => true
    case Leasing(id) => id in y.jobs
    case Reading(id) => id in y.jobs
    case Dropping(id) => id in y.acked
    case Working(id, payload) => id in y.jobs && y.jobs[id] == payload
    case Marking(todo) => forall id :: id in todo ==> id in y.jobs
    case Sweeping(todo) => forall id :: id in todo ==> id in y.jobs
    case Requeueing(id, todo) => id in y.jobs && forall i :: i in todo ==> i in y.jobs
  }

  /** Exactly the unacked jobs still have their data, and each is in a list. */
  ghost predicate Kept(y: Sys) {
    && (forall id :: id in y.store.data <==> id in y.jobs && id !in y.acked)
    && (forall id :: id in y.store.data ==> y.store.data[id] == y.jobs[id])
    && (forall id :: id in y.acked ==> id in y.jobs)
  }

  ghost predicate Inv(lease: nat, y: Sys) {
    Kept(y) && Placed(y.store) && KnownIds(y) && LeasesBounded(y.store, y.clock, lease)
  }

  lemma {:induction false} RemoveFirstOthers(s: seq<JobId>, id: JobId, x: JobId)
    ensures x != id ==> (x in RemoveFirst(s, id) <==> x in s)
    ensures x in RemoveFirst(s, id) ==> x in s
  {
    if s != [] && s[0] != id {
      RemoveFirstOthers(s[1..], id, x);
      assert s == [s[0]] + s[1..];
    }
  }

  lemma AckKeepsPlaced(s: Store, id: JobId)
    requires Placed(s)
    ensures Placed(AckJob(s, id)) && forall x :: x in AckJob(s, id).active ==> x in s.active
  {
    forall x ensures (x in AckJob(s, id).data ==> x in s.wait || x in AckJob(s, id).active)
                  && (x in AckJob(s, id).active ==> x in s.active)
    {
      RemoveFirstOthers(s.active, id, x);
    }
  }

  lemma {:induction false} LessActive(s: seq<JobId>, id: JobId)
    ensures forall x :: x in RemoveFirst(s, id) ==> x in s
  {
    forall x | x in RemoveFirst(s, id) ensures x in s { RemoveFirstOthers(s, id, x); }
  }

  lemma RequeueKeepsPlaced(s: Store, id: JobId)
    requires Placed(s)
    ensures Placed(Requeue(s, id)) && forall x :: x in Requeue(s, id).active ==> x in s.active
  {
    forall x ensures (x in s.data ==> x in Requeue(s, id).wait || x in Requeue(s, id).active)
                  && (x in Requeue(s, id).active ==> x in s.active)
    {
      RemoveFirstOthers(s.active, id, x);
    }
  }

  lemma KeptStep(lease: nat, y: Sys, a: Action)
    requires Kept(y) && KnownIds(y) && Enabled(lease, y, a)
    ensures Kept(Apply(lease, y, a))
  {
  }

  lemma PlacedStep(lease: nat, y: Sys, a: Action)
    requires Placed(y.store) && Enabled(lease, y, a)
    ensures Placed(Apply(lease, y, a).store)
  {
    match a
    case Take(_) => LastMoves(y.store.wait);
    case Drop(c) => AckKeepsPlaced(y.store, PhaseOf(y, c).id);
    case Ack(c) => AckKeepsPlaced(y.store, PhaseOf(y, c).id);
    case PutBack(c) => RequeueKeepsPlaced(y.store, PhaseOf(y, c).id);
    case _ =>
  }

  lemma LastMoves(w: seq<JobId>)
    requires w != []
    ensures forall id :: id in w <==> id in w[..|w| - 1] || id == w[|w| - 1]
  {
    assert w == w[..|w| - 1] + [w[|w| - 1]];
  }

  lemma BoundedStep(lease: nat, y: Sys, a: Action)
    requires LeasesBounded(y.store, y.clock, lease) && Enabled(lease, y, a)
    ensures LeasesBounded(Apply(lease, y, a).store, Apply(lease, y, a).clock, lease)
  {
  }

  lemma KnownListsStep(lease: nat, y: Sys, a: Action)
    requires Kept(y) && KnownIds(y) && Enabled(lease, y, a)
    ensures var y' := Apply(lease, y, a);
            && (forall id :: id in y'.store.wait ==> id in y'.jobs)
            && (forall id :: id in y'.store.active ==> id in y'.jobs)
            && (forall id :: id in y'.store.leases ==> id in y'.jobs)
  {
    match a
    case Take(_) => LastMoves(y.store.wait);
    case Drop(c) => LessActive(y.store.active, PhaseOf(y, c).id);
    case Ack(c) => LessActive(y.store.active, PhaseOf(y, c).id);
    case PutBack(c) => LessActive(y.store.active, PhaseOf(y, c).id);
    case _ =>
  }

  lemma KnownPhasesStep(lease: nat, y: Sys, a: Action, c: nat)
    requires Kept(y) && KnownIds(y) && Enabled(lease, y, a) && c in Apply(lease, y, a).clients
    ensures PhaseKnown(Apply(lease, y, a), Apply(lease, y, a).clients[c])
  {
    var y' := Apply(lease, y, a);
    if c in y.clients {
      assert PhaseKnown(y, y.clients[c]);
    }
  }

  lemma StepKeeps(lease: nat, y: Sys, a: Action)
    requires Inv(lease, y) && Enabled(lease, y, a)
    ensures Inv(lease, Apply(lease, y, a))
  {
    KeptStep(lease, y, a);
    PlacedStep(lease, y, a);
    BoundedStep(lease, y, a);
    KnownListsStep(lease, y, a);
    forall c | c in Apply(lease, y, a).clients ensures PhaseKnown(Apply(lease, y, a), Apply(lease, y, a).clients[c]) {
      KnownPhasesStep(lease, y, a, c);
    }
  }

  lemma {:induction false} TraceKeeps(lease: nat, t: seq<Sys>, acts: seq<Action>, n: nat)
    requires Trace(lease, t, acts) && n < |t|
    ensures Inv(lease, t[n])
  {
    if n > 0 {
      TraceKeeps(lease, t, acts, n - 1);
      StepKeeps(lease, t[n - 1], acts[n - 1]);
      assert t[(n - 1) + 1] == Apply(lease, t[n - 1], acts[n - 1]);
    }
  }

  /** A pushed job whose ack has not been applied still has its data and is in `wait` or `active`. */
  lemma NoJobLost(lease: nat, t: seq<Sys>, acts: seq<Action>, n: nat, id: JobId)
    requires Trace(lease, t, acts) && n < |t| && id in t[n].jobs && id !in t[n].acked
    ensures id in t[n].store.data && t[n].store.data[id] == t[n].jobs[id]
    ensures id in t[n].store.wait || id in t[n].store.active
  {
    TraceKeeps(lease, t, acts, n);
  }

  lemma {:induction false} AckedStays(lease: nat, t: seq<Sys>, acts: seq<Action>, n: nat, m: nat)
    requires Trace(lease, t, acts) && n <= m < |t|
    ensures t[n].acked <= t[m].acked
  {
    if n < m {
      AckedStays(lease, t, acts, n, m - 1);
      assert t[(m - 1) + 1] == Apply(lease, t[m - 1], acts[m - 1]);
    }
  }

  /** No read hands a job out once its ack has been applied; what it hands out is what was pushed. */
  lemma NotHandedOutAfterAck(lease: nat, t: seq<Sys>, acts: seq<Action>, n: nat, m: nat, id: JobId)
    requires Trace(lease, t, acts) && n <= m < |acts| && id in t[n].acked
    requires acts[m].Read? && PhaseOf(t[m], acts[m].c) == Reading(id)
    ensures PhaseOf(t[m + 1], acts[m].c) == Dropping(id)
  {
    AckedStays(lease, t, acts, n, m);
    TraceKeeps(lease, t, acts, m);
    assert t[m + 1] == Apply(lease, t[m], acts[m]);
  }

  // ---- Recovery -------------------------------------------------------------------------------------------------

  lemma RequeueMoves(s: Store, id: JobId)
    ensures forall x :: x in s.active && x != id ==> x in Requeue(s, id).active
    ensures id in Requeue(s, id).wait && forall x :: x in s.wait ==> x in Requeue(s, id).wait
  {
    forall x | x != id && x in s.active ensures x in RemoveFirst(s.active, id) { RemoveFirstOthers(s.active, id, x); }
  }

  /** The first `i` of the listed jobs are back in `wait`; no job has left both lists or lost its data. */
  ghost predicate Swept(marked: Store, s: Store, ids: seq<JobId>, i: nat) {
    && s.data == marked.data
    && (forall id :: id in marked.wait ==> id in s.wait)
    && (forall id :: id in marked.active && id in marked.leases ==> id in s.wait || (id in s.active && id in s.leases))
    && (forall j :: 0 <= j < i && j < |ids| ==> ids[j] in s.wait)
    && (forall j :: i <= j < |ids| ==> ids[j] in s.leases)
    && (forall id :: id in s.leases ==> id in marked.leases && s.leases[id] == marked.leases[id])
  }

  lemma SweepOne(marked: Store, s: Store, ids: seq<JobId>, i: nat)
    requires i < |ids| && Swept(marked, s, ids, i) && forall j, k :: 0 <= j < k < |ids| ==> ids[j] != ids[k]
    ensures ids[i] in s.leases && Swept(marked, Requeue(DropLease(s, ids[i]), ids[i]), ids, i + 1)
  {
    RequeueMoves(DropLease(s, ids[i]), ids[i]);
  }

  /** The queue as one client uses it while the others stand still; the shared clock only moves on. */
  class RedisQueue {
    const lease: nat
    var store: Store
    var clock: int

    constructor (lease: nat, store: Store, clock: int)
      ensures this.lease == lease && this.store == store && this.clock == clock
    {
      this.lease, this.store, this.clock := lease, store, clock;
    }

    /** Reads the clock; any time may have passed. */
    method Now(elapsed: nat) returns (now: int)
      modifies this`clock
      ensures now == clock == old(clock) + elapsed
    {
      clock := clock + elapsed;
      now := clock;
    }

    /** Every active job gets a lease unless it has one. */
    method MarkActive(delays: nat -> nat)
      modifies this
      ensures clock >= old(clock)
      ensures store.data == old(store.data) && store.wait == old(store.wait) && store.active == old(store.active)
      ensures forall id :: id in old(store.leases) ==> id in store.leases && store.leases[id] == old(store.leases[id])
      ensures forall id :: id in store.active ==> id in store.leases
      ensures old(LeasesBounded(store, clock, lease)) ==> LeasesBounded(store, clock, lease)
    {
      var active := store.active;
      for i := 0 to |active|
        invariant clock >= old(clock)
        invariant store.data == old(store.data) && store.wait == old(store.wait) && store.active == old(store.active)
        invariant forall id :: id in old(store.leases) ==>
            id in store.leases && store.leases[id] == old(store.leases[id])
        invariant forall j :: 0 <= j < i ==> active[j] in store.leases
        invariant old(LeasesBounded(store, clock, lease)) ==> LeasesBounded(store, clock, lease)
      {
        var now := Now(delays(i));
        store := LeaseIfNew(store, active[i], now + lease);
      }
    }

    /** The ids whose lease has run out, each once. */
    method CollectExpired(now: int) returns (ids: seq<JobId>)
      ensures Lists(ids, Expired(store, now))
    {
      ids := [];
      var todo := Expired(store, now);
      while todo != {}
        invariant todo <= Expired(store, now)
        invariant forall id :: id in ids <==> id in Expired(store, now) && id !in todo
        invariant forall i, j :: 0 <= i < j < |ids| ==> ids[i] != ids[j]
      {
        var id :| id in todo;
        todo := todo - {id};
        ids := ids + [id];
      }
    }

    method RequeueExpired(delays: nat -> nat) returns (n: nat)
      modifies this
      ensures clock >= old(clock) && store.data == old(store.data)
      ensures forall id :: id in old(store.wait) ==> id in store.wait
      ensures forall id :: id in old(store.active) ==> id in store.wait || (id in store.active && id in store.leases)
      ensures forall id :: id in old(store.active) && id in old(store.leases) && old(store.leases[id]) <= old(clock) ==>
          id in store.wait
      ensures old(LeasesBounded(store, clock, lease)) ==> LeasesBounded(store, clock, lease)
    {
      MarkActive(delays);
      var now := Now(delays(|store.active|));
      var ids := CollectExpired(now);
      ghost var marked := store;
      assert forall j :: 0 <= j < |ids| ==> ids[j] in Expired(store, now);
      assert forall id :: id in old(store.leases) && old(store.leases[id]) <= old(clock) ==> id in Expired(store, now);
      n := 0;
      for i := 0 to |ids|
        invariant clock == now && Swept(marked, store, ids, i)
      {
        var id := ids[i];
        SweepOne(marked, store, ids, i);
        if id in store.leases {
          store := DropLease(store, id);
          store := Requeue(store, id);
          n := n + 1;
        }
      }
    }
  }

  /** From any reachable state, two complete sweeps at least one lease apart, with nothing in between, leave every
      unacked job waiting, those a crash left unleased included. */
  method RecoverInTwoSweeps(lease: nat, ghost t: seq<Sys>, ghost acts: seq<Action>, y: Sys,
      first: nat -> nat, pause: nat, second: nat -> nat)
    returns (q: RedisQueue)
    requires Trace(lease, t, acts) && y == t[|t| - 1] && pause >= lease
    ensures forall id :: id in y.jobs && id !in y.acked ==> id in q.store.wait && id in q.store.data
  {
    TraceKeeps(lease, t, acts, |t| - 1);
    q := new RedisQueue(lease, y.store, y.clock);
    var n := q.RequeueExpired(first);
    ghost var middle := q.store;
    var now := q.Now(pause);
    assert forall id :: id in middle.data ==> id in middle.wait || (id in middle.active && middle.leases[id] <= now);
    n := q.RequeueExpired(second);
  }
}
