/** The hand-off of chat updates to workers (src/telegram_poller.rs): one worker and one channel for each chat,
    an idle worker that closes its channel before it leaves, and a dispatcher that starts a fresh worker when
    a send fails. Dispatcher and workers interleave step by step; time passes between steps. */
module ChatHandOff {

  import opened Workflows

  /** A chat, or none for updates that belong to no chat. */
  type Key = Option<int>

  /** Jobs are numbered in the order they are dispatched. */
  type Job = nat

  /** Where a worker is in its loop. `Polling` waits for a job since the given time; `Closing` has timed out
      and is about to close the channel; `Draining` has closed it; `Leaving` was told there are no more jobs. */
  datatype Phase = Starting | Polling(since: int) | Closing | Draining | Busy(job: Job) | Leaving | Gone

  /** A worker with its channel. `sent` and `taken` remember what went in and what came out. */
  datatype Worker = Worker(key: Key, queue: seq<Job>, closed: bool, phase: Phase, sent: seq<Job>, taken: seq<Job>)

  /** A job whose fresh worker is running although the job is not yet in its channel. */
  datatype HandOff = HandOff(worker: nat, job: Job, since: int)

  /** `table` holds the dispatcher's senders, `log` the chat of every job dispatched so far. */
  datatype Sys = Sys(
    workers: seq<Worker>, table: map<Key, nat>, handOff: Option<HandOff>, stopped: bool,
    clock: int, log: seq<Key>, lost: set<Job>)

  const INITIAL := Sys([], map[], None, false, 0, [], {})

  datatype Action =
    | Send(key: Key)
    | Place
    | Stop
    | Begin(w: nat)
    | Take(w: nat)
    | Leave(w: nat)
    | TimeOut(w: nat)
    | Close(w: nat)
    | Finish(w: nat)
    | Exit(w: nat)
    | Tick(ms: nat)

  // ---- Steps ----------------------------------------------------------------------------------------------------

  function Fresh(key: Key): Worker {
    Worker(key, [], false, Starting, [], [])
  }

  function Accept(x: Worker, job: Job): Worker {
    x.(queue := x.queue + [job], sent := x.sent + [job])
  }

  predicate Routed(y: Sys, key: Key) {
    key in y.table && y.table[key] < |y.workers| && !y.workers[y.table[key]].closed
  }

  /** Some sender of the worker's channel is still held. */
  predicate Connected(y: Sys, w: nat)
    requires w < |y.workers|
  {
    !y.stopped && (   (y.workers[w].key in y.table && y.table[y.workers[w].key] == w)
                   || (y.handOff.Some? && y.handOff.value.worker == w))
  }

  predicate Receives(p: Phase) {
    p.Polling? || p.Draining?
  }

  /** `idle` is how long a worker waits; `gap` bounds the time from starting a worker to its first send. */
  predicate Enabled(idle: nat, gap: nat, y: Sys, a: Action) {
    match a
    case Send(_) => y.handOff.None? && !y.stopped
    case Place => y.handOff.Some? && y.handOff.value.worker < |y.workers|
    case Stop => y.handOff.None?
    case Begin(w) => w < |y.workers| && y.workers[w].phase.Starting?
    case Take(w) => w < |y.workers| && Receives(y.workers[w].phase) && y.workers[w].queue != []
    case Leave(w) =>
      w < |y.workers| && Receives(y.workers[w].phase) && y.workers[w].queue == []
      && (y.workers[w].closed || !Connected(y, w))
    case TimeOut(w) =>
      w < |y.workers| && y.workers[w].phase.Polling? && y.workers[w].queue == []
      && !y.workers[w].closed && y.clock >= y.workers[w].phase.since + idle
    case Close(w) => w < |y.workers| && y.workers[w].phase.Closing?
    case Finish(w) => w < |y.workers| && y.workers[w].phase.Busy?
    case Exit(w) => w < |y.workers| && y.workers[w].phase.Leaving?
    case Tick(ms) => y.handOff.None? || y.clock + ms <= y.handOff.value.since + gap
  }

  function Put(y: Sys, w: nat, x: Worker): Sys
    requires w < |y.workers|
  {
    y.(workers := y.workers[w := x])
  }

  function Dispatched(y: Sys, key: Key): Sys {
    var job := |y.log|;
    var y' := y.(log := y.log + [key]);
    if Routed(y, key) then Put(y', y.table[key], Accept(y.workers[y.table[key]], job))
    else y'.(workers := y.workers + [Fresh(key)], handOff := Some(HandOff(|y.workers|, job, y.clock)))
  }

  function FirstSend(y: Sys): Sys
    requires y.handOff.Some? && y.handOff.value.worker < |y.workers|
  {
    var h := y.handOff.value;
    var x := y.workers[h.worker];
    var y' := y.(table := y.table[x.key := h.worker], handOff := None);
    if x.closed then y'.(lost := y.lost + {h.job}) else Put(y', h.worker, Accept(x, h.job))
  }

  function TakeJob(x: Worker): Worker
    requires x.queue != []
  {
    x.(queue := x.queue[1..], taken := x.taken + [x.queue[0]], phase := Busy(x.queue[0]))
  }

  /** Dropping the receiver closes the channel and throws away what is left in it. */
  function DropReceiver(x: Worker): Worker {
    x.(queue := [], closed := true, phase := Gone)
  }

  function Apply(idle: nat, gap: nat, y: Sys, a: Action): Sys
    requires Enabled(idle, gap, y, a)
  {
    match a
    case Send(key) => Dispatched(y, key)
    case Place => FirstSend(y)
    case Stop => y.(stopped := true)
    case Begin(w) => Put(y, w, y.workers[w].(phase := Polling(y.clock)))
    case Take(w) => Put(y, w, TakeJob(y.workers[w]))
    case Leave(w) => Put(y, w, y.workers[w].(phase := Leaving))
    case TimeOut(w) => Put(y, w, y.workers[w].(phase := Closing))
    case Close(w) => Put(y, w, y.workers[w].(phase := Draining, closed := true))
    case Finish(w) => Put(y, w, y.workers[w].(phase := Polling(y.clock)))
    case Exit(w) =>
      Put(y, w, DropReceiver(y.workers[w])).(lost := y.lost + (set j | j in y.workers[w].queue))
    case Tick(ms) => y.(clock := y.clock + ms)
  }

  /** The steps `acts` can be taken one after the other from `y`, and end in `z`. */
  ghost predicate Leads(idle: nat, gap: nat, y: Sys, acts: seq<Action>, z: Sys)
    decreases |acts|
  {
    if acts == [] then y == z
    else Enabled(idle, gap, y, acts[0]) && Leads(idle, gap, Apply(idle, gap, y, acts[0]), acts[1..], z)
  }

  /** The states some interleaving gets to. */
  ghost predicate Reachable(idle: nat, gap: nat, y: Sys) {
    exists acts :: Leads(idle, gap, INITIAL, acts, y)
  }

  // ---- What every step keeps ------------------------------------------------------------------------------------

  /** What is in the channel is what was sent and not taken, first in first out; nobody leaves jobs behind. */
  ghost predicate ChannelOk(x: Worker) {
    && x.sent == x.taken + x.queue
    && (x.phase.Busy? ==> x.taken != [] && x.taken[|x.taken| - 1] == x.phase.job)
    && (x.phase.Draining? || x.phase.Gone? ==> x.closed)
    && (x.phase.Starting? ==> x.taken == [])
    && (x.phase.Closing? ==> !x.closed)
    && (x.phase.Gone? || x.phase.Leaving? ==> x.queue == [])
  }

  ghost predicate Increasing(s: seq<Job>) {
    forall i, j :: 0 <= i < j < |s| ==> s[i] < s[j]
  }

  ghost predicate OfChat(log: seq<Key>, x: Worker) {
    forall j :: j in x.sent ==> j < |log| && log[j] == x.key
  }

  ghost predicate WorkerOk(y: Sys, w: nat)
    requires w < |y.workers|
  {
    var x := y.workers[w];
    && ChannelOk(x) && Increasing(x.sent) && OfChat(y.log, x)
    && (x.closed || y.stopped || Connected(y, w))
    && (x.phase.Leaving? ==> x.closed || y.stopped)
  }

  ghost predicate TableOk(y: Sys) {
    forall k :: k in y.table ==> y.table[k] < |y.workers| && y.workers[y.table[k]].key == k
                                 && (y.handOff.Some? ==> y.table[k] != y.handOff.value.worker)
  }

  ghost predicate HandOffOk(y: Sys) {
    y.handOff.Some? ==>
      var h := y.handOff.value;
      && !y.stopped && h.worker + 1 == |y.workers| && h.job + 1 == |y.log|
      && y.log[h.job] == y.workers[h.worker].key && y.workers[h.worker].sent == []
      && forall w :: 0 <= w < |y.workers| ==> h.job !in y.workers[w].sent
  }

  /** An older worker of the same chat is closed, and everything it was sent came before. */
  ghost predicate Precedes(x: Worker, z: Worker) {
    x.key == z.key ==> x.closed && forall i, j :: i in x.sent && j in z.sent ==> i < j
  }

  ghost predicate Generations(y: Sys) {
    forall v, w :: 0 <= v < w < |y.workers| ==> Precedes(y.workers[v], y.workers[w])
  }

  ghost predicate HasHome(y: Sys, j: Job) {
    || (y.handOff.Some? && y.handOff.value.job == j)
    || j in y.lost
    || exists w :: 0 <= w < |y.workers| && j in y.workers[w].sent
  }

  ghost predicate AllHome(y: Sys) {
    forall j :: 0 <= j < |y.log| ==> HasHome(y, j)
  }

  ghost predicate LostOk(y: Sys) {
    forall j :: j in y.lost ==>
      && j < |y.log|
      && (y.handOff.Some? ==> y.handOff.value.job != j)
      && forall w :: 0 <= w < |y.workers| ==> j !in y.workers[w].sent
  }

  ghost predicate Inv(y: Sys) {
    && (forall w :: 0 <= w < |y.workers| ==> WorkerOk(y, w))
    && TableOk(y) && HandOffOk(y) && Generations(y) && AllHome(y) && LostOk(y)
  }

  // Nothing but the worker a step is about changes, so the work is to show that this one stays as it should be.

  lemma {:induction false} IncreasingSnoc(s: seq<Job>, j: Job)
    requires Increasing(s) && forall i :: i in s ==> i < j
    ensures Increasing(s + [j])
  {
    forall i, k | 0 <= i < k < |s + [j]| ensures (s + [j])[i] < (s + [j])[k] {
      assert s[i] in s;
    }
  }

  lemma AcceptOk(log: seq<Key>, x: Worker)
    requires ChannelOk(x) && Increasing(x.sent) && OfChat(log, x) && !x.phase.Gone? && !x.phase.Leaving?
    ensures var z := Accept(x, |log|); ChannelOk(z) && Increasing(z.sent) && OfChat(log + [x.key], z)
  {
    IncreasingSnoc(x.sent, |log|);
    assert x.taken + (x.queue + [|log|]) == x.taken + x.queue + [|log|];
  }

  lemma TakeOk(x: Worker)
    requires ChannelOk(x) && x.queue != [] && Receives(x.phase)
    ensures ChannelOk(TakeJob(x))
  {
    assert x.queue == [x.queue[0]] + x.queue[1..];
    assert x.taken + x.queue == x.taken + [x.queue[0]] + x.queue[1..];
  }

  /** A step that leaves log, table and senders alone and gives worker `w` a sound new state. */
  ghost predicate Progress(x: Worker, z: Worker) {
    z.key == x.key && z.sent == x.sent && (x.closed ==> z.closed) && ChannelOk(z)
  }

  lemma PutKeeps(y: Sys, w: nat, z: Worker)
    requires Inv(y) && w < |y.workers| && Progress(y.workers[w], z)
    requires z.phase.Leaving? ==> z.closed || y.stopped
    ensures Inv(Put(y, w, z))
  {
    var y' := Put(y, w, z);
    forall v | 0 <= v < |y'.workers| ensures WorkerOk(y', v) {
      assert WorkerOk(y, v);
    }
    forall u, v | 0 <= u < v < |y'.workers| ensures Precedes(y'.workers[u], y'.workers[v]) {
      assert Precedes(y.workers[u], y.workers[v]);
    }
    forall j | 0 <= j < |y'.log| ensures HasHome(y', j) {
      assert HasHome(y, j);
      if v :| 0 <= v < |y.workers| && j in y.workers[v].sent {
        assert j in y'.workers[v].sent;
      }
    }
  }

  lemma LastOfItsChat(y: Sys, w: nat, v: nat)
    requires Inv(y) && w < |y.workers| && !y.workers[w].closed && w < v < |y.workers|
    ensures y.workers[v].key != y.workers[w].key
  {
    assert Precedes(y.workers[w], y.workers[v]);
  }

  lemma HomeStays(y: Sys, y': Sys, j: Job)
    requires HasHome(y, j) && y.lost <= y'.lost && |y.workers| <= |y'.workers|
    requires y.handOff.Some? ==> HasHome(y', y.handOff.value.job)
    requires forall w :: 0 <= w < |y.workers| ==> forall i :: i in y.workers[w].sent ==> i in y'.workers[w].sent
    ensures HasHome(y', j)
  {
    if w :| 0 <= w < |y.workers| && j in y.workers[w].sent {
      assert j in y'.workers[w].sent;
    }
  }

  lemma AcceptedPrecedes(y: Sys, w: nat, j: Job, u: nat, v: nat)
    requires Inv(y) && w < |y.workers| && !y.workers[w].closed && u < v < |y.workers|
    requires forall u, i :: 0 <= u < |y.workers| && i in y.workers[u].sent ==> i < j
    ensures var ws := y.workers[w := Accept(y.workers[w], j)]; Precedes(ws[u], ws[v])
  {
    assert Precedes(y.workers[u], y.workers[v]);
    if u == w {
      LastOfItsChat(y, w, v);
    }
  }

  lemma BeforeLog(y: Sys, u: nat, i: Job)
    requires Inv(y) && u < |y.workers| && i in y.workers[u].sent
    ensures i < |y.log|
  {
    assert WorkerOk(y, u);
  }

  /** A worker that can be sent to still listens. */
  lemma OpenListens(y: Sys, w: nat)
    requires Inv(y) && w < |y.workers| && !y.workers[w].closed && !y.stopped
    ensures !y.workers[w].phase.Gone? && !y.workers[w].phase.Leaving? && Connected(y, w)
  {
    assert WorkerOk(y, w);
  }

  lemma SendOpenKeeps(y: Sys, key: Key)
    requires Inv(y) && y.handOff.None? && !y.stopped && Routed(y, key)
    ensures Inv(Dispatched(y, key))
  {
    var w, j, y' := y.table[key], |y.log|, Dispatched(y, key);
    var x := y.workers[w];
    assert x.key == key;
    assert WorkerOk(y, w);
    OpenListens(y, w);
    AcceptOk(y.log, x);
    forall v | 0 <= v < |y'.workers| ensures WorkerOk(y', v) { assert WorkerOk(y, v); }
    forall u, i | 0 <= u < |y.workers| && i in y.workers[u].sent ensures i < j { BeforeLog(y, u, i); }
    forall u, v | 0 <= u < v < |y'.workers| ensures Precedes(y'.workers[u], y'.workers[v]) {
      AcceptedPrecedes(y, w, j, u, v);
    }
    assert j in y'.workers[w].sent;
    forall i | 0 <= i < |y'.log| ensures HasHome(y', i) { if i < j { HomeStays(y, y', i); } }
  }

  /** When no channel takes the job, every older worker of the chat is closed. */
  lemma AllClosed(y: Sys, key: Key, u: nat)
    requires Inv(y) && y.handOff.None? && !y.stopped && !Routed(y, key) && u < |y.workers| && y.workers[u].key == key
    ensures y.workers[u].closed
  {
    assert WorkerOk(y, u);
  }

  lemma SpawnWorkerOk(y: Sys, key: Key, v: nat)
    requires Inv(y) && y.handOff.None? && !y.stopped && !Routed(y, key) && v < |Dispatched(y, key).workers|
    ensures WorkerOk(Dispatched(y, key), v)
  {
    if v < |y.workers| { assert WorkerOk(y, v); }
  }

  lemma SpawnGenerations(y: Sys, key: Key)
    requires Inv(y) && y.handOff.None? && !y.stopped && !Routed(y, key)
    ensures Generations(Dispatched(y, key))
  {
    var y' := Dispatched(y, key);
    forall u, v | 0 <= u < v < |y'.workers| ensures Precedes(y'.workers[u], y'.workers[v]) {
      if v < |y.workers| {
        assert Precedes(y.workers[u], y.workers[v]);
      } else if y.workers[u].key == key {
        AllClosed(y, key, u);
      }
    }
  }

  lemma SpawnKeeps(y: Sys, key: Key)
    requires Inv(y) && y.handOff.None? && !y.stopped && !Routed(y, key)
    ensures Inv(Dispatched(y, key))
  {
    var y' := Dispatched(y, key);
    forall v | 0 <= v < |y'.workers| ensures WorkerOk(y', v) { SpawnWorkerOk(y, key, v); }
    SpawnGenerations(y, key);
    forall w | 0 <= w < |y'.workers| ensures |y.log| !in y'.workers[w].sent {
      if w < |y.workers| && |y.log| in y.workers[w].sent { BeforeLog(y, w, |y.log|); }
    }
    forall i | 0 <= i < |y'.log| ensures HasHome(y', i) { if i < |y.log| { HomeStays(y, y', i); } }
  }

  lemma PlaceKeeps(y: Sys)
    requires Inv(y) && y.handOff.Some?
    ensures Inv(FirstSend(y))
  {
    var h, y' := y.handOff.value, FirstSend(y);
    var w := h.worker;
    var x := y.workers[w];
    assert WorkerOk(y, w);
    if x.closed {
      forall v | 0 <= v < |y'.workers| ensures WorkerOk(y', v) { assert WorkerOk(y, v); PlacedConnected(y, v); }
    } else {
      OpenListens(y, w);
      FirstJobOk(y);
      forall v | 0 <= v < |y'.workers| ensures WorkerOk(y', v) { assert WorkerOk(y, v); PlacedConnected(y, v); }
      forall u, i | 0 <= u < |y.workers| && i in y.workers[u].sent ensures i < h.job { BeforeLog(y, u, i); }
      forall u, v | 0 <= u < v < |y'.workers| ensures Precedes(y'.workers[u], y'.workers[v]) {
        AcceptedPrecedes(y, w, h.job, u, v);
      }
      assert h.job in y'.workers[w].sent;
    }
    forall i | 0 <= i < |y'.log| ensures HasHome(y', i) { assert HasHome(y, i); HomeStays(y, y', i); }
  }

  lemma FirstJobOk(y: Sys)
    requires Inv(y) && y.handOff.Some? && !y.workers[y.handOff.value.worker].closed
    ensures var z := Accept(y.workers[y.handOff.value.worker], y.handOff.value.job);
            ChannelOk(z) && Increasing(z.sent) && OfChat(y.log, z)
  {
    var x := y.workers[y.handOff.value.worker];
    assert WorkerOk(y, y.handOff.value.worker);
    OpenListens(y, y.handOff.value.worker);
    assert x.sent == [] && x.queue == [] && x.taken == [];
  }

  /** Replacing a sender in the table only cuts off workers whose channel is closed. */
  lemma PlacedConnected(y: Sys, v: nat)
    requires Inv(y) && y.handOff.Some? && v < |y.workers|
    ensures y.workers[v].closed || Connected(FirstSend(y), v)
  {
    assert WorkerOk(y, v);
    var w := y.handOff.value.worker;
    if v != w && !y.workers[v].closed {
      assert Precedes(y.workers[v], y.workers[w]);
    }
  }

  lemma StepKeeps(idle: nat, gap: nat, y: Sys, a: Action)
    requires Inv(y) && Enabled(idle, gap, y, a)
    ensures Inv(Apply(idle, gap, y, a))
  {
    match a
    case Send(key) => if Routed(y, key) { SendOpenKeeps(y, key); } else { SpawnKeeps(y, key); }
    case Place => PlaceKeeps(y);
    case Stop => StopKeeps(y);
    case Begin(w) => assert WorkerOk(y, w); PutKeeps(y, w, y.workers[w].(phase := Polling(y.clock)));
    case Take(w) => assert WorkerOk(y, w); TakeOk(y.workers[w]); PutKeeps(y, w, TakeJob(y.workers[w]));
    case Leave(w) => assert WorkerOk(y, w); PutKeeps(y, w, y.workers[w].(phase := Leaving));
    case TimeOut(w) => assert WorkerOk(y, w); PutKeeps(y, w, y.workers[w].(phase := Closing));
    case Close(w) => assert WorkerOk(y, w); PutKeeps(y, w, y.workers[w].(phase := Draining, closed := true));
    case Finish(w) => assert WorkerOk(y, w); PutKeeps(y, w, y.workers[w].(phase := Polling(y.clock)));
    case Exit(w) =>
      assert WorkerOk(y, w);
      PutKeeps(y, w, DropReceiver(y.workers[w]));
      NothingThrownAway(idle, gap, y, w);
    case Tick(ms) => TickKeeps(y, ms);
  }

  lemma StopKeeps(y: Sys)
    requires Inv(y) && y.handOff.None?
    ensures Inv(y.(stopped := true))
  {
    forall v | 0 <= v < |y.workers| ensures WorkerOk(y.(stopped := true), v) { assert WorkerOk(y, v); }
    forall j | 0 <= j < |y.log| ensures HasHome(y.(stopped := true), j) { assert HasHome(y, j); }
  }

  lemma TickKeeps(y: Sys, ms: nat)
    requires Inv(y)
    ensures Inv(y.(clock := y.clock + ms))
  {
    var y' := y.(clock := y.clock + ms);
    forall v | 0 <= v < |y.workers| ensures WorkerOk(y', v) { assert WorkerOk(y, v); }
    forall j | 0 <= j < |y.log| ensures HasHome(y', j) { assert HasHome(y, j); }
  }

  /** A worker that leaves throws nothing away. */
  lemma NothingThrownAway(idle: nat, gap: nat, y: Sys, w: nat)
    requires Inv(y) && Enabled(idle, gap, y, Exit(w))
    ensures Apply(idle, gap, y, Exit(w)) == Put(y, w, DropReceiver(y.workers[w]))
  {
    assert WorkerOk(y, w);
    assert (set j | j in y.workers[w].queue) == {};
    assert y.lost + {} == y.lost;
  }

  lemma {:induction false} RunKeeps(idle: nat, gap: nat, y: Sys, acts: seq<Action>, z: Sys)
    requires Inv(y) && Leads(idle, gap, y, acts, z)
    ensures Inv(z)
    decreases |acts|
  {
    if acts != [] {
      StepKeeps(idle, gap, y, acts[0]);
      RunKeeps(idle, gap, Apply(idle, gap, y, acts[0]), acts[1..], z);
    }
  }

  lemma ReachableKeeps(idle: nat, gap: nat, y: Sys)
    requires Reachable(idle, gap, y)
    ensures Inv(y)
  {
    var acts :| Leads(idle, gap, INITIAL, acts, y);
    RunKeeps(idle, gap, INITIAL, acts, y);
  }

  // ---- Exactly once ---------------------------------------------------------------------------------------------

  /** The jobs a worker has finished, in the order it ran them. */
  function Ran(x: Worker): seq<Job> {
    if x.phase.Busy? && x.taken != [] then x.taken[..|x.taken| - 1] else x.taken
  }

  /** The places a job can be in: on its way to a fresh worker, the i-th in a queue, being run, the i-th to have run. */
  datatype Spot = HandedOver | Queued(w: nat, i: nat) | Running(w: nat) | Finished(w: nat, i: nat)

  ghost predicate At(y: Sys, j: Job, s: Spot) {
    match s
    case HandedOver => y.handOff.Some? && y.handOff.value.job == j
    case Queued(w, i) =>
      w < |y.workers| && i < |y.workers[w].queue| && y.workers[w].queue[i] == j
      && !y.workers[w].phase.Leaving? && !y.workers[w].phase.Gone?
    case Running(w) => w < |y.workers| && y.workers[w].phase == Busy(j)
    case Finished(w, i) => w < |y.workers| && i < |Ran(y.workers[w])| && Ran(y.workers[w])[i] == j
  }

  /** The position of a spot's job among all that its worker was sent. */
  function Position(x: Worker, s: Spot): int {
    match s
    case HandedOver => -1
    case Queued(_, i) => |x.taken| + i
    case Running(_) => |x.taken| - 1
    case Finished(_, i) => i
  }

  lemma SpotIsPosition(y: Sys, j: Job, s: Spot)
    requires Inv(y) && At(y, j, s) && !s.HandedOver?
    ensures var p := Position(y.workers[s.w], s); 0 <= p < |y.workers[s.w].sent| && y.workers[s.w].sent[p] == j
  {
    assert WorkerOk(y, s.w);
  }

  lemma PositionHasSpot(y: Sys, w: nat, p: nat) returns (s: Spot)
    requires Inv(y) && w < |y.workers| && p < |y.workers[w].sent|
    ensures At(y, y.workers[w].sent[p], s)
  {
    var x := y.workers[w];
    assert WorkerOk(y, w);
    if p >= |x.taken| {
      s := Queued(w, p - |x.taken|);
    } else if x.phase.Busy? && p == |x.taken| - 1 {
      s := Running(w);
    } else {
      s := Finished(w, p);
    }
  }

  lemma OneSender(y: Sys, v: nat, w: nat, j: Job)
    requires Inv(y) && v < |y.workers| && w < |y.workers| && j in y.workers[v].sent && j in y.workers[w].sent
    ensures v == w
  {
    assert WorkerOk(y, v) && WorkerOk(y, w);
  }

  lemma SpotsAgree(y: Sys, j: Job, s: Spot, r: Spot)
    requires Inv(y) && At(y, j, s) && At(y, j, r)
    ensures s == r
  {
    if !s.HandedOver? { SpotIsPosition(y, j, s); }
    if !r.HandedOver? { SpotIsPosition(y, j, r); }
    if !s.HandedOver? && !r.HandedOver? {
      OneSender(y, s.w, r.w, j);
      SamePosition(y, j, s, r);
    }
  }

  lemma SamePosition(y: Sys, j: Job, s: Spot, r: Spot)
    requires Inv(y) && At(y, j, s) && At(y, j, r) && !s.HandedOver? && !r.HandedOver? && s.w == r.w
    ensures s == r
  {
    var x := y.workers[s.w];
    assert WorkerOk(y, s.w);
    SpotIsPosition(y, j, s);
    SpotIsPosition(y, j, r);
    assert Position(x, s) == Position(x, r);
  }

  lemma SpotExists(y: Sys, j: Job) returns (s: Spot)
    requires Inv(y) && j < |y.log| && j !in y.lost
    ensures At(y, j, s)
  {
    assert HasHome(y, j);
    if y.handOff.Some? && y.handOff.value.job == j {
      s := HandedOver;
    } else {
      var w :| 0 <= w < |y.workers| && j in y.workers[w].sent;
      var p: nat :| p < |y.workers[w].sent| && y.workers[w].sent[p] == j;
      s := PositionHasSpot(y, w, p);
    }
  }

  /** Whatever the interleaving, a dispatched job that no refused first send has lost is in exactly one spot,
      and only once there: never in the queue of a worker that has left, never run twice. */
  lemma EachJobInOneSpot(idle: nat, gap: nat, y: Sys, j: Job)
    requires Reachable(idle, gap, y) && j < |y.log|
    ensures j !in y.lost <==> exists s :: At(y, j, s)
    ensures forall s, r :: At(y, j, s) && At(y, j, r) ==> s == r
  {
    ReachableKeeps(idle, gap, y);
    if j !in y.lost {
      var s := SpotExists(y, j);
    } else {
      forall s ensures !At(y, j, s) {
        if At(y, j, s) && !s.HandedOver? { SpotIsPosition(y, j, s); }
      }
    }
    forall s, r | At(y, j, s) && At(y, j, r) ensures s == r { SpotsAgree(y, j, s, r); }
  }

  /** A worker that has left has a closed channel with nothing in it, and has run all it was ever sent. */
  lemma LeftWithNothing(idle: nat, gap: nat, y: Sys, w: nat)
    requires Reachable(idle, gap, y) && w < |y.workers| && y.workers[w].phase.Gone?
    ensures y.workers[w].closed && y.workers[w].queue == [] && Ran(y.workers[w]) == y.workers[w].sent
  {
    ReachableKeeps(idle, gap, y);
    assert WorkerOk(y, w);
  }

  /** One worker takes its jobs in the order they were dispatched, and what it has taken is what came first. */
  lemma TakenInDispatchOrder(idle: nat, gap: nat, y: Sys, w: nat)
    requires Reachable(idle, gap, y) && w < |y.workers|
    ensures y.workers[w].taken <= y.workers[w].sent
    ensures forall i, k :: 0 <= i < k < |y.workers[w].taken| ==> y.workers[w].taken[i] < y.workers[w].taken[k]
    ensures forall j :: j in y.workers[w].sent ==> j < |y.log| && y.log[j] == y.workers[w].key
  {
    ReachableKeeps(idle, gap, y);
    assert WorkerOk(y, w);
    var x := y.workers[w];
    forall i, k | 0 <= i < k < |x.taken| ensures x.taken[i] < x.taken[k] {
      assert x.sent[i] == x.taken[i] && x.sent[k] == x.taken[k];
    }
  }

  // ---- When a job can be lost -----------------------------------------------------------------------------------

  /** The worker of a hand-off under way still waits for its first job, and has not waited for long. */
  ghost predicate FreshWaits(idle: nat, gap: nat, y: Sys) {
    y.handOff.Some? ==>
      var h := y.handOff.value;
      && h.worker < |y.workers| && !y.workers[h.worker].closed && h.since <= y.clock <= h.since + gap
      && var phase := y.workers[h.worker].phase;
         (phase.Starting? || (phase.Polling? && phase.since >= h.since))
  }

  lemma FreshWaitsStep(idle: nat, gap: nat, y: Sys, a: Action)
    requires gap < idle && Inv(y) && FreshWaits(idle, gap, y) && y.lost == {} && Enabled(idle, gap, y, a)
    ensures FreshWaits(idle, gap, Apply(idle, gap, y, a)) && Apply(idle, gap, y, a).lost == {}
  {
    if a.Exit? {
      NothingThrownAway(idle, gap, y, a.w);
    }
    if y.handOff.Some? {
      assert WorkerOk(y, y.handOff.value.worker);
      assert Connected(y, y.handOff.value.worker);
      assert y.workers[y.handOff.value.worker].queue == [];
    }
  }

  lemma {:induction false} RunLosesNothing(idle: nat, gap: nat, y: Sys, acts: seq<Action>, z: Sys)
    requires gap < idle && Inv(y) && FreshWaits(idle, gap, y) && y.lost == {} && Leads(idle, gap, y, acts, z)
    ensures z.lost == {}
    decreases |acts|
  {
    if acts != [] {
      StepKeeps(idle, gap, y, acts[0]);
      FreshWaitsStep(idle, gap, y, acts[0]);
      RunLosesNothing(idle, gap, Apply(idle, gap, y, acts[0]), acts[1..], z);
    }
  }

  lemma {:induction false} LeadsStep(idle: nat, gap: nat, y: Sys, a: Action, acts: seq<Action>, z: Sys)
    requires Enabled(idle, gap, y, a) && Leads(idle, gap, Apply(idle, gap, y, a), acts, z)
    ensures Leads(idle, gap, y, [a] + acts, z)
  {
    assert ([a] + acts)[1..] == acts;
  }

  /** The first job of a chat whose fresh worker gives up before the job is in its channel. */
  lemma SlowFirstSend(idle: nat, gap: nat) returns (acts: seq<Action>, z: Sys)
    requires idle <= gap
    ensures Leads(idle, gap, INITIAL, acts, z) && 0 in z.lost
  {
    var y1 := Apply(idle, gap, INITIAL, Send(None));
    var y2 := Apply(idle, gap, y1, Begin(0));
    var y3 := Apply(idle, gap, y2, Tick(idle));
    var y4 := Apply(idle, gap, y3, TimeOut(0));
    var y5 := Apply(idle, gap, y4, Close(0));
    z := Apply(idle, gap, y5, Place);
    LeadsStep(idle, gap, y5, Place, [], z);
    LeadsStep(idle, gap, y4, Close(0), [Place], z);
    LeadsStep(idle, gap, y3, TimeOut(0), [Close(0)] + [Place], z);
    LeadsStep(idle, gap, y2, Tick(idle), [TimeOut(0)] + ([Close(0)] + [Place]), z);
    LeadsStep(idle, gap, y1, Begin(0), [Tick(idle)] + ([TimeOut(0)] + ([Close(0)] + [Place])), z);
    acts := [Send(None)] + ([Begin(0)] + ([Tick(idle)] + ([TimeOut(0)] + ([Close(0)] + [Place]))));
    LeadsStep(idle, gap, INITIAL, Send(None), acts[1..], z);
  }

  /** No interleaving loses a job, exactly when a worker's patience outlasts the gap between starting it and
      putting its first job into its channel. */
  lemma NothingLostIff(idle: nat, gap: nat)
    ensures (forall y :: Reachable(idle, gap, y) ==> y.lost == {}) <==> gap < idle
  {
    if gap < idle {
      forall y | Reachable(idle, gap, y) ensures y.lost == {} {
        var acts :| Leads(idle, gap, INITIAL, acts, y);
        RunLosesNothing(idle, gap, INITIAL, acts, y);
      }
    } else {
      var acts, z := SlowFirstSend(idle, gap);
      assert Reachable(idle, gap, z);
    }
  }

  // ---- When a chat's jobs run one at a time ---------------------------------------------------------------------

  /** Two workers of one chat are running a job. */
  ghost predicate Overlap(y: Sys) {
    exists v, w :: 0 <= v < w < |y.workers| && y.workers[v].key == y.workers[w].key
                && y.workers[v].phase.Busy? && y.workers[w].phase.Busy?
  }

  /** A run in which no worker closes its channel on a job that came in after its timer fired. */
  ghost predicate LeadsRaceless(idle: nat, gap: nat, y: Sys, acts: seq<Action>, z: Sys)
    decreases |acts|
  {
    if acts == [] then y == z
    else
      && Enabled(idle, gap, y, acts[0])
      && (acts[0].Close? ==> y.workers[acts[0].w].queue == [])
      && LeadsRaceless(idle, gap, Apply(idle, gap, y, acts[0]), acts[1..], z)
  }

  /** A closed channel is empty and its worker is on its way out. */
  ghost predicate ClosedIsOver(x: Worker) {
    x.closed ==> x.queue == [] && (x.phase.Draining? || x.phase.Leaving? || x.phase.Gone?)
  }

  ghost predicate AllClosedAreOver(y: Sys) {
    forall w :: 0 <= w < |y.workers| ==> ClosedIsOver(y.workers[w])
  }

  lemma RacelessStep(idle: nat, gap: nat, y: Sys, a: Action)
    requires Inv(y) && AllClosedAreOver(y) && Enabled(idle, gap, y, a)
    requires a.Close? ==> y.workers[a.w].queue == []
    ensures AllClosedAreOver(Apply(idle, gap, y, a))
  {
    var y' := Apply(idle, gap, y, a);
    forall w | 0 <= w < |y'.workers| ensures ClosedIsOver(y'.workers[w]) {
      if w < |y.workers| { assert ClosedIsOver(y.workers[w]); }
    }
  }

  lemma {:induction false} RacelessRun(idle: nat, gap: nat, y: Sys, acts: seq<Action>, z: Sys)
    requires Inv(y) && AllClosedAreOver(y) && LeadsRaceless(idle, gap, y, acts, z)
    ensures Inv(z) && AllClosedAreOver(z)
    decreases |acts|
  {
    if acts != [] {
      StepKeeps(idle, gap, y, acts[0]);
      RacelessStep(idle, gap, y, acts[0]);
      RacelessRun(idle, gap, Apply(idle, gap, y, acts[0]), acts[1..], z);
    }
  }

  lemma OverNoOverlap(y: Sys)
    requires Inv(y) && AllClosedAreOver(y)
    ensures !Overlap(y)
  {
    forall v, w | 0 <= v < w < |y.workers| && y.workers[v].key == y.workers[w].key
      ensures !y.workers[v].phase.Busy?
    {
      assert Precedes(y.workers[v], y.workers[w]);
      assert ClosedIsOver(y.workers[v]);
    }
  }

  /** Without such a race a chat's jobs run one at a time in arrival order: while one of them runs, every
      earlier job of the chat has run to its end (or was lost to a refused first send). */
  lemma {:induction false} OneAtATimeInArrivalOrder(idle: nat, gap: nat, acts: seq<Action>, y: Sys, w: nat, i: Job)
    requires LeadsRaceless(idle, gap, INITIAL, acts, y)
    requires w < |y.workers| && y.workers[w].phase.Busy?
    requires i < y.workers[w].phase.job < |y.log| && y.log[i] == y.log[y.workers[w].phase.job]
    ensures i in y.lost || exists v, p :: At(y, i, Finished(v, p))
  {
    RacelessRun(idle, gap, INITIAL, acts, y);
    if i !in y.lost {
      var s := SpotExists(y, i);
      EarlierHasRun(y, w, i, s);
    }
  }

  lemma EarlierHasRun(y: Sys, w: nat, i: Job, s: Spot)
    requires Inv(y) && AllClosedAreOver(y) && At(y, i, s) && w < |y.workers| && y.workers[w].phase.Busy?
    requires i < y.workers[w].phase.job < |y.log| && y.log[i] == y.log[y.workers[w].phase.job]
    ensures s.Finished?
  {
    var x := y.workers[w];
    assert WorkerOk(y, w);
    assert x.sent[|x.taken| - 1] == x.phase.job;
    assert x.phase.job in x.sent;
    if !s.HandedOver? {
      SpotIsPosition(y, i, s);
      assert i in y.workers[s.w].sent;
      assert WorkerOk(y, s.w);
      assert y.workers[s.w].key == x.key;
      assert ClosedIsOver(x);
      OpenIsLast(y, w, s.w);
      if s.w < w {
        assert ClosedIsOver(y.workers[s.w]);
      }
    }
  }

  lemma OpenIsLast(y: Sys, w: nat, v: nat)
    requires Generations(y) && w < |y.workers| && v < |y.workers| && y.workers[v].key == y.workers[w].key
    ensures w < v ==> y.workers[w].closed
    ensures v < w ==> y.workers[v].closed
  {
    assert w < v ==> Precedes(y.workers[w], y.workers[v]);
    assert v < w ==> Precedes(y.workers[v], y.workers[w]);
  }

  ghost predicate CanOverlap(idle: nat, gap: nat, y: Sys) {
    exists acts, z :: LeadsRaceless(idle, gap, y, acts, z) && Overlap(z)
  }

  lemma {:induction false} RacelessLead(idle: nat, gap: nat, y: Sys, a: Action, acts: seq<Action>, z: Sys)
    requires Enabled(idle, gap, y, a) && !a.Close? && LeadsRaceless(idle, gap, Apply(idle, gap, y, a), acts, z)
    ensures LeadsRaceless(idle, gap, y, [a] + acts, z)
  {
    assert ([a] + acts)[1..] == acts;
  }

  /** While a worker of the chat runs a job behind its closed channel and nothing is being handed over, the next
      update of the chat gets a worker of its own, which runs it at the same time. */
  lemma SecondWorker(idle: nat, gap: nat, y: Sys, v: nat) returns (acts: seq<Action>, z: Sys)
    requires Inv(y) && y.handOff.None? && !y.stopped
    requires v < |y.workers| && y.workers[v].phase.Busy? && !Routed(y, y.workers[v].key)
    ensures LeadsRaceless(idle, gap, y, acts, z) && Overlap(z)
  {
    var key, w := y.workers[v].key, |y.workers|;
    var y1 := Apply(idle, gap, y, Send(key));
    var y2 := Apply(idle, gap, y1, Place);
    var y3 := Apply(idle, gap, y2, Begin(w));
    z := Apply(idle, gap, y3, Take(w));
    assert z.workers[v] == y.workers[v];
    assert z.workers[w].key == key && z.workers[w].phase.Busy?;
    assert v < w < |z.workers|;
    assert Overlap(z);
    RacelessLead(idle, gap, y3, Take(w), [], z);
    RacelessLead(idle, gap, y2, Begin(w), [Take(w)], z);
    RacelessLead(idle, gap, y1, Place, [Begin(w)] + [Take(w)], z);
    RacelessLead(idle, gap, y, Send(key), [Place] + ([Begin(w)] + [Take(w)]), z);
    acts := [Send(key)] + ([Place] + ([Begin(w)] + [Take(w)]));
  }

  /** An open worker with jobs is the one its chat's updates are sent to. */
  lemma OpenIsRouted(y: Sys, v: nat)
    requires Inv(y) && !y.stopped && v < |y.workers| && !y.workers[v].closed && y.workers[v].queue != []
    ensures y.workers[v].key in y.table && y.table[y.workers[v].key] == v
    ensures y.handOff.Some? ==> y.handOff.value.worker != v && y.workers[y.handOff.value.worker].key != y.workers[v].key
  {
    assert WorkerOk(y, v);
    if y.handOff.Some? && y.handOff.value.worker != v {
      LastOfItsChat(y, v, y.handOff.value.worker);
    }
  }

  /** So it does once a hand-over to another chat's worker is through. */
  lemma PlacedSecondWorker(idle: nat, gap: nat, y: Sys, v: nat) returns (acts: seq<Action>, z: Sys)
    requires Inv(y) && !y.stopped && v < |y.workers| && y.workers[v].phase.Busy? && !Routed(y, y.workers[v].key)
    requires y.handOff.Some? ==>
      var w := y.handOff.value.worker; w < |y.workers| && w != v && y.workers[w].key != y.workers[v].key
    ensures LeadsRaceless(idle, gap, y, acts, z) && Overlap(z)
  {
    if y.handOff.Some? {
      var y1 := Apply(idle, gap, y, Place);
      StepKeeps(idle, gap, y, Place);
      acts, z := SecondWorker(idle, gap, y1, v);
      RacelessLead(idle, gap, y, Place, acts, z);
      acts := [Place] + acts;
    } else {
      acts, z := SecondWorker(idle, gap, y, v);
    }
  }

  lemma RaceOverlaps(idle: nat, gap: nat, y: Sys, v: nat) returns (acts: seq<Action>, z: Sys)
    requires Inv(y) && !y.stopped && Enabled(idle, gap, y, Close(v)) && y.workers[v].queue != []
    ensures LeadsRaceless(idle, gap, Apply(idle, gap, y, Close(v)), acts, z) && Overlap(z)
  {
    assert WorkerOk(y, v);
    OpenIsRouted(y, v);
    var y1 := Apply(idle, gap, y, Close(v));
    StepKeeps(idle, gap, y, Close(v));
    var y2 := Apply(idle, gap, y1, Take(v));
    StepKeeps(idle, gap, y1, Take(v));
    acts, z := PlacedSecondWorker(idle, gap, y2, v);
    RacelessLead(idle, gap, y1, Take(v), acts, z);
    acts := [Take(v)] + acts;
  }

  /** A chat's updates are not always run one at a time. The step that decides is a worker closing its channel
      after its timer fired: if a job came in between, two workers of the chat can come to run at once, and if
      none did they cannot (unless a later close does it). */
  lemma {:induction false} OverlapIffClosedOnAJob(idle: nat, gap: nat, acts: seq<Action>, y: Sys, v: nat)
    requires LeadsRaceless(idle, gap, INITIAL, acts, y) && !y.stopped && Enabled(idle, gap, y, Close(v))
    ensures !Overlap(y)
    ensures y.workers[v].queue != [] <==> CanOverlap(idle, gap, Apply(idle, gap, y, Close(v)))
  {
    RacelessRun(idle, gap, INITIAL, acts, y);
    OverNoOverlap(y);
    if y.workers[v].queue != [] {
      var more, z := RaceOverlaps(idle, gap, y, v);
    } else {
      StepKeeps(idle, gap, y, Close(v));
      RacelessStep(idle, gap, y, Close(v));
      forall more, z | LeadsRaceless(idle, gap, Apply(idle, gap, y, Close(v)), more, z) ensures !Overlap(z) {
        RacelessRun(idle, gap, Apply(idle, gap, y, Close(v)), more, z);
        OverNoOverlap(z);
      }
    }
  }

  // ---- The two loops --------------------------------------------------------------------------------------------

  /** Only worker `w` has changed. */
  ghost predicate OnlyWorker(y: Sys, y': Sys, w: nat) {
    |y'.workers| == |y.workers| && forall v :: 0 <= v < |y.workers| && v != w ==> y'.workers[v] == y.workers[v]
  }

  /** Only this worker has done something, and time has passed. */
  ghost predicate OnlyWorks(y: Sys, y': Sys, w: nat) {
    && y' == y.(workers := y'.workers, clock := y'.clock)
    && OnlyWorker(y, y', w) && (w < |y.workers| ==> y'.workers[w].sent == y.workers[w].sent)
  }

  lemma WorksOn(y: Sys, y': Sys, y'': Sys, w: nat)
    requires OnlyWorks(y, y', w) && OnlyWorks(y', y'', w)
    ensures OnlyWorks(y, y'', w)
  {
  }

  /** A new job is last in the queue of an open worker of its chat, the one the table names from now on, an old one
      if that is open; all other workers are as they were. */
  ghost predicate Delivered(y: Sys, key: Key, y': Sys) {
    && y'.handOff.None? && y'.lost == y.lost && y'.log == y.log + [key]
    && Routed(y', key) && y'.table == y.table[key := y'.table[key]]
    && |y.workers| <= |y'.workers|
    && (forall v :: 0 <= v < |y.workers| && v != y'.table[key] ==> y'.workers[v] == y.workers[v])
    && (if Routed(y, key) then
          |y'.workers| == |y.workers| && y'.table == y.table
          && y'.workers[y.table[key]] == Accept(y.workers[y.table[key]], |y.log|)
        else
          |y'.workers| == |y.workers| + 1 && y'.table[key] == |y.workers|
          && y'.workers[|y.workers|] == Accept(Fresh(key), |y.log|))
  }

  lemma DeliveredToOld(y: Sys, key: Key)
    requires Inv(y) && y.handOff.None? && Routed(y, key)
    ensures Delivered(y, key, Dispatched(y, key))
  {
    assert y.table[key := y.table[key]] == y.table;
  }

  lemma DeliveredToFresh(y: Sys, key: Key)
    requires Inv(y) && y.handOff.None? && !Routed(y, key)
    ensures Delivered(y, key, FirstSend(Dispatched(y, key)))
  {
  }

  /** The dispatcher and its workers over their shared state, when nobody else moves. */
  class ChatQueues {
    const idle: nat
    const gap: nat
    var state: Sys

    constructor (idle: nat, gap: nat)
      ensures this.idle == idle && this.gap == gap && state == INITIAL && Inv(state)
    {
      this.idle, this.gap, this.state := idle, gap, INITIAL;
    }

    method Step(a: Action)
      requires Inv(state) && Enabled(idle, gap, state, a)
      modifies this`state
      ensures Inv(state) && state == Apply(idle, gap, old(state), a)
    {
      StepKeeps(idle, gap, state, a);
      state := Apply(idle, gap, state, a);
    }

    /** Undisturbed, a dispatch delivers its job. */
    method Dispatch(key: Key)
      requires Inv(state) && state.handOff.None? && !state.stopped
      modifies this`state
      ensures Inv(state) && Delivered(old(state), key, state)
    {
      if key in state.table && !state.workers[state.table[key]].closed {
        DeliveredToOld(state, key);
        Step(Send(key));
      } else {
        DeliveredToFresh(state, key);
        Step(Send(key));
        Step(Place);
      }
    }

    /** Undisturbed, the next job is the first in the queue; without one the worker closes its channel and is
        told to leave. */
    method NextJob(w: nat) returns (job: Option<Job>)
      requires Inv(state) && state.handOff.None? && w < |state.workers| && state.workers[w].phase.Polling?
      modifies this`state
      ensures Inv(state) && state == old(state).(workers := state.workers, clock := state.clock)
      ensures OnlyWorker(old(state), state, w) && state.clock >= old(state.clock)
      ensures old(state.workers[w].queue) != [] ==>
                job == Some(old(state.workers[w].queue)[0]) && state.workers[w] == TakeJob(old(state.workers[w]))
      ensures old(state.workers[w].queue) == [] ==>
                && job == None && (state.workers[w].closed || state.stopped)
                && state.workers[w] == old(state.workers[w]).(phase := Leaving, closed := state.workers[w].closed)
    {
      if state.workers[w].queue == [] && !state.workers[w].closed && Connected(state, w) {
        var wait := state.workers[w].phase.since + idle - state.clock;
        Step(Tick(if wait > 0 then wait else 0));
        Step(TimeOut(w));
        Step(Close(w));
      }
      if state.workers[w].queue != [] {
        Step(Take(w));
        job := Some(state.workers[w].phase.job);
      } else {
        Step(Leave(w));
        assert WorkerOk(state, w);
        job := None;
      }
    }

    /** A worker nobody sends to any more runs every job it still has, in order, and leaves. */
    method ChatWorker(w: nat)
      requires Inv(state) && state.handOff.None? && w < |state.workers| && state.workers[w].phase.Polling?
      modifies this`state
      ensures Inv(state) && OnlyWorks(old(state), state, w)
      ensures state.workers[w].phase.Gone? && state.workers[w].closed && state.workers[w].queue == []
      ensures Ran(state.workers[w]) == old(state.workers[w].taken) + old(state.workers[w].queue)
    {
      ghost var before := state;
      assert WorkerOk(state, w);
      var job := NextJob(w);
      while job.Some?
        invariant Inv(state) && OnlyWorks(before, state, w)
        invariant state.workers[w].phase == if job.Some? then Busy(job.value) else Leaving
        decreases job.Some?, |state.workers[w].queue|
      {
        ghost var was := state;
        job := FinishJob(w);
        WorksOn(before, was, state, w);
      }
      Depart(w);
    }

    /** The job it runs ends, and it waits for the next. */
    method FinishJob(w: nat) returns (job: Option<Job>)
      requires Inv(state) && state.handOff.None? && w < |state.workers| && state.workers[w].phase.Busy?
      modifies this`state
      ensures Inv(state) && OnlyWorks(old(state), state, w)
      ensures state.workers[w].phase == if job.Some? then Busy(job.value) else Leaving
      ensures job.Some? ==> |state.workers[w].queue| < |old(state.workers[w].queue)|
    {
      Step(Finish(w));
      job := NextJob(w);
    }

    /** The worker's task ends, its receiver goes. */
    method Depart(w: nat)
      requires Inv(state) && w < |state.workers| && state.workers[w].phase.Leaving?
      modifies this`state
      ensures state == Put(old(state), w, DropReceiver(old(state.workers[w]))) && Inv(state) && WorkerOk(state, w)
    {
      NothingThrownAway(idle, gap, state, w);
      Step(Exit(w));
      assert WorkerOk(state, w);
    }
  }
}
