/** The multi-main leader election (src/n8n/election.rs): any number of mains, one Redis key that expires, lost
    replies and crashes. Times are in milliseconds on one clock. */
module LeaderElection {

  /** The key's TTL, the lease a leader allows itself, the check interval (which also bounds every call), how
      long a reply takes at most, and how late a check may begin. */
  datatype Params = Params(ttl: nat, lease: nat, interval: nat, delay: nat, late: nat)

  ghost predicate GoodParams(p: Params) {
    p.lease > 0 && p.interval > 0 && p.delay <= p.interval
  }

  datatype Op = Acquire | Renew

  datatype Served = NotYet | At(time: int, granted: bool)

  datatype Phase =
    | Idle(due: int)
    | Calling(due: int, started: int, op: Op, served: Served)

  /** `bidding` until the first bid is answered. */
  datatype Main = Main(alive: bool, gate: bool, lastHeld: int, phase: Phase, bidding: bool)

  datatype Key = Vacant | Held(main: nat, until: int)

  /** `strays` are requests whose caller gave up before Redis ran them. */
  datatype Sys = Sys(now: int, key: Key, mains: map<nat, Main>, strays: set<(nat, Op)>)

  const INITIAL := Sys(0, Vacant, map[], {})

  // ---- Redis ----------------------------------------------------------------------------------------------------

  predicate Free(key: Key, now: int) {
    key.Vacant? || key.until <= now
  }

  /** SET NX EX, and the compare-and-expire script. */
  function Serve(p: Params, key: Key, now: int, m: nat, op: Op): (Key, bool) {
    match op
    case Acquire => if Free(key, now) then (Held(m, now + p.ttl), true) else (key, false)
    case Renew => if !Free(key, now) && key.main == m then (Held(m, now + p.ttl), true) else (key, false)
  }

  // ---- A main ---------------------------------------------------------------------------------------------------

  datatype Reply = Ok(granted: bool) | Error

  /** The end of a check: the gate, and when the lock was last held. */
  function AfterCheck(lease: nat, gate: bool, lastHeld: int, reply: Reply, now: int): (bool, int) {
    match reply
    case Ok(granted) => (granted, if granted then now else lastHeld)
    case Error => (gate && now - lastHeld < lease, lastHeld)
  }

  class Election {
    const lease: nat
    var gate: bool
    var lastHeld: int

    constructor (lease: nat, granted: bool, now: int)
      ensures this.lease == lease && gate == granted && lastHeld == now
    {
      this.lease, this.gate, this.lastHeld := lease, granted, now;
    }

    /** What `check` does with the backend's reply: renewals for a leader, bids for a follower. */
    method Check(reply: Reply, now: int)
      modifies this
      ensures (gate, lastHeld) == AfterCheck(lease, old(gate), old(lastHeld), reply, now)
    {
      var wasLeader, nowLeader := gate, false;
      if wasLeader {
        match reply {
          case Ok(true) =>
            lastHeld := now;
            nowLeader := true;
          case Ok(false) =>
            nowLeader := false;
          case Error =>
            nowLeader := now - lastHeld < lease;
        }
      } else {
        match reply {
          case Ok(got) =>
            if got {
              lastHeld := now;
            }
            nowLeader := got;
          case Error =>
            nowLeader := false;
        }
      }
      if nowLeader != wasLeader {
        gate := nowLeader;
      }
    }
  }

  /** A call ends: the first bid sets the gate and starts the clock of checks, a check updates the gate. The clock
      ticks once an interval, however long the checks take. */
  function CallEnds(p: Params, x: Main, reply: Reply, now: int): Main
    requires x.phase.Calling?
  {
    if x.bidding then Main(x.alive, reply == Ok(true), now, Idle(now + p.interval), false)
    else
      var (gate, lastHeld) := AfterCheck(p.lease, x.gate, x.lastHeld, reply, now);
      Main(x.alive, gate, lastHeld, Idle(x.phase.due + p.interval), false)
  }

  // ---- Steps ----------------------------------------------------------------------------------------------------

  datatype Action =
    | Join(m: nat)
    | Begin(m: nat)
    | RunCall(m: nat)
    | Answer(m: nat)
    | Fail(m: nat)
    | RunStray(m: nat, op: Op)
    | Crash(m: nat)
    | Tick(ms: nat)

  predicate Live(y: Sys, m: nat) {
    m in y.mains && y.mains[m].alive
  }

  /** No call outlives the interval, and no check begins later than allowed after its tick. */
  predicate InTime(p: Params, x: Main, now: int) {
    x.alive ==>
      match x.phase
      case Idle(due) => now <= due + p.late
      case Calling(_, started, _, _) => now <= started + p.interval
  }

  predicate Enabled(p: Params, y: Sys, a: Action) {
    match a
    case Join(m) => m !in y.mains
    case Begin(m) => Live(y, m) && y.mains[m].phase.Idle? && y.mains[m].phase.due <= y.now
    case RunCall(m) => Live(y, m) && y.mains[m].phase.Calling? && y.mains[m].phase.served.NotYet?
    case Answer(m) =>
      Live(y, m) && y.mains[m].phase.Calling? && y.mains[m].phase.served.At? &&
        y.now <= y.mains[m].phase.served.time + p.delay
    case Fail(m) => Live(y, m) && y.mains[m].phase.Calling?
    case RunStray(m, op) => (m, op) in y.strays
    case Crash(m) => Live(y, m)
    case Tick(ms) => forall m :: m in y.mains ==> InTime(p, y.mains[m], y.now + ms)
  }

  function Put(y: Sys, m: nat, x: Main): Sys {
    y.(mains := y.mains[m := x])
  }

  function Apply(p: Params, y: Sys, a: Action): Sys
    requires Enabled(p, y, a)
  {
    match a
    case Join(m) => Put(y, m, Main(true, false, y.now, Calling(y.now, y.now, Acquire, NotYet), true))
    case Begin(m) =>
      var x := y.mains[m];
      Put(y, m, x.(phase := Calling(x.phase.due, y.now, if x.gate then Renew else Acquire, NotYet)))
    case RunCall(m) =>
      var x := y.mains[m];
      var (key, granted) := Serve(p, y.key, y.now, m, x.phase.op);
      Put(y.(key := key), m, x.(phase := x.phase.(served := At(y.now, granted))))
    case Answer(m) => Put(y, m, CallEnds(p, y.mains[m], Ok(y.mains[m].phase.served.granted), y.now))
    case Fail(m) =>
      var x := y.mains[m];
      var left := if x.phase.served.NotYet? then y.(strays := y.strays + {(m, x.phase.op)}) else y;
      Put(left, m, CallEnds(p, x, Error, y.now))
    case RunStray(m, op) => y.(key := Serve(p, y.key, y.now, m, op).0, strays := y.strays - {(m, op)})
    case Crash(m) => Put(y, m, y.mains[m].(alive := false))
    case Tick(ms) => y.(now := y.now + ms)
  }

  ghost predicate Trace(p: Params, t: seq<Sys>) {
    && |t| > 0 && t[0] == INITIAL
    && forall m, n :: 0 <= m < n == m + 1 < |t| ==> Next(p, t[m], t[n])
  }

  ghost predicate Next(p: Params, y: Sys, y': Sys) {
    exists a :: Enabled(p, y, a) && y' == Apply(p, y, a)
  }

  lemma ActionOf(p: Params, y: Sys, y': Sys) returns (a: Action)
    requires Next(p, y, y')
    ensures Enabled(p, y, a) && y' == Apply(p, y, a)
  {
    a :| Enabled(p, y, a) && y' == Apply(p, y, a);
  }

  predicate Leads(y: Sys, m: nat) {
    Live(y, m) && y.mains[m].gate
  }

  ghost predicate Exclusive(y: Sys) {
    forall m, n :: Leads(y, m) && Leads(y, n) ==> m == n
  }

  // ---- A leader steps down in time ------------------------------------------------------------------------------

  /** The first tick at or after a time. */
  function FirstTick(due: int, goal: int, interval: nat): (tick: int)
    requires interval > 0
    ensures tick >= due && tick >= goal && (tick == due || tick < goal + interval)
    decreases goal - due
  {
    if due >= goal then due else FirstTick(due + interval, goal, interval)
  }

  /** A leader whose checks all fail is done by then: at the first tick with the lease over, begun as late as it may,
      the call timing out. */
  function Limit(p: Params, x: Main): int
    requires p.interval > 0
  {
    FirstTick(x.phase.due, x.lastHeld + p.lease, p.interval) + p.late + p.interval
  }

  /** Ticks and calls are on schedule; a leader's next tick comes before its lease and one more interval are over. */
  ghost predicate Timely(p: Params, x: Main, now: int) {
    x.alive ==>
      && InTime(p, x, now)
      && (x.bidding ==> x.phase.Calling? && !x.gate)
      && (x.gate ==> x.phase.due < x.lastHeld + p.lease + p.interval)
  }

  ghost predicate AllTimely(p: Params, y: Sys) {
    forall m :: m in y.mains ==> Timely(p, y.mains[m], y.now)
  }

  /** A call starts at its tick or not much later, and not in the future. */
  ghost predicate Begun(p: Params, x: Main, now: int) {
    x.phase.Calling? ==> x.phase.started <= now && x.phase.due <= x.phase.started <= x.phase.due + p.late
  }

  ghost predicate AllBegun(p: Params, y: Sys) {
    forall m :: m in y.mains ==> Begun(p, y.mains[m], y.now)
  }

  lemma TimelyStep(p: Params, y: Sys, a: Action)
    requires GoodParams(p) && AllTimely(p, y) && AllBegun(p, y) && Enabled(p, y, a)
    ensures AllTimely(p, Apply(p, y, a)) && AllBegun(p, Apply(p, y, a))
  {
    var y' := Apply(p, y, a);
    forall m | m in y'.mains ensures Timely(p, y'.mains[m], y'.now) && Begun(p, y'.mains[m], y'.now) {
      if m in y.mains {
        assert Timely(p, y.mains[m], y.now) && Begun(p, y.mains[m], y.now);
      }
    }
  }

  lemma {:induction false} TraceTimely(p: Params, t: seq<Sys>, n: nat)
    requires GoodParams(p) && Trace(p, t) && n < |t|
    ensures AllTimely(p, t[n]) && AllBegun(p, t[n])
  {
    if n > 0 {
      TraceTimely(p, t, n - 1);
      var a := ActionOf(p, t[n - 1], t[n]);
      TimelyStep(p, t[n - 1], a);
    }
  }

  /** Whatever fails, a main that still leads was told it holds the lock less than the lease, two intervals and the
      lateness ago. */
  lemma LeadersAreFresh(p: Params, t: seq<Sys>, n: nat, m: nat)
    requires GoodParams(p) && Trace(p, t) && n < |t| && Leads(t[n], m)
    ensures t[n].now < t[n].mains[m].lastHeld + p.lease + 2 * p.interval + p.late
  {
    TraceTimely(p, t, n);
    assert Timely(p, t[n].mains[m], t[n].now) && Begun(p, t[n].mains[m], t[n].now);
  }

  // ---- At most one leader ---------------------------------------------------------------------------------------

  /** The most whole intervals that an answer as late as possible and the lease behind it can span, at its tick. */
  function Spanned(p: Params): nat
    requires p.interval > 0
  {
    (p.interval + p.late + p.lease - 1) / p.interval
  }

  /** Reply delay, lease, two intervals and the lateness fit in the TTL, or the ticks are so placed that less do. */
  ghost predicate LongEnough(p: Params)
    requires GoodParams(p)
  {
    || p.delay + p.lease + 2 * p.interval + p.late <= p.ttl
    || (Spanned(p) + 2) * p.interval + p.late < p.ttl
  }

  /** The first tick after an answer's lease is over is at most this far from the tick of its check. */
  lemma {:induction false} TickWithin(due: int, goal: int, interval: nat, n: nat)
    requires interval > 0 && goal <= due + n * interval
    ensures FirstTick(due, goal, interval) <= due + n * interval
    decreases n
  {
    if due < goal {
      if n == 0 {
        assert false;
      } else {
        assert n * interval == interval + (n - 1) * interval;
        TickWithin(due + interval, goal, interval, n - 1);
      }
    }
  }

  /** A grant outlasts the lead it gives: `due` is the tick of the check, `held` when the answer came. */
  lemma GrantOutlasts(p: Params, due: int, served: int, held: int)
    requires GoodParams(p) && LongEnough(p)
    requires due <= served <= held <= served + p.delay && held <= due + p.late + p.interval
    ensures FirstTick(due + p.interval, held + p.lease, p.interval) + p.late + p.interval < served + p.ttl
  {
    if p.delay + p.lease + 2 * p.interval + p.late > p.ttl {
      var n := Spanned(p);
      SpannedCovers(p);
      TickWithin(due, held + p.lease, p.interval, n + 1);
      TickSkips(p, due, held + p.lease);
    }
  }

  lemma SpannedCovers(p: Params)
    requires GoodParams(p)
    ensures p.interval + p.late + p.lease <= (Spanned(p) + 1) * p.interval
  {
    var x := p.interval + p.late + p.lease - 1;
    assert x == p.interval * (x / p.interval) + x % p.interval;
  }

  lemma TickSkips(p: Params, due: int, goal: int)
    requires p.interval > 0 && due < goal
    ensures FirstTick(due + p.interval, goal, p.interval) == FirstTick(due, goal, p.interval)
  {
  }

  /** So does the grant of the first bid, with the clock of checks starting at its answer. */
  lemma BidOutlasts(p: Params, served: int, held: int)
    requires GoodParams(p) && LongEnough(p) && served <= held <= served + p.delay
    ensures FirstTick(held + p.interval, held + p.lease, p.interval) + p.late + p.interval < served + p.ttl
  {
    if p.delay + p.lease + 2 * p.interval + p.late > p.ttl {
      var n := Spanned(p);
      SpannedCovers(p);
      assert (n + 1) * p.interval == n * p.interval + p.interval;
      TickWithin(held, held + p.lease, p.interval, n);
      TickSkips(p, held, held + p.lease);
    }
  }

  /** The lock stays this main's until the time given, at least. */
  ghost predicate KeyFor(key: Key, m: nat, until: int) {
    key.Held? && key.main == m && until <= key.until
  }

  /** A leader's lock, and a grant whose reply can still arrive. */
  ghost predicate Backed(p: Params, y: Sys, m: nat)
    requires GoodParams(p) && m in y.mains
  {
    var x := y.mains[m];
    x.alive ==>
      && (x.gate ==> KeyFor(y.key, m, Limit(p, x) + 1))
      && (x.phase.Calling? && x.phase.served.At? ==>
            x.phase.started <= x.phase.served.time <= y.now &&
            (x.phase.served.granted && y.now <= x.phase.served.time + p.delay ==>
              KeyFor(y.key, m, x.phase.served.time + p.ttl)))
  }

  ghost predicate Safe(p: Params, y: Sys)
    requires GoodParams(p)
  {
    && AllTimely(p, y) && AllBegun(p, y)
    && (y.key.Held? ==> y.key.until <= y.now + p.ttl)
    && forall m :: m in y.mains ==> Backed(p, y, m)
  }

  /** A lock some main relies on has not run out, so nobody else takes it. */
  lemma ServeKeepsOthers(p: Params, y: Sys, m: nat, op: Op, n: nat)
    requires GoodParams(p) && LongEnough(p) && Safe(p, y) && n in y.mains && n != m
    ensures Backed(p, y.(key := Serve(p, y.key, y.now, m, op).0), n)
  {
    assert Backed(p, y, n) && Timely(p, y.mains[n], y.now) && Begun(p, y.mains[n], y.now);
  }

  lemma ServeKeepsOwn(p: Params, y: Sys, m: nat, op: Op)
    requires GoodParams(p) && LongEnough(p) && Safe(p, y) && m in y.mains
    ensures Backed(p, y.(key := Serve(p, y.key, y.now, m, op).0), m)
  {
    assert Backed(p, y, m) && Timely(p, y.mains[m], y.now) && Begun(p, y.mains[m], y.now);
  }

  lemma ServeKeeps(p: Params, y: Sys, m: nat, op: Op)
    requires GoodParams(p) && LongEnough(p) && Safe(p, y)
    ensures Safe(p, y.(key := Serve(p, y.key, y.now, m, op).0))
  {
    var y' := y.(key := Serve(p, y.key, y.now, m, op).0);
    forall n | n in y'.mains ensures Backed(p, y', n) {
      if n == m { ServeKeepsOwn(p, y, m, op); } else { ServeKeepsOthers(p, y, m, op, n); }
    }
    forall n | n in y'.mains ensures Timely(p, y'.mains[n], y'.now) && Begun(p, y'.mains[n], y'.now) {
      assert Timely(p, y.mains[n], y.now) && Begun(p, y.mains[n], y.now);
    }
  }

  lemma AnswerBacks(p: Params, y: Sys, n: nat)
    requires GoodParams(p) && LongEnough(p) && Safe(p, y) && Enabled(p, y, Answer(n))
    ensures Backed(p, Apply(p, y, Answer(n)), n)
  {
    var x := y.mains[n];
    assert Backed(p, y, n) && Timely(p, x, y.now) && Begun(p, x, y.now);
    if x.phase.served.granted {
      if x.bidding {
        BidOutlasts(p, x.phase.served.time, y.now);
      } else {
        GrantOutlasts(p, x.phase.due, x.phase.served.time, y.now);
      }
    }
  }

  lemma FailBacks(p: Params, y: Sys, n: nat)
    requires GoodParams(p) && LongEnough(p) && Safe(p, y) && Enabled(p, y, Fail(n))
    ensures Backed(p, Apply(p, y, Fail(n)), n)
  {
    var x := y.mains[n];
    assert Backed(p, y, n) && Timely(p, x, y.now) && Begun(p, x, y.now);
    if x.gate && y.now - x.lastHeld < p.lease {
      TickSkips(p, x.phase.due, x.lastHeld + p.lease);
    }
  }

  lemma BackedOne(p: Params, y: Sys, a: Action, n: nat)
    requires GoodParams(p) && LongEnough(p) && Safe(p, y) && Enabled(p, y, a)
    requires !a.RunCall? && !a.RunStray? && n in Apply(p, y, a).mains && a != Answer(n) && a != Fail(n)
    ensures Backed(p, Apply(p, y, a), n)
  {
    if n in y.mains {
      assert Backed(p, y, n);
    }
  }

  lemma BackedAfterCall(p: Params, y: Sys, m: nat, n: nat)
    requires GoodParams(p) && LongEnough(p) && Safe(p, y) && Enabled(p, y, RunCall(m)) && n in y.mains
    ensures Backed(p, Apply(p, y, RunCall(m)), n)
  {
    var mid := y.(key := Serve(p, y.key, y.now, m, y.mains[m].phase.op).0);
    ServeKeeps(p, y, m, y.mains[m].phase.op);
    assert Backed(p, mid, n);
  }

  lemma SafeStep(p: Params, y: Sys, a: Action)
    requires GoodParams(p) && LongEnough(p) && Safe(p, y) && Enabled(p, y, a)
    ensures Safe(p, Apply(p, y, a))
  {
    TimelyStep(p, y, a);
    forall n | n in Apply(p, y, a).mains ensures Backed(p, Apply(p, y, a), n) {
      match a
      case RunCall(m) => BackedAfterCall(p, y, m, n);
      case RunStray(m, op) =>
        ServeKeeps(p, y, m, op);
        assert Backed(p, y.(key := Serve(p, y.key, y.now, m, op).0), n);
      case _ =>
        if a == Answer(n) {
          AnswerBacks(p, y, n);
        } else if a == Fail(n) {
          FailBacks(p, y, n);
        } else {
          BackedOne(p, y, a, n);
        }
    }
  }

  lemma {:induction false} TraceSafe(p: Params, t: seq<Sys>, n: nat)
    requires GoodParams(p) && LongEnough(p) && Trace(p, t) && n < |t|
    ensures Safe(p, t[n])
  {
    if n > 0 {
      TraceSafe(p, t, n - 1);
      var a := ActionOf(p, t[n - 1], t[n]);
      SafeStep(p, t[n - 1], a);
    }
  }

  /** At most one main leads, at every moment of every run. */
  lemma AtMostOneLeader(p: Params, t: seq<Sys>, n: nat)
    requires GoodParams(p) && LongEnough(p) && Trace(p, t) && n < |t|
    ensures Exclusive(t[n])
  {
    TraceSafe(p, t, n);
    forall a, b | Leads(t[n], a) && Leads(t[n], b) ensures a == b {
      assert Backed(p, t[n], a) && Backed(p, t[n], b);
    }
  }

  // ---- The condition is exact -----------------------------------------------------------------------------------

  ghost predicate AlwaysExclusive(p: Params) {
    forall t, n :: Trace(p, t) && 0 <= n < |t| ==> Exclusive(t[n])
  }

  lemma Extend(p: Params, t: seq<Sys>, a: Action)
    requires Trace(p, t) && Enabled(p, t[|t| - 1], a)
    ensures Trace(p, t + [Apply(p, t[|t| - 1], a)])
  {
    var y, y' := t[|t| - 1], Apply(p, t[|t| - 1], a);
    assert Next(p, y, y');
    var t' := t + [y'];
    forall n | 0 < n < |t'| ensures Next(p, t'[n - 1], t'[n]) {
      if n < |t| { assert t'[n - 1] == t[n - 1] && t'[n] == t[n]; }
    }
  }

  /** One main leads since `held`, and the lock is its own until `until`. */
  ghost predicate Lonely(p: Params, y: Sys, held: int, until: int) {
    && y.key == Held(0, until)
    && (forall m :: m in y.mains <==> m == 0)
    && y.mains[0].alive && y.mains[0].gate && !y.mains[0].bidding && y.mains[0].lastHeld == held
  }

  ghost predicate LonelyIdle(p: Params, y: Sys, held: int, until: int, due: int) {
    Lonely(p, y, held, until) && y.mains[0].phase == Idle(due) && y.now <= due + p.late
  }

  /** The main so far, by itself; the key has never been taken. */
  ghost predicate Alone(p: Params, y: Sys, now: int, phase: Phase) {
    && y.now == now && y.key == Vacant && y.mains == map[0 := Main(true, false, 0, phase, false)]
    && InTime(p, y.mains[0], now)
  }

  lemma Pass(p: Params, t: seq<Sys>, now: int, phase: Phase, ms: nat) returns (t': seq<Sys>)
    requires Trace(p, t) && Alone(p, t[|t| - 1], now, phase) && InTime(p, Main(true, false, 0, phase, false), now + ms)
    ensures Trace(p, t') && Alone(p, t'[|t'| - 1], now + ms, phase)
  {
    Extend(p, t, Tick(ms));
    t' := t + [Apply(p, t[|t| - 1], Tick(ms))];
  }

  /** The first bid fails at once; the first check is due an interval later. */
  lemma FailedBid(p: Params) returns (t: seq<Sys>)
    requires GoodParams(p)
    ensures Trace(p, t) && Alone(p, t[|t| - 1], 0, Idle(p.interval))
  {
    var y1 := Apply(p, INITIAL, Join(0));
    Extend(p, [INITIAL], Join(0));
    Extend(p, [INITIAL] + [y1], Fail(0));
    t := [INITIAL] + [y1] + [Apply(p, y1, Fail(0))];
  }

  /** The first check begins `begin` after its tick, is served `served` after it and answered `answer` after it. */
  lemma FirstLeader(p: Params, begin: nat, served: nat, answer: nat) returns (t: seq<Sys>)
    requires GoodParams(p) && begin <= served <= answer <= served + p.delay && begin <= p.late
    requires answer <= begin + p.interval
    ensures Trace(p, t) && t[|t| - 1].now == p.interval + answer
    ensures LonelyIdle(p, t[|t| - 1], p.interval + answer, p.interval + served + p.ttl, 2 * p.interval)
  {
    var d := p.interval;
    var t1 := FailedBid(p);
    var t2 := Pass(p, t1, 0, Idle(d), d + begin);
    Extend(p, t2, Begin(0));
    var call := Calling(d, d + begin, Acquire, NotYet);
    var t3 := t2 + [Apply(p, t2[|t2| - 1], Begin(0))];
    var t4 := Pass(p, t3, d + begin, call, served - begin);
    t := Granted(p, t4, begin, served, answer);
  }

  lemma Granted(p: Params, t: seq<Sys>, begin: nat, served: nat, answer: nat) returns (t': seq<Sys>)
    requires GoodParams(p) && begin <= served <= answer <= served + p.delay && begin <= p.late
    requires answer <= begin + p.interval
    requires Trace(p, t)
    requires Alone(p, t[|t| - 1], p.interval + served, Calling(p.interval, p.interval + begin, Acquire, NotYet))
    ensures Trace(p, t') && t'[|t'| - 1].now == p.interval + answer
    ensures LonelyIdle(p, t'[|t'| - 1], p.interval + answer, p.interval + served + p.ttl, 2 * p.interval)
  {
    var y := t[|t| - 1];
    Extend(p, t, RunCall(0));
    var y1 := Apply(p, y, RunCall(0));
    var t1 := t + [y1];
    Extend(p, t1, Tick(answer - served));
    var y2 := Apply(p, y1, Tick(answer - served));
    var t2 := t1 + [y2];
    Extend(p, t2, Answer(0));
    t' := t2 + [Apply(p, y2, Answer(0))];
  }

  lemma Wait(p: Params, t: seq<Sys>, held: int, until: int, due: int, ms: nat) returns (t': seq<Sys>)
    requires Trace(p, t) && LonelyIdle(p, t[|t| - 1], held, until, due) && t[|t| - 1].now + ms <= due + p.late
    ensures Trace(p, t') && LonelyIdle(p, t'[|t'| - 1], held, until, due) && t'[|t'| - 1].now == t[|t| - 1].now + ms
  {
    Extend(p, t, Tick(ms));
    t' := t + [Apply(p, t[|t| - 1], Tick(ms))];
  }

  /** A check that cannot reach Redis, within the lease: the leader holds on. */
  lemma FailedCheck(p: Params, t: seq<Sys>, held: int, until: int, due: int) returns (t': seq<Sys>)
    requires GoodParams(p) && Trace(p, t) && LonelyIdle(p, t[|t| - 1], held, until, due) && due <= t[|t| - 1].now
    requires t[|t| - 1].now - held < p.lease
    ensures Trace(p, t') && t'[|t'| - 1].now == t[|t| - 1].now
    ensures LonelyIdle(p, t'[|t'| - 1], held, until, due + p.interval)
  {
    var y := t[|t| - 1];
    Extend(p, t, Begin(0));
    var y1 := Apply(p, y, Begin(0));
    var t1 := t + [y1];
    Extend(p, t1, Fail(0));
    t' := t1 + [Apply(p, y1, Fail(0))];
  }

  /** A check hangs until its timeout. */
  lemma HangingCheck(p: Params, t: seq<Sys>, held: int, until: int, due: int, ms: nat) returns (t': seq<Sys>)
    requires GoodParams(p) && Trace(p, t) && LonelyIdle(p, t[|t| - 1], held, until, due) && due <= t[|t| - 1].now
    requires ms <= p.interval
    ensures Trace(p, t') && t'[|t'| - 1].now == t[|t| - 1].now + ms && Lonely(p, t'[|t'| - 1], held, until)
  {
    var y := t[|t| - 1];
    Extend(p, t, Begin(0));
    var y1 := Apply(p, y, Begin(0));
    var t1 := t + [y1];
    Extend(p, t1, Tick(ms));
    t' := t1 + [Apply(p, y1, Tick(ms))];
  }

  /** Failing check after failing check, each at its tick, until the lease is over. */
  lemma {:induction false} HoldOn(p: Params, t: seq<Sys>, held: int, until: int, due: int) returns (t': seq<Sys>)
    requires GoodParams(p) && Trace(p, t) && LonelyIdle(p, t[|t| - 1], held, until, due)
    requires held <= t[|t| - 1].now < held + p.lease
    ensures Trace(p, t') && held <= t'[|t'| - 1].now < held + p.lease
    ensures LonelyIdle(p, t'[|t'| - 1], held, until, FirstTick(due, held + p.lease, p.interval))
    decreases held + p.lease - due
  {
    if due >= held + p.lease {
      t' := t;
    } else {
      var now := t[|t| - 1].now;
      var t1 := Wait(p, t, held, until, due, if now < due then due - now else 0);
      var t2 := FailedCheck(p, t1, held, until, due);
      t' := HoldOn(p, t2, held, until, due + p.interval);
    }
  }

  /** The check after that begins as late as it may and hangs: the leader leads at any time up to its limit. */
  lemma LeadUntil(p: Params, t: seq<Sys>, held: int, until: int, due: int, goal: int) returns (t': seq<Sys>)
    requires GoodParams(p) && Trace(p, t) && LonelyIdle(p, t[|t| - 1], held, until, due)
    requires t[|t| - 1].now <= goal <= due + p.late + p.interval
    ensures Trace(p, t') && t'[|t'| - 1].now == goal && Lonely(p, t'[|t'| - 1], held, until)
  {
    var now := t[|t| - 1].now;
    if goal <= due + p.late {
      t' := Wait(p, t, held, until, due, goal - now);
    } else {
      var t1 := Wait(p, t, held, until, due, due + p.late - now);
      t' := HangingCheck(p, t1, held, until, due, goal - due - p.late);
    }
  }

  /** Once the lock has run out a second main takes it, while the first still leads. */
  lemma SecondLeader(p: Params, t: seq<Sys>, held: int, until: int) returns (t': seq<Sys>)
    requires GoodParams(p) && Trace(p, t) && Lonely(p, t[|t| - 1], held, until) && until <= t[|t| - 1].now
    ensures Trace(p, t') && Leads(t'[|t'| - 1], 0) && Leads(t'[|t'| - 1], 1)
  {
    var y := t[|t| - 1];
    Extend(p, t, Join(1));
    var y1 := Apply(p, y, Join(1));
    var t1 := t + [y1];
    Extend(p, t1, RunCall(1));
    var y2 := Apply(p, y1, RunCall(1));
    var t2 := t1 + [y2];
    Extend(p, t2, Answer(1));
    t' := t2 + [Apply(p, y2, Answer(1))];
  }

  /** The worst answer: how long after the check's tick it comes. The last tick before its lease is over is then as
      close to the lease's end as it can be. */
  lemma WorstAnswer(p: Params) returns (answer: nat)
    requires GoodParams(p)
    ensures p.late < answer <= p.interval + p.late
    ensures answer + p.lease == Spanned(p) * p.interval + 1 && Spanned(p) > 0
  {
    var x := p.interval + p.late + p.lease - 1;
    assert x == p.interval * (x / p.interval) + x % p.interval;
    answer := Spanned(p) * p.interval + 1 - p.lease;
  }

  /** A tick just before a time is followed by one an interval later. */
  lemma {:induction false} TickAfter(due: int, interval: nat, n: nat)
    requires interval > 0
    ensures FirstTick(due, due + n * interval + 1, interval) == due + (n + 1) * interval
    decreases n
  {
    if n > 0 {
      assert n * interval == interval + (n - 1) * interval;
      TickAfter(due + interval, interval, n - 1);
      assert (n + 1) * interval == interval + n * interval;
    } else {
      assert FirstTick(due, due + 1, interval) == FirstTick(due + interval, due + 1, interval);
    }
  }

  /** The limit of a leader with the worst answer, and that its key has run out by then. */
  lemma WorstLimit(p: Params, served: nat, answer: nat)
    requires GoodParams(p) && !LongEnough(p) && answer + p.lease == Spanned(p) * p.interval + 1 && Spanned(p) > 0
    requires served == 0 || served + p.delay == answer
    ensures var due, n := p.interval, Spanned(p);
            && FirstTick(2 * due, due + answer + p.lease, due) == due + (n + 1) * due
            && due + served + p.ttl <= due + (n + 1) * due + p.late + p.interval
  {
    var due, n := p.interval, Spanned(p);
    TickAfter(due, due, n);
    TickSkips(p, due, due + answer + p.lease);
    assert (n + 1) * due == n * due + due && (n + 2) * due == n * due + 2 * due;
  }

  /** With a shorter TTL some run has two leaders. */
  lemma TwoLeaders(p: Params) returns (t: seq<Sys>)
    requires GoodParams(p) && !LongEnough(p)
    ensures Trace(p, t) && !Exclusive(t[|t| - 1])
  {
    var d, n := p.interval, Spanned(p);
    var answer := WorstAnswer(p);
    var served := if answer < p.delay then 0 else answer - p.delay;
    var begin := if answer < p.interval then 0 else answer - p.interval;
    var t1 := FirstLeader(p, begin, served, answer);
    var held, until := d + answer, d + served + p.ttl;
    var t2 := HoldOn(p, t1, held, until, 2 * d);
    WorstLimit(p, served, answer);
    var goal := if until < t2[|t2| - 1].now then t2[|t2| - 1].now else until;
    var t3 := LeadUntil(p, t2, held, until, d + (n + 1) * d, goal);
    t := SecondLeader(p, t3, held, until);
    assert Leads(t[|t| - 1], 0) && Leads(t[|t| - 1], 1);
  }

  /** At most one main ever leads, in every run, exactly when the TTL is long enough. */
  lemma ExclusiveIffLongEnough(p: Params)
    requires GoodParams(p)
    ensures AlwaysExclusive(p) <==> LongEnough(p)
  {
    if LongEnough(p) {
      forall t, n | Trace(p, t) && 0 <= n < |t| ensures Exclusive(t[n]) { AtMostOneLeader(p, t, n); }
    } else {
      var t := TwoLeaders(p);
      assert Trace(p, t) && 0 <= |t| - 1 < |t| && !Exclusive(t[|t| - 1]);
    }
  }

  /** The Redis backend's lease: four fifths of the TTL. */
  function RedisParams(ttlSeconds: nat, intervalSeconds: nat, delay: nat, late: nat): Params {
    Params(ttlSeconds * 1000, ttlSeconds * 800, intervalSeconds * 1000, delay, late)
  }

  /** Reply delay, two check intervals and the lateness within a fifth of the TTL are enough; the defaults, 10 s and
      3 s, are not, whatever the delays. */
  lemma RedisNeedsAFifth(ttlSeconds: nat, intervalSeconds: nat, delay: nat, late: nat)
    requires ttlSeconds > 0 && intervalSeconds > 0 && delay <= intervalSeconds * 1000
    ensures delay + intervalSeconds * 2000 + late <= ttlSeconds * 200 ==>
              AlwaysExclusive(RedisParams(ttlSeconds, intervalSeconds, delay, late))
    ensures ttlSeconds == 10 && intervalSeconds == 3 ==>
        !AlwaysExclusive(RedisParams(ttlSeconds, intervalSeconds, delay, late))
  {
    ExclusiveIffLongEnough(RedisParams(ttlSeconds, intervalSeconds, delay, late));
  }
}
