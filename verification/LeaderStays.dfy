/** When a main starts and stops leading (src/n8n/election.rs): what the answers to its calls do to the lead, in every
    run. */
module LeaderStays {

  import opened LeaderElection

  /** A run with the actions taken. */
  ghost predicate RunOf(p: Params, t: seq<Sys>, acts: seq<Action>) {
    && |t| == |acts| + 1 && t[0] == INITIAL
    && forall n :: 0 <= n < |acts| ==> Enabled(p, t[n], acts[n]) && t[n + 1] == Apply(p, t[n], acts[n])
  }

  lemma RunAt(p: Params, t: seq<Sys>, acts: seq<Action>, n: nat)
    requires RunOf(p, t, acts) && n < |acts|
    ensures Enabled(p, t[n], acts[n]) && t[n + 1] == Apply(p, t[n], acts[n])
  {
  }

  lemma {:induction false} RunIsTimely(p: Params, t: seq<Sys>, acts: seq<Action>, n: nat)
    requires GoodParams(p) && RunOf(p, t, acts) && n < |t|
    ensures AllTimely(p, t[n]) && AllBegun(p, t[n])
  {
    if n > 0 {
      RunIsTimely(p, t, acts, n - 1);
      RunAt(p, t, acts, n - 1);
      TimelyStep(p, t[n - 1], acts[n - 1]);
    }
  }

  // ---- What an answer does --------------------------------------------------------------------------------------

  /** The `n`-th action answers a call of the main that Redis granted, or refused. */
  predicate Answered(t: seq<Sys>, acts: seq<Action>, n: nat, m: nat, granted: bool)
    requires n < |acts| && n < |t|
  {
    && acts[n] == Answer(m) && m in t[n].mains
    && t[n].mains[m].phase.Calling? && t[n].mains[m].phase.served.At?
    && t[n].mains[m].phase.served.granted == granted
  }

  /** An answered grant leaves the caller leading since the answer; an answered refusal leaves it following. */
  lemma AnswerDecides(p: Params, t: seq<Sys>, acts: seq<Action>, n: nat, m: nat)
    requires RunOf(p, t, acts) && n < |acts| && acts[n] == Answer(m)
    ensures Answered(t, acts, n, m, true) <==> !Answered(t, acts, n, m, false)
    ensures Leads(t[n + 1], m) <==> Answered(t, acts, n, m, true)
    ensures Leads(t[n + 1], m) ==> t[n + 1].mains[m].lastHeld == t[n].now
  {
    RunAt(p, t, acts, n);
  }

  /** Nothing but an answered grant makes a leader. */
  lemma LeadsOnlyByGrant(p: Params, t: seq<Sys>, acts: seq<Action>, n: nat, m: nat)
    requires RunOf(p, t, acts) && n < |acts| && !Leads(t[n], m) && Leads(t[n + 1], m)
    ensures Answered(t, acts, n, m, true)
  {
    RunAt(p, t, acts, n);
  }

  // ---- When a leader stops --------------------------------------------------------------------------------------

  /** The time a leader goes by is that of its last answered grant. */
  ghost predicate HeldSince(t: seq<Sys>, acts: seq<Action>, n: nat, m: nat)
    requires n < |t| && |t| == |acts| + 1
  {
    m in t[n].mains ==>
      && (forall j :: 0 <= j < n && Answered(t, acts, j, m, true) ==> t[j].now <= t[n].mains[m].lastHeld)
      && (t[n].mains[m].gate ==>
            exists j :: 0 <= j < n && Answered(t, acts, j, m, true) && t[j].now == t[n].mains[m].lastHeld)
      && t[n].mains[m].lastHeld <= t[n].now && (t[n].mains[m].bidding ==> !t[n].mains[m].gate)
  }

  lemma {:induction false} HeldSinceGrant(p: Params, t: seq<Sys>, acts: seq<Action>, n: nat, m: nat)
    requires RunOf(p, t, acts) && n < |t|
    ensures HeldSince(t, acts, n, m)
  {
    if n > 0 {
      HeldSinceGrant(p, t, acts, n - 1, m);
      RunAt(p, t, acts, n - 1);
      HeldStep(p, t, acts, n - 1, m);
    }
  }

  lemma {:induction false} HeldStep(p: Params, t: seq<Sys>, acts: seq<Action>, n: nat, m: nat)
    requires RunOf(p, t, acts) && n < |acts| && HeldSince(t, acts, n, m)
    ensures HeldSince(t, acts, n + 1, m)
  {
    RunAt(p, t, acts, n);
    if m in t[n].mains {
      if Answered(t, acts, n, m, true) {
        AnswerDecides(p, t, acts, n, m);
      }
    } else {
      forall j | 0 <= j <= n ensures !Answered(t, acts, j, m, true) { NotYetIn(p, t, acts, j, n, m); }
    }
  }

  lemma {:induction false} NotYetIn(p: Params, t: seq<Sys>, acts: seq<Action>, j: nat, n: nat, m: nat)
    requires RunOf(p, t, acts) && j <= n < |t| && m !in t[n].mains
    ensures m !in t[j].mains
  {
    if j < n {
      RunAt(p, t, acts, n - 1);
      NotYetIn(p, t, acts, j, n - 1, m);
    }
  }

  /** The main's last answered grant is at least a lease old. */
  ghost predicate LeaseOver(p: Params, t: seq<Sys>, acts: seq<Action>, n: nat, m: nat)
    requires n < |acts| < |t|
  {
    forall j :: 0 <= j < n && Answered(t, acts, j, m, true) ==> t[n].now - t[j].now >= p.lease
  }

  /** A leader stops leading exactly by a crash, by the answer to a call that Redis refused, or by a check that fails
      once its last answered grant is a lease old. */
  lemma StopsExactlyBy(p: Params, t: seq<Sys>, acts: seq<Action>, n: nat, m: nat)
    requires RunOf(p, t, acts) && n < |acts| && Leads(t[n], m)
    ensures !Leads(t[n + 1], m) <==>
              || acts[n] == Crash(m)
              || Answered(t, acts, n, m, false)
              || (acts[n] == Fail(m) && LeaseOver(p, t, acts, n, m))
  {
    RunAt(p, t, acts, n);
    HeldSinceGrant(p, t, acts, n, m);
    if acts[n] == Answer(m) { AnswerDecides(p, t, acts, n, m); }
  }

  // ---- A main by itself -----------------------------------------------------------------------------------------

  /** The main is the only one, and all its calls are answered: none fails and it does not crash. */
  ghost predicate Undisturbed(acts: seq<Action>, m: nat) {
    forall n :: 0 <= n < |acts| ==> !acts[n].Fail? && !acts[n].Crash? && (acts[n].Join? ==> acts[n].m == m)
  }

  /** Two intervals, a reply's delay and a check's lateness fit in the TTL. */
  predicate RenewsInTime(p: Params) {
    p.delay + 2 * p.interval + p.late < p.ttl
  }

  /** A bid finds the key free, and the lock lasts until the next renewal has been served. */
  ghost predicate LockLasts(p: Params, y: Sys, m: nat)
    requires m in y.mains
  {
    var x := y.mains[m];
    match x.phase
    case Idle(due) => x.gate && KeyFor(y.key, m, due + p.late + p.interval + 1)
    case Calling(due, started, op, served) =>
      && op == (if x.gate then Renew else Acquire)
      && (served.NotYet? ==> if x.gate then KeyFor(y.key, m, due + p.late + p.interval + 1) else y.key.Vacant?)
      && (served.At? ==> due <= served.time && served.granted && KeyFor(y.key, m, served.time + p.ttl))
  }

  ghost predicate BySelf(p: Params, y: Sys, m: nat) {
    && y.strays == {} && (forall x :: x in y.mains ==> x == m)
    && (if m in y.mains then y.mains[m].alive && LockLasts(p, y, m) else y.key.Vacant?)
  }

  lemma BySelfStep(p: Params, y: Sys, a: Action, m: nat)
    requires GoodParams(p) && RenewsInTime(p) && AllTimely(p, y) && AllBegun(p, y) && Enabled(p, y, a)
    requires BySelf(p, y, m) && !a.Fail? && !a.Crash? && (a.Join? ==> a.m == m)
    ensures BySelf(p, Apply(p, y, a), m)
  {
    if m in y.mains {
      assert Timely(p, y.mains[m], y.now) && Begun(p, y.mains[m], y.now);
    }
  }

  lemma {:induction false} RunBySelf(p: Params, t: seq<Sys>, acts: seq<Action>, n: nat, m: nat)
    requires GoodParams(p) && RenewsInTime(p) && RunOf(p, t, acts) && Undisturbed(acts, m) && n < |t|
    ensures BySelf(p, t[n], m)
  {
    if n > 0 {
      RunBySelf(p, t, acts, n - 1, m);
      RunAt(p, t, acts, n - 1);
      RunIsTimely(p, t, acts, n - 1);
      BySelfStep(p, t[n - 1], acts[n - 1], m);
    }
  }

  /** A main that is alone and whose calls are all answered leads from its first answered call on. */
  lemma {:induction false} AloneLeadsOn(p: Params, t: seq<Sys>, acts: seq<Action>, i: nat, n: nat, m: nat)
    requires GoodParams(p) && RenewsInTime(p) && RunOf(p, t, acts) && Undisturbed(acts, m)
    requires i < n < |t| && acts[i] == Answer(m)
    ensures Leads(t[n], m)
    decreases n
  {
    RunAt(p, t, acts, n - 1);
    RunBySelf(p, t, acts, n - 1, m);
    if n == i + 1 {
      AnswerDecides(p, t, acts, i, m);
    } else {
      AloneLeadsOn(p, t, acts, i, n - 1, m);
      StopsExactlyBy(p, t, acts, n - 1, m);
    }
  }

  // ---- That condition is exact ----------------------------------------------------------------------------------

  ghost predicate AlwaysLeadsOn(p: Params) {
    forall t, acts, i: nat, n: nat, m ::
      RunOf(p, t, acts) && Undisturbed(acts, m) && i < n < |t| && acts[i] == Answer(m) ==> Leads(t[n], m)
  }

  lemma OneMoreAction(p: Params, t: seq<Sys>, acts: seq<Action>, a: Action) returns (t': seq<Sys>, acts': seq<Action>)
    requires RunOf(p, t, acts) && Undisturbed(acts, 0) && Enabled(p, t[|t| - 1], a)
    requires !a.Fail? && !a.Crash? && (a.Join? ==> a.m == 0)
    ensures RunOf(p, t', acts') && Undisturbed(acts', 0) && |acts'| == |acts| + 1
    ensures acts'[..|acts|] == acts && acts'[|acts|] == a && t'[|acts'|] == Apply(p, t[|t| - 1], a)
  {
    t', acts' := t + [Apply(p, t[|t| - 1], a)], acts + [a];
  }

  function Leader(p: Params, phase: Phase): map<nat, Main> {
    map[0 := Main(true, true, p.delay, phase, false)]
  }

  /** The bid is answered as late as can be. */
  lemma SlowBid(p: Params) returns (t: seq<Sys>, acts: seq<Action>)
    requires GoodParams(p)
    ensures RunOf(p, t, acts) && Undisturbed(acts, 0) && |acts| == 4 && acts[3] == Answer(0)
    ensures t[4] == Sys(p.delay, Held(0, p.ttl), Leader(p, Idle(p.delay + p.interval)), {})
  {
    t, acts := OneMoreAction(p, [INITIAL], [], Join(0));
    t, acts := OneMoreAction(p, t, acts, RunCall(0));
    t, acts := OneMoreAction(p, t, acts, Tick(p.delay));
    t, acts := OneMoreAction(p, t, acts, Answer(0));
  }

  /** The first check begins as late as it may and takes as long. */
  lemma SlowCheck(p: Params) returns (t: seq<Sys>, acts: seq<Action>)
    requires GoodParams(p)
    ensures RunOf(p, t, acts) && Undisturbed(acts, 0) && |acts| == 7 && acts[3] == Answer(0)
    ensures var due := p.delay + p.interval;
            t[7] == Sys(due + p.late + p.interval, Held(0, p.ttl),
              Leader(p, Calling(due, due + p.late, Renew, NotYet)), {})
  {
    t, acts := SlowBid(p);
    t, acts := OneMoreAction(p, t, acts, Tick(p.interval + p.late));
    t, acts := OneMoreAction(p, t, acts, Begin(0));
    t, acts := OneMoreAction(p, t, acts, Tick(p.interval));
  }

  /** Where the TTL is shorter, the first renewal can come too late though every call is answered. */
  lemma LateRenewal(p: Params) returns (t: seq<Sys>, acts: seq<Action>)
    requires GoodParams(p) && !RenewsInTime(p)
    ensures RunOf(p, t, acts) && Undisturbed(acts, 0) && |acts| == 9 && acts[3] == Answer(0) && !Leads(t[9], 0)
  {
    t, acts := SlowCheck(p);
    t, acts := OneMoreAction(p, t, acts, RunCall(0));
    t, acts := OneMoreAction(p, t, acts, Answer(0));
  }

  /** An undisturbed main by itself keeps the lead in every run exactly when renewals come in time. */
  lemma LeadsOnIffRenewsInTime(p: Params)
    requires GoodParams(p)
    ensures AlwaysLeadsOn(p) <==> RenewsInTime(p)
  {
    if RenewsInTime(p) {
      forall t, acts, i: nat, n: nat, m | RunOf(p, t, acts) && Undisturbed(acts, m) && i < n < |t| &&
        acts[i] == Answer(m)
        ensures Leads(t[n], m)
      {
        AloneLeadsOn(p, t, acts, i, n, m);
      }
    } else {
      var t, acts := LateRenewal(p);
      assert RunOf(p, t, acts) && Undisturbed(acts, 0) && 3 < 9 < |t| && acts[3] == Answer(0) && !Leads(t[9], 0);
    }
  }
}
