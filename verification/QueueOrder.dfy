/** The order of the Redis queue (src/n8n/queue.rs): first in first out, put-backs before everything that waits. And
    what its commands do to places and leases, from the actions alone. */
module QueueOrder {

  import opened LeaseQueue

  // ---- What the actions say -------------------------------------------------------------------------------------

  predicate Pushes(acts: seq<Action>, n: nat, id: JobId)
    requires n < |acts|
  {
    acts[n].Push? && acts[n].id == id
  }

  /** The action hands the job to a client, which goes on to lease it. */
  predicate Takes(t: seq<Sys>, acts: seq<Action>, n: nat, id: JobId)
    requires n < |acts| < |t|
  {
    acts[n].Take? && PhaseOf(t[n + 1], acts[n].c) == Leasing(id)
  }

  predicate PutsBack(t: seq<Sys>, acts: seq<Action>, n: nat, id: JobId)
    requires n < |acts| < |t|
  {
    acts[n].PutBack? && PhaseOf(t[n], acts[n].c).Requeueing? && PhaseOf(t[n], acts[n].c).id == id
  }

  ghost predicate NeverPutBack(t: seq<Sys>, acts: seq<Action>, from: nat, n: nat, id: JobId)
    requires |t| == |acts| + 1
  {
    forall k :: from <= k < n && k < |acts| ==> !PutsBack(t, acts, k, id)
  }

  lemma StepAt(lease: nat, t: seq<Sys>, acts: seq<Action>, n: nat)
    requires Trace(lease, t, acts) && n < |acts|
    ensures Enabled(lease, t[n], acts[n]) && t[n + 1] == Apply(lease, t[n], acts[n])
  {
  }

  // ---- First in, first out --------------------------------------------------------------------------------------

  /** The place is one of `a`, and right of it there is none of `x`. */
  ghost predicate AheadAt(wait: seq<JobId>, i: nat, a: JobId, x: JobId) {
    i < |wait| && wait[i] == a && forall k :: i < k < |wait| ==> wait[k] != x
  }

  /** The job `a` will be taken before every place of `x`. */
  ghost predicate Ahead(wait: seq<JobId>, a: JobId, x: JobId) {
    exists i: nat :: AheadAt(wait, i, a, x)
  }

  lemma AheadPush(wait: seq<JobId>, a: JobId, x: JobId, id: JobId)
    requires Ahead(wait, a, x)
    ensures Ahead([id] + wait, a, x)
  {
    var i: nat :| AheadAt(wait, i, a, x);
    assert AheadAt([id] + wait, i + 1, a, x);
  }

  lemma AheadPutBack(wait: seq<JobId>, a: JobId, x: JobId, id: JobId)
    requires Ahead(wait, a, x) && id != x
    ensures Ahead(wait + [id], a, x)
  {
    var i: nat :| AheadAt(wait, i, a, x);
    assert AheadAt(wait + [id], i, a, x);
  }

  lemma AheadTake(wait: seq<JobId>, a: JobId, x: JobId)
    requires Ahead(wait, a, x) && a != x
    ensures wait[|wait| - 1] != x && (wait[|wait| - 1] == a || Ahead(wait[..|wait| - 1], a, x))
  {
    var i: nat :| AheadAt(wait, i, a, x);
    if i < |wait| - 1 { assert AheadAt(wait[..|wait| - 1], i, a, x); }
  }

  /** Until it is taken a job stays ahead of one that is not put back. */
  lemma AheadStep(lease: nat, t: seq<Sys>, acts: seq<Action>, n: nat, a: JobId, x: JobId)
    requires Trace(lease, t, acts) && n < |acts| && a != x && Ahead(t[n].store.wait, a, x) && x in t[n].jobs
    requires !PutsBack(t, acts, n, x)
    ensures !Takes(t, acts, n, x) && (Takes(t, acts, n, a) || Ahead(t[n + 1].store.wait, a, x)) && x in t[n + 1].jobs
  {
    StepAt(lease, t, acts, n);
    match acts[n]
    case Push(_, id, _) => AheadPush(t[n].store.wait, a, x, id);
    case PutBack(c) => AheadPutBack(t[n].store.wait, a, x, PhaseOf(t[n], c).id);
    case Take(_) => AheadTake(t[n].store.wait, a, x);
    case _ =>
  }

  lemma {:induction false} TakenBefore(lease: nat, t: seq<Sys>, acts: seq<Action>, from: nat, n: nat, a: JobId,
      x: JobId)
    requires Trace(lease, t, acts) && from <= n < |acts| && a != x && Ahead(t[from].store.wait, a, x)
    requires x in t[from].jobs && NeverPutBack(t, acts, from, n, x) && Takes(t, acts, n, x)
    ensures exists m :: from <= m < n && Takes(t, acts, m, a)
    decreases n - from
  {
    if from < n {
      AheadStep(lease, t, acts, from, a, x);
      if !Takes(t, acts, from, a) { TakenBefore(lease, t, acts, from + 1, n, a, x); }
    } else {
      StepAt(lease, t, acts, n);
      AheadTake(t[n].store.wait, a, x);
    }
  }

  /** Until it is taken a pushed job waits. */
  lemma {:induction false} WaitsOrTaken(lease: nat, t: seq<Sys>, acts: seq<Action>, i: nat, n: nat, a: JobId)
    requires Trace(lease, t, acts) && i < n < |t| && Pushes(acts, i, a)
    ensures a in t[n].store.wait || exists m :: i < m < n && Takes(t, acts, m, a)
    decreases n
  {
    StepAt(lease, t, acts, n - 1);
    if i < n - 1 {
      WaitsOrTaken(lease, t, acts, i, n - 1, a);
      if acts[n - 1].Take? && a in t[n - 1].store.wait {
        LastMoves(t[n - 1].store.wait);
        assert a in t[n].store.wait || Takes(t, acts, n - 1, a);
      }
    }
  }

  /** Of two jobs the one pushed first is taken first, unless the other is put back. */
  lemma FirstInFirstOut(lease: nat, t: seq<Sys>, acts: seq<Action>, i: nat, j: nat, n: nat, a: JobId, b: JobId)
    requires Trace(lease, t, acts) && i < j < n < |acts| && Pushes(acts, i, a) && Pushes(acts, j, b)
    requires Takes(t, acts, n, b) && NeverPutBack(t, acts, j, n, b)
    ensures exists m :: i < m < n && Takes(t, acts, m, a)
  {
    StepAt(lease, t, acts, i);
    StepAt(lease, t, acts, j);
    JobsStay(lease, t, acts, i + 1, j, a);
    WaitsOrTaken(lease, t, acts, i, j, a);
    if a in t[j].store.wait {
      TraceKeeps(lease, t, acts, j);
      PushedBehind(t[j].store.wait, a, b);
      TakenBefore(lease, t, acts, j + 1, n, a, b);
    }
  }

  lemma {:induction false} JobsStay(lease: nat, t: seq<Sys>, acts: seq<Action>, i: nat, n: nat, id: JobId)
    requires Trace(lease, t, acts) && i <= n < |t| && id in t[i].jobs
    ensures id in t[n].jobs
  {
    if i < n {
      JobsStay(lease, t, acts, i, n - 1, id);
      StepAt(lease, t, acts, n - 1);
    }
  }

  /** The first place from the left is behind all places of a job that waits already. */
  lemma PushedBehind(wait: seq<JobId>, a: JobId, b: JobId)
    requires a in wait && b !in wait
    ensures Ahead([b] + wait, a, b)
  {
    var i :| 0 <= i < |wait| && wait[i] == a;
    assert AheadAt([b] + wait, i + 1, a, b);
  }

  /** A job that is put back is taken before all that wait then, unless they are put back later. */
  lemma PutBackFirst(lease: nat, t: seq<Sys>, acts: seq<Action>, p: nat, n: nat, a: JobId, x: JobId)
    requires Trace(lease, t, acts) && p < n < |acts| && PutsBack(t, acts, p, a) && x in t[p].store.wait && x != a
    requires Takes(t, acts, n, x) && NeverPutBack(t, acts, p, n, x)
    ensures exists m :: p < m < n && Takes(t, acts, m, a)
  {
    StepAt(lease, t, acts, p);
    TraceKeeps(lease, t, acts, p);
    var wait := t[p].store.wait;
    assert AheadAt(wait + [a], |wait|, a, x);
    TakenBefore(lease, t, acts, p + 1, n, a, x);
  }
}
