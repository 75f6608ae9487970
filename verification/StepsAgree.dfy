/** Single steps and whole turns (src/engine.rs): however the steps of a settled workflow's run interleave, loops
    included, it ends as every run of whole turns does. */
module StepsAgree {

  import opened Workflows
  import opened Reachability
  import opened LoopLayout
  import opened TopologicalOrder
  import opened NodeRuns
  import opened LoopBatches
  import opened RunLists
  import opened RunLogs
  import opened LoopTrees
  import opened RunsAgree
  import opened LoopSteps
  import Steps = RunGraph
  import Whole = WorkflowRun

  // ---- Following a run of whole turns ---------------------------------------------------------------------------

  /** For each list that is being run the run of whole turns it follows: the whole one, or the one in a pass. A list is
      followed as far as that run goes. */
  type Track = map<Option<NodeId>, Log>

  ghost predicate HasTurn(a: Log, i: nat, m: nat) {
    m < |a.turns| && a.turns[m].index == i
  }

  /** The loop is through with the first `p` passes of the turn and has sent the first `sent` batches. */
  ghost predicate AtPass(s: Setup, order: seq<NodeInstance>, n: NodeInstance, t: Turn, c: Circuit, p: nat, sent: nat)
    requires p <= |t.passes| && sent <= |t.passes|
  {
    && NodeOutcome(s, t.before, n).EntersLoop?
    && Sent(t.passes[..sent]) + c.queue == NodeOutcome(s, t.before, n).input
    && c.totals == Totals(OwnedNodes(s, order, n), t.passes[..p])
    && c.done == Done(BackLinksInto(s.w.connections, s.back, n.id), t.passes[..p])
    && forall j :: 0 <= j < p ==> t.passes[j].ok
  }

  ghost predicate BetweenOf(s: Setup, order: seq<NodeInstance>, st: RunState, n: NodeInstance, t: Turn, c: Circuit) {
    exists p: nat ::
      p <= |t.passes| && AtPass(s, order, n, t, c, p, p) &&
      AgreeOn(st, PassState(t.before, t.passes, p), Within(s, n.id))
  }

  ghost predicate InsideOf(s: Setup, order: seq<NodeInstance>, st: RunState, track: Track, n: NodeInstance, t: Turn,
      c: Circuit)
  {
    exists p: nat ::
      && p < |t.passes| && AtPass(s, order, n, t, c, p, p + 1)
      && Some(n.id) in track && track[Some(n.id)] == PassLog(s, order, n, t.passes[p])
      && SameEntries(st, track[Some(n.id)].start, n.id)
  }

  /** Where a node stands in its turn of the followed run. */
  ghost predicate FollowsTurn(s: Setup, order: seq<NodeInstance>, st: RunState, task: Task, track: Track,
      n: NodeInstance, t: Turn)
  {
    match task
    case Ran(o) => o == NodeOutcome(s, t.before, n)
    case Reported(o) => o == NodeOutcome(s, t.before, n)
    case Between(c) => BetweenOf(s, order, st, n, t, c)
    case Inside(c) => InsideOf(s, order, st, track, n, t, c)
    case Finished => t.ok && AgreeOn(st, t.after, Within(s, n.id))
    case _ => true
  }

  /** Until a node stores or enters its loop, all in its tree is as it was when the list began. */
  ghost predicate Untouched(s: Setup, st: RunState, task: Task, start: RunState, n: NodeInstance) {
    match task
    case Reported(o) => o.Stores? && AgreeOn(st, StoreErrors(start, n.id, o), Within(s, n.id))
    case Between(_) => true
    case Inside(_) => true
    case Finished => true
    case _ => AgreeOn(st, start, Within(s, n.id))
  }

  ghost predicate Tracks(s: Setup, order: seq<NodeInstance>, k: Config, track: Track, at: Option<NodeId>, i: nat)
    requires at in track && i < |ListAt(s, order, at)|
  {
    var a, n := track[at], ListAt(s, order, at)[i];
    && Untouched(s, k.st, TaskOf(k, n.id), a.start, n)
    && forall m: nat :: HasTurn(a, i, m) ==> FollowsTurn(s, order, k.st, TaskOf(k, n.id), track, n, a.turns[m])
  }

  /** The followed run of a body is that of one pass of the loop's followed turn. */
  ghost predicate RootedAt(s: Setup, order: seq<NodeInstance>, track: Track, lp: NodeId, i: nat, m: nat, p: nat) {
    var up := OwnerOf(s.owner, lp);
    && up in track && Some(lp) in track
    && i < |ListAt(s, order, up)| && ListAt(s, order, up)[i].id == lp && IsLoop(ListAt(s, order, up)[i])
    && HasTurn(track[up], i, m) && p < |track[up].turns[m].passes|
    && track[Some(lp)] == PassLog(s, order, ListAt(s, order, up)[i], track[up].turns[m].passes[p])
  }

  ghost predicate Rooted(s: Setup, order: seq<NodeInstance>, track: Track, lp: NodeId) {
    exists i: nat, m: nat, p: nat :: RootedAt(s, order, track, lp, i, m, p)
  }

  ghost predicate TracksAll(s: Setup, order: seq<NodeInstance>, k: Config, track: Track, at: Option<NodeId>)
    requires at in track
  {
    forall i :: 0 <= i < |ListAt(s, order, at)| ==> Tracks(s, order, k, track, at, i)
  }

  ghost predicate Followed(s: Setup, order: seq<NodeInstance>, k: Config, track: Track, at: Option<NodeId>)
    requires at in track
  {
    && IsRun(s, order, at, track[at]) && Active(k, at)
    && (at.Some? ==> Rooted(s, order, track, at.value))
    && TracksAll(s, order, k, track, at)
  }

  /** The run follows `a`. */
  ghost predicate Inv(s: Setup, order: seq<NodeInstance>, k: Config, a: Log, track: Track) {
    && Sane(s, order, k)
    && a.start == NOTHING && None in track && track[None] == a
    && forall at :: at in track ==> Followed(s, order, k, track, at)
  }

  // ---- Trees ----------------------------------------------------------------------------------------------------

  /** Two trees that meet lie one in the other. */
  lemma TreesMeet(s: Setup, a: NodeId, b: NodeId, x: NodeId)
    requires x in Within(s, a) && x in Within(s, b)
    ensures a in Within(s, b) || b in Within(s, a)
  {
    var p :| Climbs(s.owner, p) && p[0] == x && p[|p| - 1] == a;
    var q :| Climbs(s.owner, q) && q[0] == x && q[|q| - 1] == b;
    if |p| <= |q| { ClimbOn(s, p, q); } else { ClimbOn(s, q, p); }
  }

  lemma {:induction false} ClimbOn(s: Setup, p: seq<NodeId>, q: seq<NodeId>)
    requires Climbs(s.owner, p) && Climbs(s.owner, q) && p[0] == q[0] && |p| <= |q|
    ensures p[|p| - 1] in Within(s, q[|q| - 1])
  {
    var rest := q[|p| - 1..];
    SameClimb(s.owner, p, q, |p| - 1);
    Dropped(s.owner, q, |p| - 1);
    assert rest[0] == p[|p| - 1] && rest[|rest| - 1] == q[|q| - 1];
    if |rest| > 1 { ClimbStep(s.owner, rest, 0); }
  }

  /** A node above one that runs is inside a pass. */
  lemma {:induction false} InsideAbove(s: Setup, order: seq<NodeInstance>, k: Config, id: NodeId, up: NodeId)
    requires Planned(s, order) && Sane(s, order, k) && id in Within(s, up) && id != up && Busy(TaskOf(k, id))
    ensures TaskOf(k, up).Inside?
    decreases |Body(s.w, up)| - |Body(s.w, id)|
  {
    OwnerInTree(s, id, up);
    assert Enclosed(s, k, id);
    if s.owner[id] != up {
      OwnerIsLarger(s, order, id);
      TreeGrows(s, order, s.owner[id], up);
      InsideAbove(s, order, k, s.owner[id], up);
    }
  }

  lemma TreeGrows(s: Setup, order: seq<NodeInstance>, id: NodeId, up: NodeId)
    requires Planned(s, order) && id in Within(s, up) && id != up
    ensures |Body(s.w, id)| < |Body(s.w, up)|
  {
    var p :| Climbs(s.owner, p) && p[0] == id && p[|p| - 1] == up;
    ClimbGrows(s, order, p);
  }

  // ---- What a node sees -----------------------------------------------------------------------------------------

  lemma Follow(s: Setup, order: seq<NodeInstance>, k: Config, a: Log, track: Track, at: Option<NodeId>)
    requires Inv(s, order, k, a, track) && at in track
    ensures Followed(s, order, k, track, at) && IsRun(s, order, at, track[at]) && Active(k, at) && IsPlace(s, at)
    ensures at.Some? ==> Rooted(s, order, track, at.value)
  {
  }

  lemma TrackAt(s: Setup, order: seq<NodeInstance>, k: Config, a: Log, track: Track, at: Option<NodeId>, i: nat)
    requires Inv(s, order, k, a, track) && at in track && i < |ListAt(s, order, at)|
    ensures Tracks(s, order, k, track, at, i)
    ensures ListAt(s, order, at)[i] in s.w.nodes && OwnerOf(s.owner, ListAt(s, order, at)[i].id) == at
  {
    Follow(s, order, k, a, track, at);
    assert TracksAll(s, order, k, track, at);
    Listing(s, order, at, ListAt(s, order, at)[i]);
  }

  lemma TurnAtHand(s: Setup, order: seq<NodeInstance>, k: Config, a: Log, track: Track, at: Option<NodeId>, i: nat,
      m: nat)
    requires Inv(s, order, k, a, track) && at in track && i < |ListAt(s, order, at)| && HasTurn(track[at], i, m)
    ensures var n := ListAt(s, order, at)[i];
            FollowsTurn(s, order, k.st, TaskOf(k, n.id), track, n, track[at].turns[m])
  {
    TrackAt(s, order, k, a, track, at, i);
  }

  lemma NoSelfLink(s: Setup, order: seq<NodeInstance>, c: Connection)
    requires Planned(s, order) && c in s.Links()
    ensures c.fromNode != c.toNode
  {
    if c.fromNode == c.toNode {
      LinkEnds(s, c);
      InList(s, order, OwnerOf(s.owner, c.toNode), c.toNode);
      OwnerIsPlace(s, order, c.toNode);
      var i := PlaceOf(ListAt(s, order, OwnerOf(s.owner, c.toNode)), c.toNode);
      var j := FeederListed(s, order, OwnerOf(s.owner, c.toNode), c, i);
      OtherIds(s, order, OwnerOf(s.owner, c.toNode), i, j);
    }
  }

  lemma OwnerIsPlace(s: Setup, order: seq<NodeInstance>, id: NodeId)
    requires Planned(s, order)
    ensures IsPlace(s, OwnerOf(s.owner, id))
  {
    if id in s.owner { assert IsOwner(s.w, id, s.owner[id]); }
  }

  lemma FeederDone(s: Setup, order: seq<NodeInstance>, k: Config, c: Connection)
    requires Planned(s, order) && Sane(s, order, k) && c in s.Links() && !TaskOf(k, c.toNode).Idle?
    requires OwnerOf(s.owner, c.fromNode) == OwnerOf(s.owner, c.toNode)
    ensures TaskOf(k, c.fromNode).Finished?
  {
    NoSelfLink(s, order, c);
    LinkEnds(s, c);
    var n :| n in s.w.nodes && n.id == c.toNode;
    assert Supplied(s, k, n);
  }

  lemma PathOwner(s: Setup, at: Option<NodeId>, p: seq<NodeId>, i: nat)
    requires ListPath(s, at, p) && i < |p|
    ensures OwnerOf(s.owner, p[i]) == at
  {
    assert p[i] in p;
  }

  /** A node that has come to anything finds all before it finished. */
  lemma {:induction false} PathDone(s: Setup, order: seq<NodeInstance>, k: Config, at: Option<NodeId>, p: seq<NodeId>)
    requires Planned(s, order) && Sane(s, order, k) && |p| > 1 && ListPath(s, at, p)
    requires !TaskOf(k, p[|p| - 1]).Idle?
    ensures TaskOf(k, p[0]).Finished?
    decreases |p|
  {
    var c := LastOfPath(s, at, p);
    PathOwner(s, at, p, |p| - 1);
    FeederDone(s, order, k, c);
    var q := p[..|p| - 1];
    if |p| > 2 {
      assert q[|q| - 1] == c.fromNode && q[0] == p[0];
      PathDone(s, order, k, at, q);
    }
  }

  lemma BeforeDone(s: Setup, order: seq<NodeInstance>, k: Config, x: NodeId, y: NodeId)
    requires Planned(s, order) && Sane(s, order, k) && Before(s, x, y) && !TaskOf(k, y).Idle?
    ensures TaskOf(k, x).Finished?
  {
    var p :| |p| > 1 && p[0] == x && p[|p| - 1] == y && ListPath(s, OwnerOf(s.owner, y), p);
    PathDone(s, order, k, OwnerOf(s.owner, y), p);
  }

  /** The entries of a neighbour that always comes first are those its turn left. */
  lemma EarlierSeen(s: Setup, order: seq<NodeInstance>, k: Config, a: Log, track: Track, at: Option<NodeId>, i: nat,
      m: nat, j: nat, x: NodeId)
    requires Inv(s, order, k, a, track) && at in track
    requires i < |ListAt(s, order, at)| && HasTurn(track[at], i, m) && j < |ListAt(s, order, at)|
    requires Before(s, ListAt(s, order, at)[j].id, ListAt(s, order, at)[i].id)
    requires !TaskOf(k, ListAt(s, order, at)[i].id).Idle? && x in Within(s, ListAt(s, order, at)[j].id)
    ensures SameEntries(k.st, track[at].turns[m].before, x)
  {
    var list, b := ListAt(s, order, at), track[at];
    Follow(s, order, k, a, track, at);
    TrackAt(s, order, k, a, track, at, i);
    BeforeDone(s, order, k, list[j].id, list[i].id);
    var e := ComesBefore(s, order, at, b, m, list[j].id);
    assert b.turns[e].index == j by { if b.turns[e].index != j { OtherIds(s, order, at, b.turns[e].index, j); } }
    TurnAtHand(s, order, k, a, track, at, j, e);
    OwnAfter(s, order, at, b, e, m, x);
    TurnFacts(s, order, at, b, m);
  }

  /** Those of one that always comes later are as they were when the list began. */
  lemma LaterSeen(s: Setup, order: seq<NodeInstance>, k: Config, a: Log, track: Track, at: Option<NodeId>, i: nat,
      m: nat, j: nat, x: NodeId)
    requires Inv(s, order, k, a, track) && at in track
    requires i < |ListAt(s, order, at)| && HasTurn(track[at], i, m) && j < |ListAt(s, order, at)|
    requires Before(s, ListAt(s, order, at)[i].id, ListAt(s, order, at)[j].id)
    requires !TaskOf(k, ListAt(s, order, at)[i].id).Finished? && x in Within(s, ListAt(s, order, at)[j].id)
    ensures SameEntries(k.st, track[at].turns[m].before, x)
  {
    var list, b := ListAt(s, order, at), track[at];
    Follow(s, order, k, a, track, at);
    TrackAt(s, order, k, a, track, at, j);
    if !TaskOf(k, list[j].id).Idle? { BeforeDone(s, order, k, list[i].id, list[j].id); }
    LaterUntouched(s, order, at, b, m, j, x);
  }

  // Going up the owners ends.
  ghost function Height(s: Setup, at: Option<NodeId>): int {
    match at case None => 0 case Some(lp) => |Ids(s.w.nodes)| + 1 - |Body(s.w, lp)|
  }

  lemma LoopIsHigh(s: Setup, order: seq<NodeInstance>, lp: NodeId)
    requires Planned(s, order) && lp in Ids(s.w.nodes)
    ensures Height(s, Some(lp)) > 0
  {
    BodyInIds(s, order, lp);
  }

  lemma Higher(s: Setup, order: seq<NodeInstance>, lp: NodeId)
    requires Planned(s, order) && lp in Ids(s.w.nodes)
    ensures 0 <= Height(s, OwnerOf(s.owner, lp)) < Height(s, Some(lp))
  {
    LoopIsHigh(s, order, lp);
    if lp in s.owner {
      OwnerIsLarger(s, order, lp);
      LoopIsHigh(s, order, s.owner[lp]);
    }
  }

  /** All that feeds into a running node's tree from outside is as the node's turn finds it. */
  lemma {:induction false} Seen(s: Setup, order: seq<NodeInstance>, k: Config, a: Log, track: Track, at: Option<NodeId>,
      i: nat, m: nat, x: NodeId)
    requires Settled(s) && Inv(s, order, k, a, track) && at in track
    requires i < |ListAt(s, order, at)| && HasTurn(track[at], i, m) && Busy(TaskOf(k, ListAt(s, order, at)[i].id))
    requires x in Feeding(s, ListAt(s, order, at)[i].id) && x !in Within(s, ListAt(s, order, at)[i].id)
    ensures SameEntries(k.st, track[at].turns[m].before, x)
    decreases Height(s, at), 2
  {
    Follow(s, order, k, a, track, at);
    if x in Under(s, at) {
      NeighbourSeen(s, order, k, a, track, at, i, m, x);
    } else {
      OutsideInView(s, order, at, i, x);
      OuterSeen(s, order, k, a, track, at, x);
      OuterKept(s, order, at, track[at], m, x);
      TurnFacts(s, order, at, track[at], m);
    }
  }

  lemma NeighbourSeen(s: Setup, order: seq<NodeInstance>, k: Config, a: Log, track: Track, at: Option<NodeId>, i: nat,
      m: nat, x: NodeId)
    requires Settled(s) && Inv(s, order, k, a, track) && at in track
    requires i < |ListAt(s, order, at)| && HasTurn(track[at], i, m) && Busy(TaskOf(k, ListAt(s, order, at)[i].id))
    requires x in Feeding(s, ListAt(s, order, at)[i].id) && x !in Within(s, ListAt(s, order, at)[i].id)
    requires x in Under(s, at)
    ensures SameEntries(k.st, track[at].turns[m].before, x)
  {
    var list := ListAt(s, order, at);
    Follow(s, order, k, a, track, at);
    var j := BranchIndex(s, order, at, x);
    TrackAt(s, order, k, a, track, at, i);
    TrackAt(s, order, k, a, track, at, j);
    OneComesFirst(s, list[j].id, list[i].id, x);
    if Before(s, list[j].id, list[i].id) {
      EarlierSeen(s, order, k, a, track, at, i, m, j, x);
    } else {
      LaterSeen(s, order, k, a, track, at, i, m, j, x);
    }
  }

  lemma InViewOutside(s: Setup, at: Option<NodeId>, x: NodeId)
    requires x in View(s, at) && x !in Under(s, at)
    ensures at.Some? && (x == at.value || (x in Feeding(s, at.value) && x !in Within(s, at.value)))
  {
  }

  /** What feeds into a body from outside is as its list found it. */
  lemma {:induction false} OuterSeen(s: Setup, order: seq<NodeInstance>, k: Config, a: Log, track: Track,
      at: Option<NodeId>, x: NodeId)
    requires Settled(s) && Inv(s, order, k, a, track) && at in track && x in View(s, at) && x !in Under(s, at)
    ensures SameEntries(k.st, track[at].start, x)
    decreases Height(s, at), 1
  {
    InViewOutside(s, at, x);
    if at.Some? {
      Follow(s, order, k, a, track, at);
      var i: nat, m: nat, p: nat :| RootedAt(s, order, track, at.value, i, m, p);
      RootSeen(s, order, k, a, track, at.value, i, m, p, x);
    }
  }

  lemma {:induction false} RootSeen(s: Setup, order: seq<NodeInstance>, k: Config, a: Log, track: Track, lp: NodeId,
      i: nat, m: nat, p: nat, x: NodeId)
    requires Settled(s) && Inv(s, order, k, a, track) && RootedAt(s, order, track, lp, i, m, p)
    requires x == lp || (x in Feeding(s, lp) && x !in Within(s, lp))
    ensures SameEntries(k.st, track[Some(lp)].start, x)
    decreases Height(s, Some(lp)), 0
  {
    var up := OwnerOf(s.owner, lp);
    Follow(s, order, k, a, track, up);
    Follow(s, order, k, a, track, Some(lp));
    TrackAt(s, order, k, a, track, up, i);
    if x == lp {
      LoopSeen(s, order, k, a, track, up, i, m);
    } else {
      Higher(s, order, lp);
      Seen(s, order, k, a, track, up, i, m, x);
      PassStartSees(s, order, track[up], up, i, m, p, x);
    }
  }

  /** The loop offers the batch of the pass. */
  lemma LoopSeen(s: Setup, order: seq<NodeInstance>, k: Config, a: Log, track: Track, up: Option<NodeId>, i: nat,
      m: nat)
    requires Inv(s, order, k, a, track) && up in track && i < |ListAt(s, order, up)| && HasTurn(track[up], i, m)
    requires TaskOf(k, ListAt(s, order, up)[i].id).Inside?
    ensures var lp := ListAt(s, order, up)[i].id;
            Some(lp) in track && SameEntries(k.st, track[Some(lp)].start, lp)
  {
    TurnAtHand(s, order, k, a, track, up, i, m);
  }

  lemma {:induction false} PassStartsOutside(s: Setup, order: seq<NodeInstance>, n: NodeInstance, t: Turn, p: nat,
      x: NodeId)
    requires Planned(s, order) && n in s.w.nodes && IsLoop(n) && PassesRan(s, order, n, t.before, t.passes)
    requires p < |t.passes| && x !in Within(s, n.id)
    ensures SameEntries(t.before, PassLog(s, order, n, t.passes[p]).start, x)
  {
    PassesStayWithin(s, order, n, t, p, x);
    PassIn(s, order, n, t.before, t.passes, p);
    NotOwned(s, order, n.id, x);
  }

  /** Outside its tree a loop's pass begins with what its turn found. */
  lemma PassStartSees(s: Setup, order: seq<NodeInstance>, b: Log, up: Option<NodeId>, i: nat, m: nat, p: nat, x: NodeId)
    requires IsRun(s, order, up, b) && i < |ListAt(s, order, up)| && HasTurn(b, i, m) && p < |b.turns[m].passes|
    requires IsLoop(ListAt(s, order, up)[i]) && x !in Within(s, ListAt(s, order, up)[i].id)
    ensures var n := ListAt(s, order, up)[i];
            SameEntries(b.turns[m].before, PassLog(s, order, n, b.turns[m].passes[p]).start, x)
  {
    var n, t := ListAt(s, order, up)[i], b.turns[m];
    TurnFacts(s, order, up, b, m);
    LoopTurnParts(s, order, n, t);
    PassStartsOutside(s, order, n, t, p, x);
  }

  lemma {:induction false} LoopTurnParts(s: Setup, order: seq<NodeInstance>, n: NodeInstance, t: Turn)
    requires n in s.w.nodes && IsLoop(n) && TurnRan(s, order, n, t)
    requires t.passes != [] || NodeOutcome(s, t.before, n).EntersLoop?
    ensures NodeOutcome(s, t.before, n).EntersLoop?
    ensures LoopRan(s, order, n, NodeOutcome(s, t.before, n).input, t)
    ensures LoopTurn(s, order, n, NodeOutcome(s, t.before, n).input, t)
    ensures PassesRan(s, order, n, t.before, t.passes)
  {
    var o := NodeOutcome(s, t.before, n);
    LoopRanParts(s, order, n, o.input, t);
  }

  /** A node reads what its turn reads. */
  lemma OutcomeSeen(s: Setup, order: seq<NodeInstance>, k: Config, a: Log, track: Track, at: Option<NodeId>, i: nat,
      m: nat)
    requires Settled(s) && Inv(s, order, k, a, track) && at in track && i < |ListAt(s, order, at)|
    requires HasTurn(track[at], i, m) && TaskOf(k, ListAt(s, order, at)[i].id).Begun?
    ensures var n := ListAt(s, order, at)[i];
            NodeOutcome(s, k.st, n) == NodeOutcome(s, track[at].turns[m].before, n)
  {
    var n, t := ListAt(s, order, at)[i], track[at].turns[m];
    InOwnTree(s, n.id);
    forall c | c in s.Links() && c.toNode == n.id ensures SameEntries(k.st, t.before, c.fromNode) {
      if c.fromNode in Within(s, n.id) {
        OwnSeen(s, order, k, a, track, at, i, m, c.fromNode);
      } else {
        Seen(s, order, k, a, track, at, i, m, c.fromNode);
      }
    }
    OutcomeLocal(s, k.st, t.before, n);
  }

  lemma OwnSeen(s: Setup, order: seq<NodeInstance>, k: Config, a: Log, track: Track, at: Option<NodeId>, i: nat,
      m: nat, x: NodeId)
    requires Inv(s, order, k, a, track) && at in track && i < |ListAt(s, order, at)|
    requires HasTurn(track[at], i, m) && TaskOf(k, ListAt(s, order, at)[i].id).Begun?
    requires x in Within(s, ListAt(s, order, at)[i].id)
    ensures SameEntries(k.st, track[at].turns[m].before, x)
  {
    Follow(s, order, k, a, track, at);
    TrackAt(s, order, k, a, track, at, i);
    OwnBefore(s, order, at, track[at], m, x);
  }

  // ---- What a step leaves to the others -------------------------------------------------------------------------

  lemma {:induction false} TracksSame(s: Setup, order: seq<NodeInstance>, k: Config, k': Config, track: Track,
      track': Track, at: Option<NodeId>, i: nat)
    requires at in track && at in track' && track[at] == track'[at] && i < |ListAt(s, order, at)|
    requires var n := ListAt(s, order, at)[i];
             && TaskOf(k', n.id) == TaskOf(k, n.id) && AgreeOn(k.st, k'.st, Within(s, n.id))
             && (Some(n.id) in track ==> Some(n.id) in track' && track'[Some(n.id)] == track[Some(n.id)])
    requires Tracks(s, order, k, track, at, i)
    ensures Tracks(s, order, k', track', at, i)
  {
    var b, n := track[at], ListAt(s, order, at)[i];
    InOwnTree(s, n.id);
    var task := TaskOf(k, n.id);
    UntouchedSame(s, k.st, k'.st, task, b.start, n);
    forall m: nat | HasTurn(b, i, m) ensures FollowsTurn(s, order, k'.st, task, track', n, b.turns[m]) {
      FollowsSame(s, order, k.st, k'.st, task, track, track', n, b.turns[m]);
    }
  }

  lemma UntouchedSame(s: Setup, st: RunState, st': RunState, task: Task, start: RunState, n: NodeInstance)
    requires AgreeOn(st, st', Within(s, n.id)) && Untouched(s, st, task, start, n)
    ensures Untouched(s, st', task, start, n)
  {
  }

  lemma {:induction false} FollowsSame(s: Setup, order: seq<NodeInstance>, st: RunState, st': RunState, task: Task,
      track: Track, track': Track, n: NodeInstance, t: Turn)
    requires AgreeOn(st, st', Within(s, n.id)) && n.id in Within(s, n.id)
    requires Some(n.id) in track ==> Some(n.id) in track' && track'[Some(n.id)] == track[Some(n.id)]
    requires FollowsTurn(s, order, st, task, track, n, t)
    ensures FollowsTurn(s, order, st', task, track', n, t)
  {
    match task
    case Between(c) =>
      var p: nat :| p <= |t.passes| && AtPass(s, order, n, t, c, p, p) &&
        AgreeOn(st, PassState(t.before, t.passes, p), Within(s, n.id));
      assert AgreeOn(st', PassState(t.before, t.passes, p), Within(s, n.id));
    case Inside(c) => InsideSame(s, order, st, st', track, track', n, t, c);
    case _ =>
  }

  lemma {:induction false} InsideSame(s: Setup, order: seq<NodeInstance>, st: RunState, st': RunState, track: Track,
      track': Track, n: NodeInstance, t: Turn, c: Circuit)
    requires SameEntries(st, st', n.id) && InsideOf(s, order, st, track, n, t, c)
    requires Some(n.id) in track ==> Some(n.id) in track' && track'[Some(n.id)] == track[Some(n.id)]
    ensures InsideOf(s, order, st', track', n, t, c)
  {
    var p: nat :| p < |t.passes| && AtPass(s, order, n, t, c, p, p + 1)
      && Some(n.id) in track && track[Some(n.id)] == PassLog(s, order, n, t.passes[p])
      && SameEntries(st, track[Some(n.id)].start, n.id);
    assert SameEntries(st', track'[Some(n.id)].start, n.id);
  }

  lemma {:induction false} TracksInside(s: Setup, order: seq<NodeInstance>, k: Config, k': Config, track: Track,
      track': Track, at: Option<NodeId>, i: nat)
    requires at in track && at in track' && track[at] == track'[at] && i < |ListAt(s, order, at)|
    requires var n := ListAt(s, order, at)[i];
             && TaskOf(k', n.id) == TaskOf(k, n.id) && TaskOf(k, n.id).Inside? && SameEntries(k.st, k'.st, n.id)
             && (Some(n.id) in track ==> Some(n.id) in track' && track'[Some(n.id)] == track[Some(n.id)])
    requires Tracks(s, order, k, track, at, i)
    ensures Tracks(s, order, k', track', at, i)
  {
    var b, n := track[at], ListAt(s, order, at)[i];
    forall m: nat | HasTurn(b, i, m) ensures FollowsTurn(s, order, k'.st, TaskOf(k, n.id), track', n, b.turns[m]) {
      InsideSame(s, order, k.st, k'.st, track, track', n, b.turns[m], TaskOf(k, n.id).c);
    }
  }

  /** Only the body of one node may be followed otherwise. */
  ghost predicate KeepsOthers(track: Track, track': Track, id: NodeId) {
    forall at :: at in track && at != Some(id) ==> at in track' && track'[at] == track[at]
  }

  /** A change that stays in one node's tree. */
  ghost predicate Local(s: Setup, k: Config, k': Config, track: Track, track': Track, id: NodeId) {
    && WritesIn(s, k.st, k'.st, id)
    && (forall x :: x !in Within(s, id) ==> TaskOf(k', x) == TaskOf(k, x))
    && (Busy(TaskOf(k, id)) || k'.st == k.st)
    && KeepsOthers(track, track', id)
  }

  /** It leaves every node of the lists outside that tree where it was. */
  lemma OthersTrack(s: Setup, order: seq<NodeInstance>, k: Config, k': Config, a: Log, track: Track, track': Track,
      id: NodeId, at: Option<NodeId>, i: nat)
    requires Inv(s, order, k, a, track) && Local(s, k, k', track, track', id)
    requires at in track && i < |ListAt(s, order, at)| && ListAt(s, order, at)[i].id != id
    requires at.Some? ==> at.value !in Within(s, id)
    ensures at in track' && Tracks(s, order, k', track', at, i)
  {
    var n := ListAt(s, order, at)[i];
    Follow(s, order, k, a, track, at);
    TrackAt(s, order, k, a, track, at, i);
    InOwnTree(s, id);
    if n.id in Within(s, id) { OwnerInTree(s, n.id, id); }
    if k'.st != k.st && id in Within(s, n.id) {
      InsideAbove(s, order, k, id, n.id);
      TracksInside(s, order, k, k', track, track', at, i);
    } else {
      forall x | x in Within(s, n.id) ensures SameEntries(k.st, k'.st, x) {
        if k'.st != k.st && x in Within(s, id) { TreesMeet(s, n.id, id, x); }
      }
      TracksSame(s, order, k, k', track, track', at, i);
    }
  }

  /** Below a node that is not in a pass, or whose body is quiet, no list is being run. */
  lemma NothingBelow(s: Setup, order: seq<NodeInstance>, k: Config, n: NodeInstance, lp: NodeId)
    requires Planned(s, order) && Sane(s, order, k) && n in s.w.nodes && lp != n.id && TaskOf(k, lp).Inside?
    requires !TaskOf(k, n.id).Inside? || Quiet(s, order, k, Some(n.id))
    ensures lp !in Within(s, n.id)
  {
    if lp in Within(s, n.id) {
      InsideAbove(s, order, k, lp, n.id);
      var y := BranchOf(s, lp, n.id);
      if y != lp { InsideAbove(s, order, k, lp, y); }
      assert Enclosed(s, k, y);
      NothingRunsIn(s, order, k, n, y);
    }
  }

  /** The node is where it should be in its list. */
  ghost predicate OwnPlace(s: Setup, order: seq<NodeInstance>, k': Config, track': Track, n: NodeInstance) {
    var at := OwnerOf(s.owner, n.id);
    at in track' ==>
      forall i :: 0 <= i < |ListAt(s, order, at)| && ListAt(s, order, at)[i].id == n.id ==>
        Tracks(s, order, k', track', at, i)
  }

  /** And so is its body, where that is followed. */
  ghost predicate OwnTracks(s: Setup, order: seq<NodeInstance>, k': Config, track': Track, n: NodeInstance) {
    && OwnPlace(s, order, k', track', n)
    && (Some(n.id) in track' ==> Followed(s, order, k', track', Some(n.id)))
  }

  ghost predicate OnlyOwnBody(track: Track, track': Track, id: NodeId) {
    forall at :: at in track' ==> at == Some(id) || at in track
  }

  lemma ListTracks(s: Setup, order: seq<NodeInstance>, k: Config, k': Config, a: Log, track: Track, track': Track,
      n: NodeInstance, at: Option<NodeId>)
    requires Inv(s, order, k, a, track) && Local(s, k, k', track, track', n.id) && n in s.w.nodes
    requires at in track && at != Some(n.id) && OwnTracks(s, order, k', track', n)
    requires at.Some? ==> at.value !in Within(s, n.id)
    ensures at in track' && TracksAll(s, order, k', track', at)
  {
    forall i | 0 <= i < |ListAt(s, order, at)| ensures Tracks(s, order, k', track', at, i) {
      if ListAt(s, order, at)[i].id == n.id {
        TrackAt(s, order, k, a, track, at, i);
      } else {
        OthersTrack(s, order, k, k', a, track, track', n.id, at, i);
      }
    }
  }

  lemma StaysRooted(s: Setup, order: seq<NodeInstance>, track: Track, track': Track, lp: NodeId)
    requires Rooted(s, order, track, lp)
    requires Some(lp) in track' && track'[Some(lp)] == track[Some(lp)]
    requires var up := OwnerOf(s.owner, lp); up in track ==> up in track' && track'[up] == track[up]
    ensures Rooted(s, order, track', lp)
  {
    var i: nat, m: nat, p: nat :| RootedAt(s, order, track, lp, i, m, p);
    assert RootedAt(s, order, track', lp, i, m, p);
  }

  /** The list of a followed body is not the body of a node that steps. */
  lemma RootElsewhere(s: Setup, order: seq<NodeInstance>, k: Config, n: NodeInstance, lp: NodeId)
    requires Planned(s, order) && lp !in Within(s, n.id)
    ensures OwnerOf(s.owner, lp) != Some(n.id)
  {
    if OwnerOf(s.owner, lp) == Some(n.id) {
      InOwnTree(s, n.id);
      OwnedInTree(s, lp, n.id);
    }
  }

  lemma StaysFollowed(s: Setup, order: seq<NodeInstance>, k: Config, k': Config, a: Log, track: Track, track': Track,
      n: NodeInstance, at: Option<NodeId>)
    requires Inv(s, order, k, a, track) && Local(s, k, k', track, track', n.id) && n in s.w.nodes
    requires at in track && at != Some(n.id) && OwnTracks(s, order, k', track', n)
    requires !TaskOf(k, n.id).Inside? || Quiet(s, order, k, Some(n.id))
    ensures at in track' && Followed(s, order, k', track', at)
  {
    Follow(s, order, k, a, track, at);
    if at.Some? {
      NothingBelow(s, order, k, n, at.value);
      RootElsewhere(s, order, k, n, at.value);
      StaysRooted(s, order, track, track', at.value);
    }
    ListTracks(s, order, k, k', a, track, track', n, at);
  }

  /** A step that stays in its node's tree and follows there follows everywhere. */
  lemma StepFollows(s: Setup, order: seq<NodeInstance>, k: Config, k': Config, a: Log, track: Track, track': Track,
      n: NodeInstance)
    requires Inv(s, order, k, a, track) && Sane(s, order, k') && n in s.w.nodes
    requires Local(s, k, k', track, track', n.id) && OnlyOwnBody(track, track', n.id)
    requires OwnTracks(s, order, k', track', n)
    requires !TaskOf(k, n.id).Inside? || Quiet(s, order, k, Some(n.id))
    ensures Inv(s, order, k', a, track')
  {
    forall at | at in track' ensures Followed(s, order, k', track', at) {
      if at != Some(n.id) { StaysFollowed(s, order, k, k', a, track, track', n, at); }
    }
  }

  // ---- A node's own step ----------------------------------------------------------------------------------------

  /** How a step that begins or ends no pass moves its node along a followed turn. */
  ghost predicate OwnStep(s: Setup, order: seq<NodeInstance>, k: Config, k': Config, track: Track, n: NodeInstance,
      i: nat)
  {
    var at := OwnerOf(s.owner, n.id);
    at in track && i < |ListAt(s, order, at)| && ListAt(s, order, at)[i] == n ==> Tracks(s, order, k', track, at, i)
  }

  lemma StartTracks(s: Setup, order: seq<NodeInstance>, k: Config, k': Config, a: Log, track: Track, n: NodeInstance,
      i: nat)
    requires Inv(s, order, k, a, track) && Start(s, k, k', n)
    ensures OwnStep(s, order, k, k', track, n, i)
  {
    var at := OwnerOf(s.owner, n.id);
    if at in track && i < |ListAt(s, order, at)| && ListAt(s, order, at)[i] == n {
      TrackAt(s, order, k, a, track, at, i);
    }
  }

  lemma ReadTracks(s: Setup, order: seq<NodeInstance>, k: Config, k': Config, a: Log, track: Track, n: NodeInstance,
      i: nat)
    requires Settled(s) && Inv(s, order, k, a, track) && Read(s, k, k', n) && k'.status != Steps.Broken
    ensures OwnStep(s, order, k, k', track, n, i)
  {
    var at := OwnerOf(s.owner, n.id);
    if at in track && i < |ListAt(s, order, at)| && ListAt(s, order, at)[i] == n {
      TrackAt(s, order, k, a, track, at, i);
      forall m: nat | HasTurn(track[at], i, m)
        ensures FollowsTurn(s, order, k'.st, TaskOf(k', n.id), track, n, track[at].turns[m])
      {
        OutcomeSeen(s, order, k, a, track, at, i, m);
        if TaskOf(k', n.id).Between? { LoopEntered(s, order, k, k', a, track, at, i, m); }
      }
    }
  }

  lemma LoopEntered(s: Setup, order: seq<NodeInstance>, k: Config, k': Config, a: Log, track: Track,
      at: Option<NodeId>, i: nat, m: nat)
    requires Inv(s, order, k, a, track) && at in track && i < |ListAt(s, order, at)| && HasTurn(track[at], i, m)
    requires Read(s, k, k', ListAt(s, order, at)[i]) && TaskOf(k', ListAt(s, order, at)[i].id).Between?
    requires var n := ListAt(s, order, at)[i];
             NodeOutcome(s, k.st, n) == NodeOutcome(s, track[at].turns[m].before, n)
    ensures var n := ListAt(s, order, at)[i];
            FollowsTurn(s, order, k'.st, TaskOf(k', n.id), track, n, track[at].turns[m])
  {
    var n, t := ListAt(s, order, at)[i], track[at].turns[m];
    forall x | x in Within(s, n.id) ensures SameEntries(k.st, t.before, x) {
      OwnSeen(s, order, k, a, track, at, i, m, x);
    }
    EnterMatches(s, order, k.st, n, t, TaskOf(k', n.id).c);
  }

  lemma {:induction false} EnterMatches(s: Setup, order: seq<NodeInstance>, st: RunState, n: NodeInstance, t: Turn,
      c: Circuit)
    requires NodeOutcome(s, t.before, n).EntersLoop? && AgreeOn(st, t.before, Within(s, n.id))
    requires c == Circuit(NodeOutcome(s, t.before, n).input, map[], [])
    ensures BetweenOf(s, order, st, n, t, c)
  {
    assert t.passes[..0] == [];
    assert AtPass(s, order, n, t, c, 0, 0);
    assert PassState(t.before, t.passes, 0) == t.before;
  }

  lemma {:induction false} FinishMatches(s: Setup, order: seq<NodeInstance>, st: RunState, start: RunState,
      n: NodeInstance, t: Turn)
    requires TurnRan(s, order, n, t) && NodeOutcome(s, t.before, n).Stores?
    requires AgreeOn(st, StoreErrors(start, n.id, NodeOutcome(s, t.before, n)), Within(s, n.id))
    requires AgreeOn(start, t.before, Within(s, n.id))
    ensures t.ok && AgreeOn(StoreOutput(st, n.id, NodeOutcome(s, t.before, n)), t.after, Within(s, n.id))
  {
    OutputAgrees(s, st, t.before, start, n.id, NodeOutcome(s, t.before, n));
  }

  lemma ReportTracks(s: Setup, order: seq<NodeInstance>, k: Config, k': Config, a: Log, track: Track,
      n: NodeInstance, i: nat)
    requires Inv(s, order, k, a, track) && Report(k, k', n)
    ensures OwnStep(s, order, k, k', track, n, i)
  {
    var at := OwnerOf(s.owner, n.id);
    if at in track && i < |ListAt(s, order, at)| && ListAt(s, order, at)[i] == n {
      TrackAt(s, order, k, a, track, at, i);
      ErrorsAgree(s, k.st, track[at].start, n.id, TaskOf(k, n.id).o);
      forall m: nat | HasTurn(track[at], i, m)
        ensures FollowsTurn(s, order, k'.st, TaskOf(k', n.id), track, n, track[at].turns[m])
      {
        assert FollowsTurn(s, order, k.st, TaskOf(k, n.id), track, n, track[at].turns[m]);
      }
    }
  }

  lemma ErrorsAgree(s: Setup, st: RunState, start: RunState, id: NodeId, o: Outcome)
    requires o.Stores? && AgreeOn(st, start, Within(s, id))
    ensures AgreeOn(StoreErrors(st, id, o), StoreErrors(start, id, o), Within(s, id))
  {
    forall x | x in Within(s, id) ensures SameEntries(StoreErrors(st, id, o), StoreErrors(start, id, o), x) {
      assert SameEntries(st, start, x);
    }
  }

  lemma OutputAgrees(s: Setup, st: RunState, before: RunState, start: RunState, id: NodeId, o: Outcome)
    requires o.Stores? && AgreeOn(st, StoreErrors(start, id, o), Within(s, id))
    requires AgreeOn(start, before, Within(s, id))
    ensures AgreeOn(StoreOutput(st, id, o), Store(before, id, o), Within(s, id))
  {
    ErrorsAgree(s, start, before, id, o);
    forall x | x in Within(s, id) ensures SameEntries(StoreOutput(st, id, o), Store(before, id, o), x) {
      assert SameEntries(st, StoreErrors(start, id, o), x);
      assert SameEntries(StoreErrors(start, id, o), StoreErrors(before, id, o), x);
    }
  }

  lemma FinishTracks(s: Setup, order: seq<NodeInstance>, k: Config, k': Config, a: Log, track: Track,
      n: NodeInstance, i: nat)
    requires Inv(s, order, k, a, track) && Finish(k, k', n)
    ensures OwnStep(s, order, k, k', track, n, i)
  {
    var at := OwnerOf(s.owner, n.id);
    if at in track && i < |ListAt(s, order, at)| && ListAt(s, order, at)[i] == n {
      TrackAt(s, order, k, a, track, at, i);
      forall m: nat | HasTurn(track[at], i, m)
        ensures FollowsTurn(s, order, k'.st, Finished, track, n, track[at].turns[m])
      {
        FinishedTurn(s, order, k, k', a, track, at, i, m);
      }
    }
  }

  lemma FinishedTurn(s: Setup, order: seq<NodeInstance>, k: Config, k': Config, a: Log, track: Track,
      at: Option<NodeId>, i: nat, m: nat)
    requires Inv(s, order, k, a, track) && at in track && i < |ListAt(s, order, at)| && HasTurn(track[at], i, m)
    requires Finish(k, k', ListAt(s, order, at)[i])
    ensures FollowsTurn(s, order, k'.st, Finished, track, ListAt(s, order, at)[i], track[at].turns[m])
  {
    var n, t := ListAt(s, order, at)[i], track[at].turns[m];
    TurnAtHand(s, order, k, a, track, at, i, m);
    TrackAt(s, order, k, a, track, at, i);
    StartInTree(s, order, k, a, track, at, i, m);
    TurnFacts(s, order, at, track[at], m);
    FinishMatches(s, order, k.st, track[at].start, n, t);
  }

  lemma StartInTree(s: Setup, order: seq<NodeInstance>, k: Config, a: Log, track: Track, at: Option<NodeId>, i: nat,
      m: nat)
    requires Inv(s, order, k, a, track) && at in track && i < |ListAt(s, order, at)| && HasTurn(track[at], i, m)
    ensures AgreeOn(track[at].start, track[at].turns[m].before, Within(s, ListAt(s, order, at)[i].id))
  {
    Follow(s, order, k, a, track, at);
    forall x | x in Within(s, ListAt(s, order, at)[i].id)
      ensures SameEntries(track[at].start, track[at].turns[m].before, x)
    {
      OwnBefore(s, order, at, track[at], m, x);
    }
  }

  // ---- Passes ---------------------------------------------------------------------------------------------------

  /** A loop with nothing left to send has been through all passes of its turn, and they went well. */
  lemma {:induction false} QueueSent(s: Setup, order: seq<NodeInstance>, n: NodeInstance, t: Turn, c: Circuit, p: nat)
    requires n in s.w.nodes && IsLoop(n) && TurnRan(s, order, n, t)
    requires p <= |t.passes| && AtPass(s, order, n, t, c, p, p)
    ensures c.queue == [] <==> p == |t.passes|
    ensures p == |t.passes| ==> t.ok
  {
    var input := NodeOutcome(s, t.before, n).input;
    LoopTurnParts(s, order, n, t);
    LoopRanParts(s, order, n, input, t);
    var q := QueueOf(s, order, n, input, t);
    if p < |t.passes| {
      KthBatch(t.passes, q, input, BatchSize(n.parameters), p);
    } else {
      assert t.passes[..p] == t.passes;
      if !t.ok { LastOfBroken(n, input, t); }
    }
  }

  lemma {:induction false} EndMatches(s: Setup, order: seq<NodeInstance>, st: RunState, n: NodeInstance, t: Turn,
      c: Circuit)
    requires n in s.w.nodes && IsLoop(n) && TurnRan(s, order, n, t) && BetweenOf(s, order, st, n, t, c) && c.queue == []
    ensures t.ok && AgreeOn(AfterPasses(st, c.totals, n.id, c.done), t.after, Within(s, n.id))
  {
    var p: nat :| p <= |t.passes| && AtPass(s, order, n, t, c, p, p) &&
      AgreeOn(st, PassState(t.before, t.passes, p), Within(s, n.id));
    QueueSent(s, order, n, t, c, p);
    assert t.passes[..p] == t.passes;
    LoopTurnParts(s, order, n, t);
    LoopRanParts(s, order, n, NodeOutcome(s, t.before, n).input, t);
    AfterPassesAgrees(st, PassState(t.before, t.passes, p), c.totals, n.id, c.done, Within(s, n.id));
  }

  lemma EndLoopTracks(s: Setup, order: seq<NodeInstance>, k: Config, k': Config, a: Log, track: Track,
      n: NodeInstance, i: nat)
    requires Inv(s, order, k, a, track) && EndLoop(k, k', n)
    ensures OwnStep(s, order, k, k', track, n, i)
  {
    var at := OwnerOf(s.owner, n.id);
    if at in track && i < |ListAt(s, order, at)| && ListAt(s, order, at)[i] == n {
      TrackAt(s, order, k, a, track, at, i);
      forall m: nat | HasTurn(track[at], i, m)
        ensures FollowsTurn(s, order, k'.st, Finished, track, n, track[at].turns[m])
      {
        EndedTurn(s, order, k, k', a, track, at, i, m);
      }
    }
  }

  lemma EndedTurn(s: Setup, order: seq<NodeInstance>, k: Config, k': Config, a: Log, track: Track,
      at: Option<NodeId>, i: nat, m: nat)
    requires Inv(s, order, k, a, track) && at in track && i < |ListAt(s, order, at)| && HasTurn(track[at], i, m)
    requires EndLoop(k, k', ListAt(s, order, at)[i])
    ensures FollowsTurn(s, order, k'.st, Finished, track, ListAt(s, order, at)[i], track[at].turns[m])
  {
    var n, t := ListAt(s, order, at)[i], track[at].turns[m];
    TurnAtHand(s, order, k, a, track, at, i, m);
    Follow(s, order, k, a, track, at);
    TurnFacts(s, order, at, track[at], m);
    CirclingLoop(s, order, k, n);
    EndMatches(s, order, k.st, n, t, TaskOf(k, n.id).c);
  }

  lemma CirclingLoop(s: Setup, order: seq<NodeInstance>, k: Config, n: NodeInstance)
    requires Sane(s, order, k) && n in s.w.nodes && (TaskOf(k, n.id).Between? || TaskOf(k, n.id).Inside?)
    ensures IsLoop(n)
  {
    assert Fitting(s, order, TaskOf(k, n.id), n);
  }

  lemma BatchIsNext(input: seq<Item>, queue: seq<Item>, before: seq<Item>, batch: seq<Item>, size: nat)
    requires before + queue == input && |before| + |batch| <= |input| && size > 0
    requires |batch| == (if |before| + size <= |input| then size else |input| - |before|)
    requires batch == input[|before|..|before| + |batch|]
    ensures NextBatch(queue, size) == batch && before + batch + queue[|batch|..] == input
  {
    assert queue == input[|before|..];
    assert queue[..|batch|] == batch;
    assert before + batch + queue[|batch|..] == before + (batch + queue[|batch|..]);
    assert batch + queue[|batch|..] == queue;
  }

  /** The next batch is the one the turn's next pass sends. */
  lemma {:induction false} NextMatches(s: Setup, order: seq<NodeInstance>, n: NodeInstance, t: Turn, c: Circuit, p: nat)
    requires n in s.w.nodes && IsLoop(n) && TurnRan(s, order, n, t)
    requires p < |t.passes| && AtPass(s, order, n, t, c, p, p)
    ensures var batch := NextBatch(c.queue, BatchSize(n.parameters));
            && t.passes[p].batch == batch && AtPass(s, order, n, t, c.(queue := c.queue[|batch|..]), p, p + 1)
  {
    var input, size := NodeOutcome(s, t.before, n).input, BatchSize(n.parameters);
    LoopTurnParts(s, order, n, t);
    var q := QueueOf(s, order, n, input, t);
    KthBatch(t.passes, q, input, size, p);
    BatchIsNext(input, c.queue, Sent(t.passes[..p]), t.passes[p].batch, size);
    SentNext(t.passes, p);
  }

  /** Where a pass begins, the loop is at the begin of a pass of its turn. */
  lemma PassAhead(s: Setup, order: seq<NodeInstance>, k: Config, a: Log, track: Track, at: Option<NodeId>, i: nat,
      m: nat) returns (p: nat)
    requires Inv(s, order, k, a, track) && at in track && i < |ListAt(s, order, at)| && HasTurn(track[at], i, m)
    requires var n := ListAt(s, order, at)[i]; TaskOf(k, n.id).Between? && TaskOf(k, n.id).c.queue != []
    ensures var n, t := ListAt(s, order, at)[i], track[at].turns[m];
            && IsLoop(n) && n in s.w.nodes && TurnRan(s, order, n, t) && p < |t.passes|
            && AtPass(s, order, n, t, TaskOf(k, n.id).c, p, p)
            && AgreeOn(k.st, t.passes[p].before, Within(s, n.id)) && PassRan(s, order, n, t.passes[p])
  {
    var n, t := ListAt(s, order, at)[i], track[at].turns[m];
    TurnAtHand(s, order, k, a, track, at, i, m);
    TrackAt(s, order, k, a, track, at, i);
    TurnFacts(s, order, at, track[at], m);
    CirclingLoop(s, order, k, n);
    p :| p <= |t.passes| && AtPass(s, order, n, t, TaskOf(k, n.id).c, p, p) &&
      AgreeOn(k.st, PassState(t.before, t.passes, p), Within(s, n.id));
    QueueSent(s, order, n, t, TaskOf(k, n.id).c, p);
    LoopTurnParts(s, order, n, t);
    PassIn(s, order, n, t.before, t.passes, p);
  }

  /** The begun pass is that pass: its list starts as the pass's run does. */
  lemma {:induction false} BodyFollowed(s: Setup, order: seq<NodeInstance>, k: Config, k': Config, track': Track,
      n: NodeInstance, p: Pass)
    requires Planned(s, order) && n in s.w.nodes && IsLoop(n) && PassRan(s, order, n, p)
    requires BeginPass(s, order, k, k', n) && AgreeOn(k.st, p.before, Within(s, n.id))
    requires p.batch == NextBatch(TaskOf(k, n.id).c.queue, BatchSize(n.parameters))
    requires Some(n.id) in track' && track'[Some(n.id)] == PassLog(s, order, n, p)
    requires Rooted(s, order, track', n.id)
    ensures Followed(s, order, k', track', Some(n.id))
    ensures AgreeOn(k'.st, PassLog(s, order, n, p).start, Within(s, n.id))
  {
    var body, at := OwnedNodes(s, order, n), Some(n.id);
    PassIsRun(s, order, n, p);
    BeforePassAgrees(k.st, p.before, body, n.id, p.batch, Within(s, n.id));
    PassTasks(s, order, k, k', n, n.id);
    OwnerIsOther(s, order, n);
    forall i | 0 <= i < |body| ensures Tracks(s, order, k', track', at, i) {
      FreshTracks(s, order, k, k', track', n, i);
    }
  }

  lemma {:induction false} FreshTracks(s: Setup, order: seq<NodeInstance>, k: Config, k': Config, track': Track,
      n: NodeInstance, i: nat)
    requires Planned(s, order) && n in s.w.nodes && BeginPass(s, order, k, k', n) && i < |OwnedNodes(s, order, n)|
    requires Some(n.id) in track' && AgreeOn(k'.st, track'[Some(n.id)].start, Within(s, n.id))
    ensures Tracks(s, order, k', track', Some(n.id), i)
  {
    var y := OwnedNodes(s, order, n)[i];
    Listing(s, order, Some(n.id), y);
    OwnerIsOther(s, order, n);
    PassTasks(s, order, k, k', n, y.id);
    TreeUnder(s, order, Some(n.id), y);
    IdleTracks(s, order, k', track', Some(n.id), i);
  }

  lemma {:induction false} IdleTracks(s: Setup, order: seq<NodeInstance>, k: Config, track: Track, at: Option<NodeId>,
      i: nat)
    requires at in track && i < |ListAt(s, order, at)| && TaskOf(k, ListAt(s, order, at)[i].id).Idle?
    requires AgreeOn(k.st, track[at].start, Within(s, ListAt(s, order, at)[i].id))
    ensures Tracks(s, order, k, track, at, i)
  {
  }

  /** What is followed once the pass has begun. */
  lemma BeginTracks(s: Setup, order: seq<NodeInstance>, k: Config, k': Config, a: Log, track: Track, n: NodeInstance)
    returns (track': Track)
    requires Inv(s, order, k, a, track) && n in s.w.nodes && BeginPass(s, order, k, k', n)
    ensures OwnTracks(s, order, k', track', n) && OnlyOwnBody(track, track', n.id)
    ensures KeepsOthers(track, track', n.id)
  {
    if Led(s, order, track, n) {
      var at := OwnerOf(s.owner, n.id);
      var i: nat, m: nat :| TurnOfNode(s, order, track, n, i, m);
      var p := PassAhead(s, order, k, a, track, at, i, m);
      var pass := track[at].turns[m].passes[p];
      track' := track[Some(n.id) := PassLog(s, order, n, pass)];
      OneBodyMore(track, n.id, PassLog(s, order, n, pass));
      BegunPass(s, order, k, k', a, track, track', n, i, m, p);
    } else {
      track' := track;
      BegunUnfollowed(s, order, k, k', a, track, n);
    }
  }

  lemma OneBodyMore(track: Track, id: NodeId, b: Log)
    ensures KeepsOthers(track, track[Some(id) := b], id) && OnlyOwnBody(track, track[Some(id) := b], id)
  {
  }

  lemma OneBodyLess(track: Track, id: NodeId)
    ensures KeepsOthers(track, track - {Some(id)}, id) && OnlyOwnBody(track, track - {Some(id)}, id)
  {
  }

  lemma BegunUnfollowed(s: Setup, order: seq<NodeInstance>, k: Config, k': Config, a: Log, track: Track,
      n: NodeInstance)
    requires Inv(s, order, k, a, track) && n in s.w.nodes && BeginPass(s, order, k, k', n)
    requires !Led(s, order, track, n)
    ensures OwnTracks(s, order, k', track, n)
  {
    var at := OwnerOf(s.owner, n.id);
    NotFollowed(s, order, k, a, track, n);
    PassTasks(s, order, k, k', n, n.id);
    if at in track {
      forall i | 0 <= i < |ListAt(s, order, at)| && ListAt(s, order, at)[i].id == n.id
        ensures Tracks(s, order, k', track, at, i)
      {
        TrackAt(s, order, k, a, track, at, i);
        SameNode(s, order, ListAt(s, order, at)[i], n);
        UnfollowedTurn(s, order, k', track, n, i);
      }
    }
  }

  ghost predicate TurnOfNode(s: Setup, order: seq<NodeInstance>, track: Track, n: NodeInstance, i: nat, m: nat)
    requires OwnerOf(s.owner, n.id) in track
  {
    var at := OwnerOf(s.owner, n.id);
    i < |ListAt(s, order, at)| && ListAt(s, order, at)[i] == n && HasTurn(track[at], i, m)
  }

  /** The node has a turn in the followed run. */
  ghost predicate Led(s: Setup, order: seq<NodeInstance>, track: Track, n: NodeInstance) {
    OwnerOf(s.owner, n.id) in track && exists i: nat, m: nat :: TurnOfNode(s, order, track, n, i, m)
  }

  lemma {:induction false} UnfollowedTurn(s: Setup, order: seq<NodeInstance>, k': Config, track: Track,
      n: NodeInstance, i: nat)
    requires var at := OwnerOf(s.owner, n.id); at in track && i < |ListAt(s, order, at)| && ListAt(s, order, at)[i] == n
    requires TaskOf(k', n.id).Inside? && !Led(s, order, track, n)
    ensures Tracks(s, order, k', track, OwnerOf(s.owner, n.id), i)
  {
    forall m: nat ensures !HasTurn(track[OwnerOf(s.owner, n.id)], i, m) {
      assert !TurnOfNode(s, order, track, n, i, m);
    }
  }

  lemma NotFollowed(s: Setup, order: seq<NodeInstance>, k: Config, a: Log, track: Track, n: NodeInstance)
    requires Inv(s, order, k, a, track)
    ensures !TaskOf(k, n.id).Inside? ==> Some(n.id) !in track
  {
    if Some(n.id) in track { Follow(s, order, k, a, track, Some(n.id)); }
  }

  lemma {:induction false} BegunPass(s: Setup, order: seq<NodeInstance>, k: Config, k': Config, a: Log, track: Track,
      track': Track, n: NodeInstance, i: nat, m: nat, p: nat)
    requires Inv(s, order, k, a, track) && n in s.w.nodes && IsLoop(n) && BeginPass(s, order, k, k', n)
    requires OwnerOf(s.owner, n.id) in track && TurnOfNode(s, order, track, n, i, m)
    requires var t := track[OwnerOf(s.owner, n.id)].turns[m];
             && TurnRan(s, order, n, t) && p < |t.passes| && PassRan(s, order, n, t.passes[p])
             && AtPass(s, order, n, t, TaskOf(k, n.id).c, p, p) && AgreeOn(k.st, t.passes[p].before, Within(s, n.id))
             && track' == track[Some(n.id) := PassLog(s, order, n, t.passes[p])]
    ensures OwnTracks(s, order, k', track', n)
  {
    var at := OwnerOf(s.owner, n.id);
    var t := track[at].turns[m];
    OwnerIsOther(s, order, n);
    NextMatches(s, order, n, t, TaskOf(k, n.id).c, p);
    assert RootedAt(s, order, track', n.id, i, m, p);
    BodyFollowed(s, order, k, k', track', n, t.passes[p]);
    InOwnTree(s, n.id);
    NowInside(s, order, k, k', track', n, t, p);
    Follow(s, order, k, a, track, at);
    InsideTracks(s, order, k', track', at, n, i, m);
  }

  lemma {:induction false} InsideTracks(s: Setup, order: seq<NodeInstance>, k': Config, track': Track,
      at: Option<NodeId>, n: NodeInstance, i: nat, m: nat)
    requires at in track' && IsRun(s, order, at, track'[at]) && HasTurn(track'[at], i, m)
    requires i < |ListAt(s, order, at)| && ListAt(s, order, at)[i] == n && TaskOf(k', n.id).Inside?
    requires FollowsTurn(s, order, k'.st, TaskOf(k', n.id), track', n, track'[at].turns[m])
    ensures forall j :: 0 <= j < |ListAt(s, order, at)| && ListAt(s, order, at)[j].id == n.id ==>
              Tracks(s, order, k', track', at, j)
  {
    OnlyThisTurn(s, order, at, track'[at], i, m);
    forall j | 0 <= j < |ListAt(s, order, at)| && ListAt(s, order, at)[j].id == n.id
      ensures Tracks(s, order, k', track', at, j)
    {
      if j != i { OtherIds(s, order, at, i, j); }
    }
  }

  lemma {:induction false} NowInside(s: Setup, order: seq<NodeInstance>, k: Config, k': Config, track': Track,
      n: NodeInstance, t: Turn, p: nat)
    requires BeginPass(s, order, k, k', n) && p < |t.passes|
    requires Some(n.id) in track' && track'[Some(n.id)] == PassLog(s, order, n, t.passes[p])
    requires SameEntries(k'.st, track'[Some(n.id)].start, n.id)
    requires var batch := NextBatch(TaskOf(k, n.id).c.queue, BatchSize(n.parameters));
             var c := TaskOf(k, n.id).c;
             AtPass(s, order, n, t, c.(queue := c.queue[|batch|..]), p, p + 1)
    ensures FollowsTurn(s, order, k'.st, TaskOf(k', n.id), track', n, t) && TaskOf(k', n.id).Inside?
  {
    assert InsideOf(s, order, k'.st, track', n, t, TaskOf(k', n.id).c);
  }

  lemma OnlyThisTurn(s: Setup, order: seq<NodeInstance>, at: Option<NodeId>, b: Log, i: nat, m: nat)
    requires IsRun(s, order, at, b) && HasTurn(b, i, m)
    ensures forall e: nat :: HasTurn(b, i, e) ==> e == m
  {
    forall e: nat | HasTurn(b, i, e) ensures e == m { if e != m { OwnTurn(s, order, at, b, m, e); } }
  }

  /** A followed list whose nodes have all finished ended as its run did, and that went well. */
  lemma {:induction false} ListEnded(s: Setup, order: seq<NodeInstance>, k: Config, a: Log, track: Track,
      at: Option<NodeId>)
    requires Inv(s, order, k, a, track) && at in track
    requires FinishedUpTo(k, ListAt(s, order, at), |ListAt(s, order, at)|)
    ensures track[at].ok && AgreeOn(k.st, track[at].end, Under(s, at))
  {
    Follow(s, order, k, a, track, at);
    if !track[at].ok {
      var m := FailingTurn(s, order, at, track[at]);
      TurnAtHand(s, order, k, a, track, at, track[at].turns[m].index, m);
    }
    forall x | x in Under(s, at) ensures SameEntries(k.st, track[at].end, x) {
      EntryAtEnd(s, order, k, a, track, at, x);
    }
  }

  lemma {:induction false} EntryAtEnd(s: Setup, order: seq<NodeInstance>, k: Config, a: Log, track: Track,
      at: Option<NodeId>, x: NodeId)
    requires Inv(s, order, k, a, track) && at in track && track[at].ok && x in Under(s, at)
    requires FinishedUpTo(k, ListAt(s, order, at), |ListAt(s, order, at)|)
    ensures SameEntries(k.st, track[at].end, x)
  {
    Follow(s, order, k, a, track, at);
    var i := BranchIndex(s, order, at, x);
    var m := TurnEnded(s, order, k, a, track, at, i);
    LeftAtEnd(s, order, at, track[at], m, x);
  }

  lemma {:induction false} TurnEnded(s: Setup, order: seq<NodeInstance>, k: Config, a: Log, track: Track,
      at: Option<NodeId>, i: nat) returns (m: nat)
    requires Inv(s, order, k, a, track) && at in track && track[at].ok && i < |ListAt(s, order, at)|
    requires TaskOf(k, ListAt(s, order, at)[i].id).Finished?
    ensures HasTurn(track[at], i, m)
    ensures AgreeOn(k.st, track[at].turns[m].after, Within(s, ListAt(s, order, at)[i].id))
  {
    Follow(s, order, k, a, track, at);
    m := TurnOf(s, order, at, track[at], i);
    TurnAtHand(s, order, k, a, track, at, i, m);
  }

  lemma LeftAtEnd(s: Setup, order: seq<NodeInstance>, at: Option<NodeId>, b: Log, m: nat, x: NodeId)
    requires IsRun(s, order, at, b) && m < |b.turns| && b.turns[m].index < |ListAt(s, order, at)|
    requires x in Within(s, NodeAt(s, order, at, b, m).id)
    ensures SameEntries(b.turns[m].after, b.end, x)
  {
    RunEnd(s, order, at, b);
    OwnAfter(s, order, at, b, m, |b.turns|, x);
  }

  /** Where a body is quiet, all under the loop is as the pass's run left it, and that went well. */
  lemma {:induction false} BodyThrough(s: Setup, order: seq<NodeInstance>, k: Config, a: Log, track: Track,
      n: NodeInstance)
    requires Inv(s, order, k, a, track) && Quiet(s, order, k, Some(n.id)) && Some(n.id) in track
    ensures track[Some(n.id)].ok && AgreeOn(k.st, track[Some(n.id)].end, Under(s, Some(n.id)))
  {
    Follow(s, order, k, a, track, Some(n.id));
    QuietIsThrough(s, order, k, Some(n.id));
    ListEnded(s, order, k, a, track, Some(n.id));
  }

  lemma OuterEnd(s: Setup, order: seq<NodeInstance>, at: Option<NodeId>, b: Log, x: NodeId)
    requires IsRun(s, order, at, b) && x !in Under(s, at)
    ensures SameEntries(b.start, b.end, x)
  {
    OuterKept(s, order, at, b, |b.turns|, x);
    RunEnd(s, order, at, b);
  }

  /** Where a pass ends the loop still offers the batch, as the pass's run left it. */
  lemma {:induction false} BatchAtEnd(s: Setup, order: seq<NodeInstance>, k: Config, a: Log, track: Track,
      n: NodeInstance)
    requires Inv(s, order, k, a, track) && Some(n.id) in track
    requires SameEntries(k.st, track[Some(n.id)].start, n.id)
    ensures SameEntries(k.st, track[Some(n.id)].end, n.id)
  {
    Follow(s, order, k, a, track, Some(n.id));
    OuterEnd(s, order, Some(n.id), track[Some(n.id)], n.id);
  }

  lemma {:induction false} TreeAtEnd(s: Setup, order: seq<NodeInstance>, k: Config, a: Log, track: Track,
      n: NodeInstance, x: NodeId)
    requires Inv(s, order, k, a, track) && Quiet(s, order, k, Some(n.id)) && Some(n.id) in track
    requires SameEntries(k.st, track[Some(n.id)].start, n.id) && x in Within(s, n.id)
    ensures SameEntries(k.st, track[Some(n.id)].end, x)
  {
    if x == n.id {
      BatchAtEnd(s, order, k, a, track, n);
    } else {
      UnderAtEnd(s, order, k, a, track, n, x);
    }
  }

  lemma {:induction false} UnderAtEnd(s: Setup, order: seq<NodeInstance>, k: Config, a: Log, track: Track,
      n: NodeInstance, x: NodeId)
    requires Inv(s, order, k, a, track) && Quiet(s, order, k, Some(n.id)) && Some(n.id) in track
    requires x in Within(s, n.id) && x != n.id
    ensures SameEntries(k.st, track[Some(n.id)].end, x)
  {
    BelowIsUnder(s, n.id, x);
    BodyThrough(s, order, k, a, track, n);
  }

  lemma BelowIsUnder(s: Setup, id: NodeId, x: NodeId)
    requires x in Within(s, id) && x != id
    ensures x in Under(s, Some(id))
  {
  }

  /** Where a pass ends, the loop finds all in its sight as its turn's pass left it. */
  lemma {:induction false} PassEnded(s: Setup, order: seq<NodeInstance>, k: Config, a: Log, track: Track,
      at: Option<NodeId>, i: nat, m: nat, p: nat)
    requires Settled(s) && Inv(s, order, k, a, track) && at in track && i < |ListAt(s, order, at)|
    requires HasTurn(track[at], i, m) && p < |track[at].turns[m].passes|
    requires var n := ListAt(s, order, at)[i];
             && IsLoop(n) && TaskOf(k, n.id).Inside? && Quiet(s, order, k, Some(n.id)) && Some(n.id) in track
             && track[Some(n.id)] == PassLog(s, order, n, track[at].turns[m].passes[p])
             && SameEntries(k.st, track[Some(n.id)].start, n.id)
    ensures var pass := track[at].turns[m].passes[p];
            pass.ok && AgreeOn(k.st, pass.after, Sight(s, ListAt(s, order, at)[i].id))
  {
    var n, pass := ListAt(s, order, at)[i], track[at].turns[m].passes[p];
    BodyThrough(s, order, k, a, track, n);
    forall x | x in Sight(s, n.id) ensures SameEntries(k.st, pass.after, x) {
      if x in Within(s, n.id) {
        TreeAtEnd(s, order, k, a, track, n, x);
      } else {
        Seen(s, order, k, a, track, at, i, m, x);
        SeenAtEnd(s, order, k, a, track, at, i, m, p, x);
      }
    }
  }

  lemma SeenAtEnd(s: Setup, order: seq<NodeInstance>, k: Config, a: Log, track: Track, at: Option<NodeId>, i: nat,
      m: nat, p: nat, x: NodeId)
    requires Inv(s, order, k, a, track) && at in track && i < |ListAt(s, order, at)| && HasTurn(track[at], i, m)
    requires p < |track[at].turns[m].passes| && IsLoop(ListAt(s, order, at)[i])
    requires x !in Within(s, ListAt(s, order, at)[i].id) && SameEntries(k.st, track[at].turns[m].before, x)
    ensures SameEntries(k.st, track[at].turns[m].passes[p].after, x)
  {
    Follow(s, order, k, a, track, at);
    PassEndSees(s, order, track[at], at, i, m, p, x);
  }

  lemma PassEndSees(s: Setup, order: seq<NodeInstance>, b: Log, at: Option<NodeId>, i: nat, m: nat, p: nat, x: NodeId)
    requires IsRun(s, order, at, b) && i < |ListAt(s, order, at)| && HasTurn(b, i, m) && p < |b.turns[m].passes|
    requires IsLoop(ListAt(s, order, at)[i]) && x !in Within(s, ListAt(s, order, at)[i].id)
    ensures SameEntries(b.turns[m].before, b.turns[m].passes[p].after, x)
  {
    var n, t := ListAt(s, order, at)[i], b.turns[m];
    TurnFacts(s, order, at, b, m);
    LoopTurnParts(s, order, n, t);
    PassesStayWithin(s, order, n, t, p + 1, x);
  }

  /** What a loop holds after one more pass. */
  function Circled(s: Setup, order: seq<NodeInstance>, st: RunState, n: NodeInstance, c: Circuit): Circuit {
    Circuit(c.queue, AddAll(OwnedNodes(s, order, n), st, c.totals),
      c.done + BroughtBack(BackLinksInto(s.w.connections, s.back, n.id), st))
  }

  lemma {:induction false} PassCircled(s: Setup, order: seq<NodeInstance>, st: RunState, n: NodeInstance, t: Turn,
      c: Circuit, p: nat)
    requires Planned(s, order) && n in s.w.nodes && p < |t.passes| && AtPass(s, order, n, t, c, p, p + 1)
    requires t.passes[p].ok && AgreeOn(st, t.passes[p].after, Sight(s, n.id))
    ensures AtPass(s, order, n, t, Circled(s, order, st, n, c), p + 1, p + 1)
  {
    var body, links := OwnedNodes(s, order, n), BackLinksInto(s.w.connections, s.back, n.id);
    var pass, passed := t.passes[p], t.passes[..p + 1];
    OwnedInSight(s, order, n);
    AddAllAgrees(body, st, pass.after, c.totals);
    BroughtBackAgrees(links, st, pass.after, Sight(s, n.id));
    assert Front(passed) == t.passes[..p] && Last(passed) == pass;
  }

  lemma {:induction false} OnePassOn(s: Setup, order: seq<NodeInstance>, st: RunState, n: NodeInstance, t: Turn,
      c: Circuit, p: nat)
    requires Planned(s, order) && n in s.w.nodes && p < |t.passes| && AtPass(s, order, n, t, c, p, p + 1)
    requires t.passes[p].ok && AgreeOn(st, t.passes[p].after, Sight(s, n.id))
    ensures BetweenOf(s, order, st, n, t, Circled(s, order, st, n, c))
  {
    PassCircled(s, order, st, n, t, c, p);
    assert PassState(t.before, t.passes, p + 1) == t.passes[p].after;
  }

  lemma {:induction false} EndedPass(s: Setup, order: seq<NodeInstance>, k: Config, k': Config, a: Log, track: Track,
      track': Track, at: Option<NodeId>, i: nat, m: nat)
    requires Settled(s) && Inv(s, order, k, a, track) && at in track && i < |ListAt(s, order, at)|
    requires HasTurn(track[at], i, m) && EndPass(s, order, k, k', ListAt(s, order, at)[i])
    ensures var n := ListAt(s, order, at)[i];
            FollowsTurn(s, order, k'.st, TaskOf(k', n.id), track', n, track[at].turns[m])
  {
    var n, t := ListAt(s, order, at)[i], track[at].turns[m];
    TurnAtHand(s, order, k, a, track, at, i, m);
    TrackAt(s, order, k, a, track, at, i);
    CirclingLoop(s, order, k, n);
    var c := TaskOf(k, n.id).c;
    var p: nat :| p < |t.passes| && AtPass(s, order, n, t, c, p, p + 1)
      && Some(n.id) in track && track[Some(n.id)] == PassLog(s, order, n, t.passes[p])
      && SameEntries(k.st, track[Some(n.id)].start, n.id);
    PassEnded(s, order, k, a, track, at, i, m, p);
    OnePassOn(s, order, k.st, n, t, c, p);
  }

  lemma EndTracks(s: Setup, order: seq<NodeInstance>, k: Config, k': Config, a: Log, track: Track, track': Track,
      n: NodeInstance)
    requires Settled(s) && Inv(s, order, k, a, track) && n in s.w.nodes && EndPass(s, order, k, k', n)
    requires track' == track - {Some(n.id)}
    ensures OwnTracks(s, order, k', track', n)
  {
    var at := OwnerOf(s.owner, n.id);
    if at in track' {
      forall i | 0 <= i < |ListAt(s, order, at)| && ListAt(s, order, at)[i].id == n.id
        ensures Tracks(s, order, k', track', at, i)
      {
        TrackAt(s, order, k, a, track, at, i);
        SameNode(s, order, ListAt(s, order, at)[i], n);
        forall m: nat | HasTurn(track[at], i, m)
          ensures FollowsTurn(s, order, k'.st, TaskOf(k', n.id), track', n, track[at].turns[m])
        {
          EndedPass(s, order, k, k', a, track, track', at, i, m);
        }
      }
    }
  }

  // ---- All steps ------------------------------------------------------------------------------------------------

  lemma StepLocal(s: Setup, order: seq<NodeInstance>, k: Config, k': Config, track: Track, track': Track,
      n: NodeInstance)
    requires Planned(s, order) && Sane(s, order, k) && n in s.w.nodes && NodeStep(s, order, k, k', n)
    requires k'.status != Steps.Broken
    requires KeepsOthers(track, track', n.id)
    ensures Local(s, k, k', track, track', n.id)
  {
    StepWrites(s, order, k, k', n);
    InOwnTree(s, n.id);
    forall x | x !in Within(s, n.id) ensures TaskOf(k', x) == TaskOf(k, x) { OtherTask(s, order, k, k', n, x); }
  }

  lemma OtherTask(s: Setup, order: seq<NodeInstance>, k: Config, k': Config, n: NodeInstance, x: NodeId)
    requires Planned(s, order) && n in s.w.nodes && NodeStep(s, order, k, k', n) && k'.status != Steps.Broken
    requires x !in Within(s, n.id)
    ensures TaskOf(k', x) == TaskOf(k, x)
  {
    BodyInTree(s, order, n);
    if BeginPass(s, order, k, k', n) {
      PassTasks(s, order, k, k', n, x);
    } else {
      StepMoves(s, order, k, k', n);
    }
  }

  lemma PlainStepTracks(s: Setup, order: seq<NodeInstance>, k: Config, k': Config, a: Log, track: Track,
      n: NodeInstance, i: nat)
    requires Settled(s) && Inv(s, order, k, a, track) && NodeStep(s, order, k, k', n) && k'.status != Steps.Broken
    requires !BeginPass(s, order, k, k', n) && !EndPass(s, order, k, k', n)
    ensures OwnStep(s, order, k, k', track, n, i)
  {
    if Start(s, k, k', n) {
      StartTracks(s, order, k, k', a, track, n, i);
    } else if Read(s, k, k', n) {
      ReadTracks(s, order, k, k', a, track, n, i);
    } else if Report(k, k', n) {
      ReportTracks(s, order, k, k', a, track, n, i);
    } else if Finish(k, k', n) {
      FinishTracks(s, order, k, k', a, track, n, i);
    } else {
      EndLoopTracks(s, order, k, k', a, track, n, i);
    }
  }

  lemma PlainStepFollows(s: Setup, order: seq<NodeInstance>, k: Config, k': Config, a: Log, track: Track,
      n: NodeInstance)
    requires Settled(s) && Inv(s, order, k, a, track) && n in s.w.nodes && NodeStep(s, order, k, k', n)
    requires k'.status != Steps.Broken && !BeginPass(s, order, k, k', n) && !EndPass(s, order, k, k', n)
    ensures OwnTracks(s, order, k', track, n)
  {
    NotInside(s, order, k, k', n);
    NotFollowed(s, order, k, a, track, n);
    PlainStepPlace(s, order, k, k', a, track, n);
  }

  lemma NotInside(s: Setup, order: seq<NodeInstance>, k: Config, k': Config, n: NodeInstance)
    requires NodeStep(s, order, k, k', n) && !EndPass(s, order, k, k', n)
    ensures !TaskOf(k, n.id).Inside?
  {
  }

  lemma PlainStepPlace(s: Setup, order: seq<NodeInstance>, k: Config, k': Config, a: Log, track: Track,
      n: NodeInstance)
    requires Settled(s) && Inv(s, order, k, a, track) && n in s.w.nodes && NodeStep(s, order, k, k', n)
    requires k'.status != Steps.Broken && !BeginPass(s, order, k, k', n) && !EndPass(s, order, k, k', n)
    ensures OwnPlace(s, order, k', track, n)
  {
    var at := OwnerOf(s.owner, n.id);
    if at in track {
      forall i | 0 <= i < |ListAt(s, order, at)| && ListAt(s, order, at)[i].id == n.id
        ensures Tracks(s, order, k', track, at, i)
      {
        TrackAt(s, order, k, a, track, at, i);
        SameNode(s, order, ListAt(s, order, at)[i], n);
        PlainStepTracks(s, order, k, k', a, track, n, i);
      }
    }
  }

  /** Every step that does not end the run follows the same run of whole turns. */
  lemma StepKeeps(s: Setup, order: seq<NodeInstance>, k: Config, k': Config, a: Log, track: Track, n: NodeInstance)
    returns (track': Track)
    requires Settled(s) && Inv(s, order, k, a, track) && n in s.w.nodes && NodeStep(s, order, k, k', n)
    requires k'.status != Steps.Broken
    ensures Inv(s, order, k', a, track')
  {
    Follow(s, order, k, a, track, None);
    SaneStep(s, order, k, k', n);
    StepInside(s, order, k, k', n);
    if BeginPass(s, order, k, k', n) {
      track' := BeginTracks(s, order, k, k', a, track, n);
    } else if EndPass(s, order, k, k', n) {
      track' := track - {Some(n.id)};
      OneBodyLess(track, n.id);
      EndTracks(s, order, k, k', a, track, track', n);
    } else {
      track' := track;
      PlainStepFollows(s, order, k, k', a, track, n);
    }
    StepLocal(s, order, k, k', track, track', n);
    StepFollows(s, order, k, k', a, track, track', n);
  }

  lemma {:induction false} FirstTracks(s: Setup, order: seq<NodeInstance>, a: Log, track: Track, i: nat)
    requires a.start == NOTHING && None in track && track[None] == a && i < |ListAt(s, order, None)|
    ensures Tracks(s, order, INITIAL, track, None, i)
  {
    IdleTracks(s, order, INITIAL, track, None, i);
  }

  lemma {:induction false} AtFirst(s: Setup, order: seq<NodeInstance>, a: Log) returns (track: Track)
    requires IsRun(s, order, None, a) && a.start == NOTHING
    ensures Inv(s, order, INITIAL, a, track)
  {
    track := map[None := a];
    InitialSane(s, order);
    forall i | 0 <= i < |ListAt(s, order, None)| ensures Tracks(s, order, INITIAL, track, None, i) {
      FirstTracks(s, order, a, track, i);
    }
  }

  lemma NextKeeps(s: Setup, order: seq<NodeInstance>, k: Config, k': Config, a: Log, track: Track)
    returns (track': Track)
    requires Settled(s) && Inv(s, order, k, a, track) && Next(s, order, k, k') && k'.status == Steps.Going
    ensures Inv(s, order, k', a, track')
  {
    var n :| n in s.w.nodes && NodeStep(s, order, k, k', n);
    track' := StepKeeps(s, order, k, k', a, track, n);
  }

  lemma {:induction false} FollowOn(s: Setup, order: seq<NodeInstance>, t: seq<Config>, a: Log, i: nat, j: nat,
      before: Track) returns (track: Track)
    requires Settled(s) && Trace(s, order, t) && j == i + 1 < |t| && t[j].status == Steps.Going
    requires IsRun(s, order, None, a) && Inv(s, order, t[i], a, before)
    ensures Inv(s, order, t[j], a, track)
  {
    TraceNext(s, order, t, i);
    track := NextKeeps(s, order, t[i], t[j], a, before);
  }

  /** Every run that goes on follows `a`. */
  lemma {:induction false} TraceFollows(s: Setup, order: seq<NodeInstance>, t: seq<Config>, a: Log, i: nat)
    returns (track: Track)
    requires Settled(s) && Trace(s, order, t) && i < |t| && t[i].status == Steps.Going
    requires IsRun(s, order, None, a) && a.start == NOTHING
    ensures Inv(s, order, t[i], a, track)
  {
    if i == 0 {
      track := AtFirst(s, order, a);
    } else {
      GoingBefore(s, order, t, i - 1);
      var before := TraceFollows(s, order, t, a, i - 1);
      track := FollowOn(s, order, t, a, i - 1, i, before);
    }
  }

  // ---- How runs end ---------------------------------------------------------------------------------------------

  /** While the followed run goes well, every list that is being run is followed, and goes well. */
  lemma {:induction false} AllFollowed(s: Setup, order: seq<NodeInstance>, k: Config, a: Log, track: Track,
      at: Option<NodeId>)
    requires Inv(s, order, k, a, track) && a.ok && IsPlace(s, at) && Active(k, at)
    ensures at in track && track[at].ok
    decreases Height(s, at), 0
  {
    if at.Some? {
      Follow(s, order, k, a, track, None);
      var n :| n in s.w.nodes && n.id == at.value;
      Higher(s, order, n.id);
      AroundFollowed(s, order, k, a, track, n);
      BodyFollowedToo(s, order, k, a, track, n);
    }
  }

  lemma {:induction false} AroundFollowed(s: Setup, order: seq<NodeInstance>, k: Config, a: Log, track: Track,
      n: NodeInstance)
    requires Inv(s, order, k, a, track) && a.ok && n in s.w.nodes && Busy(TaskOf(k, n.id))
    ensures OwnerOf(s.owner, n.id) in track && track[OwnerOf(s.owner, n.id)].ok
    decreases Height(s, OwnerOf(s.owner, n.id)), 1
  {
    Follow(s, order, k, a, track, None);
    OwnerIsPlace(s, order, n.id);
    assert Enclosed(s, k, n.id);
    AllFollowed(s, order, k, a, track, OwnerOf(s.owner, n.id));
  }

  lemma {:induction false} BodyFollowedToo(s: Setup, order: seq<NodeInstance>, k: Config, a: Log, track: Track,
      n: NodeInstance)
    requires Inv(s, order, k, a, track) && n in s.w.nodes && TaskOf(k, n.id).Inside?
    requires OwnerOf(s.owner, n.id) in track && track[OwnerOf(s.owner, n.id)].ok
    ensures Some(n.id) in track && track[Some(n.id)].ok
  {
    var up := OwnerOf(s.owner, n.id);
    var i, m := GoodTurn(s, order, k, a, track, n);
    var t := track[up].turns[m];
    TurnAtHand(s, order, k, a, track, up, i, m);
    CirclingLoop(s, order, k, n);
    var p: nat :| p < |t.passes| && AtPass(s, order, n, t, TaskOf(k, n.id).c, p, p + 1)
      && Some(n.id) in track && track[Some(n.id)] == PassLog(s, order, n, t.passes[p])
      && SameEntries(k.st, track[Some(n.id)].start, n.id);
    LoopTurnParts(s, order, n, t);
    LoopRanParts(s, order, n, NodeOutcome(s, t.before, n).input, t);
  }

  lemma {:induction false} GoodTurn(s: Setup, order: seq<NodeInstance>, k: Config, a: Log, track: Track,
      n: NodeInstance) returns (i: nat, m: nat)
    requires Inv(s, order, k, a, track) && n in s.w.nodes
    requires OwnerOf(s.owner, n.id) in track && track[OwnerOf(s.owner, n.id)].ok
    ensures var up := OwnerOf(s.owner, n.id);
            && i < |ListAt(s, order, up)| && ListAt(s, order, up)[i] == n && HasTurn(track[up], i, m)
            && track[up].turns[m].ok && TurnRan(s, order, n, track[up].turns[m])
  {
    var up := OwnerOf(s.owner, n.id);
    Follow(s, order, k, a, track, up);
    InList(s, order, up, n.id);
    i := PlaceOf(ListAt(s, order, up), n.id);
    TrackAt(s, order, k, a, track, up, i);
    SameNode(s, order, ListAt(s, order, up)[i], n);
    m := TurnOf(s, order, up, track[up], i);
    TurnFacts(s, order, up, track[up], m);
  }

  lemma OnlyReadBreaks(s: Setup, order: seq<NodeInstance>, k: Config, k': Config, n: NodeInstance)
    requires NodeStep(s, order, k, k', n) && k.status == Steps.Going && k'.status == Steps.Broken
    ensures TaskOf(k, n.id).Begun? && NodeOutcome(s, k.st, n).Fails?
  {
  }

  /** A node that fails fails in its turn too. */
  lemma {:induction false} FailureFollows(s: Setup, order: seq<NodeInstance>, k: Config, a: Log, track: Track,
      n: NodeInstance)
    requires Settled(s) && Inv(s, order, k, a, track) && n in s.w.nodes
    requires TaskOf(k, n.id).Begun? && NodeOutcome(s, k.st, n).Fails?
    ensures !a.ok
  {
    if a.ok {
      AroundFollowed(s, order, k, a, track, n);
      var i, m := GoodTurn(s, order, k, a, track, n);
      OutcomeSeen(s, order, k, a, track, OwnerOf(s.owner, n.id), i, m);
    }
  }

  /** Breaking out leaves what the followed run leaves. */
  lemma {:induction false} BreakOutFollows(s: Setup, order: seq<NodeInstance>, k: Config, k': Config, a: Log,
      track: Track)
    requires Inv(s, order, k, a, track) && BreakOut(s, order, k, k')
    ensures a.ok && k'.st == a.end
  {
    Follow(s, order, k, a, track, None);
    QuietIsThrough(s, order, k, None);
    ListEnded(s, order, k, a, track, None);
    RunEnd(s, order, None, a);
    forall x ensures SameEntries(k.st, a.end, x) {
      if x !in Ids(s.w.nodes) { OuterKept(s, order, None, a, |a.turns|, x); }
    }
    Steps.SameEverywhere(k.st, a.end);
  }

  /** Confluence of single steps, loops included: a run of a settled workflow that is over succeeded exactly when the
      runs of whole turns do, and then left the same state. */
  lemma {:induction false} SettledStepsAgree(s: Setup, order: seq<NodeInstance>, t: seq<Config>, a: Log)
    requires Settled(s) && Trace(s, order, t) && t[|t| - 1].status != Steps.Going
    requires IsRun(s, order, None, a) && a.start == NOTHING
    ensures t[|t| - 1].status == Steps.Succeeded <==> a.ok
    ensures a.ok ==> t[|t| - 1].st == a.end
  {
    var i := |t| - 2;
    TraceNext(s, order, t, i);
    var track := TraceFollows(s, order, t, a, i);
    LastStep(s, order, t[i], t[i + 1], a, track);
  }

  lemma LastStep(s: Setup, order: seq<NodeInstance>, k: Config, k': Config, a: Log, track: Track)
    requires Settled(s) && Inv(s, order, k, a, track) && Next(s, order, k, k') && k'.status != Steps.Going
    ensures (k'.status == Steps.Succeeded <==> a.ok) && (a.ok ==> k'.st == a.end)
  {
    if BreakOut(s, order, k, k') {
      BreakOutFollows(s, order, k, k', a, track);
    } else {
      var n := BrokenStep(s, order, k, k');
      FailureFollows(s, order, k, a, track, n);
    }
  }

  lemma BrokenStep(s: Setup, order: seq<NodeInstance>, k: Config, k': Config) returns (n: NodeInstance)
    requires Next(s, order, k, k') && k'.status != Steps.Going && !BreakOut(s, order, k, k')
    ensures n in s.w.nodes && TaskOf(k, n.id).Begun? && NodeOutcome(s, k.st, n).Fails? && k'.status == Steps.Broken
  {
    n :| n in s.w.nodes && NodeStep(s, order, k, k', n);
    OnlyReadBreaks(s, order, k, k', n);
  }

  /** What an execution whose steps ended so gives. */
  function ResultAt(s: Setup, k: Config): Whole.Execution {
    if k.status == Steps.Succeeded then Whole.FirstOutputs(s.w, k.st) else Whole.NodeFailed
  }

  /** So however the steps of a settled workflow interleave, the result is that of its executions by whole turns. */
  lemma SettledStepsGiveTheResult(s: Setup, order: seq<NodeInstance>, t: seq<Config>, turns: seq<Turn>, end: RunState,
      r: Whole.Execution)
    requires Planned(s, order) && Settled(s) && Trace(s, order, t) && t[|t| - 1].status != Steps.Going
    requires Whole.RanInOrder(s, order, turns, end, r)
    ensures ResultAt(s, t[|t| - 1]) == r
  {
    Whole.ExecutionIsRun(s, order, turns, end, r);
    SettledStepsAgree(s, order, t, Whole.LogOf(turns, end, r));
  }
}
