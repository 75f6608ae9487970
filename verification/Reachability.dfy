/** The breadth-first search that `back_edges` and `loop_owners` (src/engine.rs) both run:
    from some seeds along a list of connections, never entering one node. */
module Reachability {

  import opened Workflows

  predicate Linked(links: seq<Connection>, a: NodeId, b: NodeId) {
    exists c :: c in links && c.fromNode == a && c.toNode == b
  }

  /** `p` starts at a seed and follows links without entering `stop`. */
  ghost predicate Walk(links: seq<Connection>, seeds: set<NodeId>, stop: NodeId, p: seq<NodeId>) {
    && |p| > 0
    && p[0] in seeds
    && forall i, k :: 0 <= i < k == i + 1 < |p| ==> Linked(links, p[i], p[k]) && p[k] != stop
  }

  ghost predicate Reaches(links: seq<Connection>, seeds: set<NodeId>, stop: NodeId, x: NodeId) {
    exists p :: Walk(links, seeds, stop, p) && p[|p| - 1] == x
  }

  function Targets(links: seq<Connection>): set<NodeId> {
    set c | c in links :: c.toNode
  }

  /** Everything a walk can end at. */
  ghost function ReachSet(links: seq<Connection>, seeds: set<NodeId>, stop: NodeId): set<NodeId> {
    set x | x in seeds + Targets(links) && Reaches(links, seeds, stop, x)
  }

  ghost predicate Closed(links: seq<Connection>, stop: NodeId, s: set<NodeId>) {
    forall c :: c in links && c.fromNode in s && c.toNode != stop ==> c.toNode in s
  }

  lemma {:induction false} WalkStaysInClosed(
    links: seq<Connection>, seeds: set<NodeId>, stop: NodeId, s: set<NodeId>, p: seq<NodeId>)
    requires seeds <= s && Closed(links, stop, s)
    requires Walk(links, seeds, stop, p)
    ensures p[|p| - 1] in s
  {
    if |p| > 1 {
      WalkStaysInClosed(links, seeds, stop, s, p[..|p| - 1]);
      assert Linked(links, p[|p| - 2], p[|p| - 1]);
    }
  }

  lemma SeedsReached(links: seq<Connection>, seeds: set<NodeId>, stop: NodeId)
    ensures seeds <= ReachSet(links, seeds, stop)
  {
    forall x | x in seeds ensures Reaches(links, seeds, stop, x) {
      assert Walk(links, seeds, stop, [x]);
    }
  }

  lemma StepReached(links: seq<Connection>, seeds: set<NodeId>, stop: NodeId, c: Connection)
    requires c in links && Reaches(links, seeds, stop, c.fromNode) && c.toNode != stop
    ensures c.toNode in ReachSet(links, seeds, stop)
  {
    var p :| Walk(links, seeds, stop, p) && p[|p| - 1] == c.fromNode;
    var q := p + [c.toNode];
    assert Linked(links, c.fromNode, c.toNode);
    forall k | 0 < k < |q| ensures Linked(links, q[k - 1], q[k]) && q[k] != stop {
      if k < |p| { assert q[k - 1] == p[k - 1] && q[k] == p[k]; }
    }
    assert Walk(links, seeds, stop, q) && q[|q| - 1] == c.toNode;
  }

  lemma ReachSetClosed(links: seq<Connection>, seeds: set<NodeId>, stop: NodeId)
    ensures Closed(links, stop, ReachSet(links, seeds, stop))
  {
    forall c | c in links && c.fromNode in ReachSet(links, seeds, stop) && c.toNode != stop
      ensures c.toNode in ReachSet(links, seeds, stop)
    {
      StepReached(links, seeds, stop, c);
    }
  }

  /** What walks reach lies inside every closed set that holds the seeds. */
  lemma ReachSetIsLeast(links: seq<Connection>, seeds: set<NodeId>, stop: NodeId, s: set<NodeId>)
    requires seeds <= s && Closed(links, stop, s)
    ensures ReachSet(links, seeds, stop) <= s
  {
    forall x | x in ReachSet(links, seeds, stop) ensures x in s {
      var p :| Walk(links, seeds, stop, p) && p[|p| - 1] == x;
      WalkStaysInClosed(links, seeds, stop, s, p);
    }
  }

  /** Every walk's end is in the set. */
  lemma ReachSetComplete(links: seq<Connection>, seeds: set<NodeId>, stop: NodeId, x: NodeId)
    requires Reaches(links, seeds, stop, x)
    ensures x in ReachSet(links, seeds, stop)
  {
    var p :| Walk(links, seeds, stop, p) && p[|p| - 1] == x;
    SeedsReached(links, seeds, stop);
    ReachSetClosed(links, seeds, stop);
    WalkStaysInClosed(links, seeds, stop, ReachSet(links, seeds, stop), p);
  }

  /** The inner loop of the search: the targets of `id`'s links that are not reached yet. */
  method Expand(links: seq<Connection>, id: NodeId, stop: NodeId, reach: set<NodeId>) returns (found: seq<NodeId>)
    ensures forall x :: x in found ==> exists c :: c in links && c.fromNode == id && c.toNode == x && x != stop
    ensures forall x :: x in found ==> x !in reach
    ensures forall c :: c in links && c.fromNode == id && c.toNode != stop ==> c.toNode in reach || c.toNode in found
  {
    found := [];
    for i := 0 to |links|
      invariant forall x :: x in found ==> exists c :: c in links && c.fromNode == id && c.toNode == x && x != stop
      invariant forall x :: x in found ==> x !in reach
      invariant forall j :: 0 <= j < i && links[j].fromNode == id && links[j].toNode != stop ==>
                  links[j].toNode in reach || links[j].toNode in found
    {
      var c := links[i];
      if c.fromNode == id && c.toNode != stop && c.toNode !in reach && c.toNode !in found {
        found := found + [c.toNode];
      }
    }
  }

  /** The search itself finds a closed set that holds the seeds, inside every other such set. */
  method Search(links: seq<Connection>, seeds: seq<NodeId>, stop: NodeId, ghost bound: set<NodeId>)
    returns (reach: set<NodeId>)
    requires (forall x :: x in seeds ==> x in bound) && Closed(links, stop, bound)
    ensures forall x :: x in seeds ==> x in reach
    ensures reach <= bound
    ensures Closed(links, stop, reach)
  {
    reach := set x | x in seeds;
    var queue := seeds;
    while queue != []
      invariant forall x :: x in seeds ==> x in reach
      invariant forall x :: x in queue ==> x in reach
      invariant reach <= bound
      invariant forall c :: c in links && c.fromNode in reach && c.fromNode !in queue && c.toNode != stop ==>
          c.toNode in reach
      decreases bound - reach, |queue|
    {
      var id := queue[0];
      var found := Expand(links, id, stop, reach);
      ghost var before := reach;
      assert forall x :: x in found ==> x in bound;
      assert forall x :: x in queue ==> x == id || x in queue[1..];
      queue := queue[1..] + found;
      reach := reach + set x | x in found;
      if found != [] {
        assert found[0] in bound - before && found[0] in reach;
      }
    }
  }

  /** The search reaches what walks from the seeds end at, and nothing else. */
  method Flood(links: seq<Connection>, seeds: seq<NodeId>, stop: NodeId) returns (reach: set<NodeId>)
    ensures reach == ReachSet(links, (set x | x in seeds), stop)
    ensures forall x :: x in reach <==> Reaches(links, (set y | y in seeds), stop, x)
  {
    ghost var from := set x | x in seeds;
    SeedsReached(links, from, stop);
    ReachSetClosed(links, from, stop);
    reach := Search(links, seeds, stop, ReachSet(links, from, stop));
    ReachSetIsLeast(links, from, stop, reach);
    forall x | Reaches(links, from, stop, x) ensures x in reach {
      ReachSetComplete(links, from, stop, x);
    }
  }
}
