/** The editor engine's data model (src/domain.rs): nodes, connections and items,
    and the words for talking about the links of a workflow. */
module Workflows {

  import opened JsonValues

  datatype Option<+T> = None | Some(value: T)

  /** A node's id; an opaque name, only ever compared. */
  datatype NodeId = NodeId(name: string)

  datatype Item = Item(json: Json, binary: Json)

  /** What a node sends: one list of items for each output port. */
  type NodeOutput = seq<seq<Item>>

  datatype RetryPolicy = RetryPolicy(maxTries: nat, waitMs: nat)

  datatype NodeSettings = NodeSettings(retry: Option<RetryPolicy>, timeoutMs: Option<nat>, continueOnFail: bool)

  datatype NodeInstance = NodeInstance(
    id: NodeId, nodeType: string, parameters: Json, disabled: bool, settings: NodeSettings)

  datatype Connection = Connection(fromNode: NodeId, fromOutput: nat, toNode: NodeId, toInput: nat, error: bool)

  datatype Workflow = Workflow(nodes: seq<NodeInstance>, connections: seq<Connection>)

  const LOOP_TYPE := "core.loop"

  predicate IsLoop(n: NodeInstance) {
    n.nodeType == LOOP_TYPE
  }

  /** A node with no parameters and the default settings. */
  function Plainly(id: NodeId, nodeType: string): NodeInstance {
    NodeInstance(id, nodeType, Null, false, NodeSettings(None, None, false))
  }

  /** The items on one port; a port that is not there carries nothing. */
  function PortItems(out: NodeOutput, port: nat): seq<Item> {
    if port < |out| then out[port] else []
  }

  function Max(a: nat, b: nat): nat {
    if a < b then b else a
  }

  ghost predicate HasNode(w: Workflow, id: NodeId) {
    exists n :: n in w.nodes && n.id == id
  }

  ghost predicate DistinctIds(nodes: seq<NodeInstance>) {
    forall i, j :: 0 <= i < j < |nodes| ==> nodes[i].id != nodes[j].id
  }

  ghost predicate EndpointsExist(w: Workflow) {
    forall c :: c in w.connections ==> HasNode(w, c.fromNode) && HasNode(w, c.toNode)
  }

  function Ids(nodes: seq<NodeInstance>): (ids: set<NodeId>) {
    set n | n in nodes :: n.id
  }

  predicate IsAt(order: seq<NodeInstance>, i: int, id: NodeId) {
    0 <= i < |order| && order[i].id == id
  }

  ghost predicate Preceded(order: seq<NodeInstance>, j: int, id: NodeId) {
    exists i :: i < j && IsAt(order, i, id)
  }

  /** Every link into a listed node starts earlier in the list. */
  ghost predicate Forwards(links: seq<Connection>, order: seq<NodeInstance>) {
    forall c, j :: c in links && IsAt(order, j, c.toNode) ==> Preceded(order, j, c.fromNode)
  }

  lemma EarlierFeeder(links: seq<Connection>, order: seq<NodeInstance>, c: Connection, j: nat) returns (i: nat)
    requires Forwards(links, order) && c in links && j < |order| && order[j].id == c.toNode
    ensures i < j && order[i].id == c.fromNode
  {
    assert IsAt(order, j, c.toNode);
    var k :| k < j && IsAt(order, k, c.fromNode);
    i := k;
  }
}
