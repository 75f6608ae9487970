/** What `run_loop` (src/engine.rs) makes of its input and of what its body sends: batches, totals and "done". */
module LoopBatches {

  import opened Decimals
  import opened JsonValues
  import opened Workflows
  import opened NodeRuns

  /** A node's turn in a list that runs together: which node, the state it found and the state it left; a loop's
      turn has passes, the other nodes' turns have none. */
  datatype Turn = Turn(index: nat, before: RunState, after: RunState, passes: seq<Pass>, ok: bool)

  /** One pass over a loop's body: the batch sent in, the states around it and the turns of the body's nodes. */
  datatype Pass = Pass(batch: seq<Item>, before: RunState, turns: seq<Turn>, after: RunState, ok: bool)

  // ---- The batch size -------------------------------------------------------------------------------------------

  const U64_RANGE := 0x1_0000_0000_0000_0000

  /** The value is the number `n`, in decimal digits. */
  predicate IsNumeral(v: Json, n: nat) {
    v.Number? && v.text != "" && AllDigits(v.text) && Value(v.text) == n
  }

  /** `as_u64`: whole numbers below 2^64. */
  function AsU64(v: Json): (r: Option<nat>)
    ensures forall n: nat :: r == Some(n) <==> IsNumeral(v, n) && n < U64_RANGE
  {
    if v.Number? && v.text != "" && AllDigits(v.text) && Value(v.text) < U64_RANGE then Some(Value(v.text)) else None
  }

  function Lookup(entries: seq<(string, Json)>, key: string): (r: Option<Json>)
    ensures r.Some? ==> (key, r.value) in entries
    ensures r.None? ==> forall e :: e in entries ==> e.0 != key
  {
    if entries == [] then None else if entries[0].0 == key then Some(entries[0].1) else Lookup(entries[1..], key)
  }

  /** The parameters ask for batches of `n` items. */
  predicate AsksFor(parameters: Json, n: nat) {
    0 < n < U64_RANGE && parameters.Object? && Lookup(parameters.entries, "batch_size").Some?
    && IsNumeral(Lookup(parameters.entries, "batch_size").value, n)
  }

  /** The `batch_size` parameter when it is a positive whole number, else 1. */
  function BatchSize(parameters: Json): (size: nat)
    ensures forall n :: AsksFor(parameters, n) ==> size == n
    ensures size == 1 || AsksFor(parameters, size)
  {
    if !parameters.Object? then 1
    else
      match Lookup(parameters.entries, "batch_size")
      case None => 1
      case Some(v) => match AsU64(v) case Some(n) => if n > 0 then n else 1 case None => 1
  }

  // ---- Specifications over the passes ---------------------------------------------------------------------------

  function Last(passes: seq<Pass>): Pass
    requires passes != []
  {
    passes[|passes| - 1]
  }

  function Front(passes: seq<Pass>): seq<Pass>
    requires passes != []
  {
    passes[..|passes| - 1]
  }

  /** All batches, in order. */
  function Sent(passes: seq<Pass>): seq<Item> {
    if passes == [] then [] else Sent(Front(passes)) + Last(passes).batch
  }

  /** What one link brings back, pass by pass. */
  function BroughtBack(backLinks: seq<Connection>, st: RunState): seq<Item> {
    if backLinks == [] then [] else Arrived(st, backLinks[0]) + BroughtBack(backLinks[1..], st)
  }

  /** Everything the return links brought back, in order. */
  function Done(backLinks: seq<Connection>, passes: seq<Pass>): seq<Item> {
    if passes == [] then [] else Done(backLinks, Front(passes)) + BroughtBack(backLinks, Last(passes).after)
  }

  /** A node's items on one port over all passes, in order. */
  function PortTotal(passes: seq<Pass>, id: NodeId, port: nat): seq<Item> {
    if passes == [] then [] else PortTotal(Front(passes), id, port) + PortItems(OutputOf(Last(passes).after, id), port)
  }

  /** Non-empty batches of at most the batch size, all but the last full. */
  ghost predicate GoodBatches(passes: seq<Pass>, size: nat) {
    && (forall k :: 0 <= k < |passes| ==> 0 < |passes[k].batch| <= size)
    && forall k :: 0 <= k < |passes| - 1 ==> |passes[k].batch| == size
  }

  /** `total` holds, port by port, what the node sent over the passes. */
  ghost predicate Totalled(passes: seq<Pass>, id: NodeId, total: NodeOutput) {
    forall port: nat :: PortItems(total, port) == PortTotal(passes, id, port)
  }

  lemma MergeTotals(passes: seq<Pass>, p: Pass, id: NodeId, total: NodeOutput)
    requires Totalled(passes, id, total)
    ensures Totalled(passes + [p], id, MergePorts(total, OutputOf(p.after, id)))
  {
    assert Front(passes + [p]) == passes && Last(passes + [p]) == p;
    var merged := MergePorts(total, OutputOf(p.after, id));
    forall port: nat ensures PortItems(merged, port) == PortTotal(passes + [p], id, port) {
      assert PortItems(merged, port) == PortItems(total, port) + PortItems(OutputOf(p.after, id), port);
    }
  }

  lemma {:induction false} NextPass(backLinks: seq<Connection>, passes: seq<Pass>, p: Pass)
    ensures Sent(passes + [p]) == Sent(passes) + p.batch
    ensures Done(backLinks, passes + [p]) == Done(backLinks, passes) + BroughtBack(backLinks, p.after)
  {
    assert Front(passes + [p]) == passes && Last(passes + [p]) == p;
  }

  // ---- The loops over links and nodes ---------------------------------------------------------------------------

  lemma {:induction false} BroughtBackMore(backLinks: seq<Connection>, i: nat, st: RunState)
    requires i < |backLinks|
    ensures BroughtBack(backLinks[..i + 1], st) == BroughtBack(backLinks[..i], st) + Arrived(st, backLinks[i])
  {
    if i == 0 {
      assert backLinks[..1] == [backLinks[0]] && backLinks[..0] == [];
      assert BroughtBack([backLinks[0]], st) == Arrived(st, backLinks[0]) + BroughtBack([], st);
    } else {
      BroughtBackMore(backLinks[1..], i - 1, st);
      assert backLinks[..i + 1][1..] == backLinks[1..][..i];
      assert backLinks[..i][1..] == backLinks[1..][..i - 1];
    }
  }

  method CollectReturns(backLinks: seq<Connection>, st: RunState, done: seq<Item>) returns (done': seq<Item>)
    ensures done' == done + BroughtBack(backLinks, st)
  {
    done' := done;
    for i := 0 to |backLinks|
      invariant done' == done + BroughtBack(backLinks[..i], st)
    {
      BroughtBackMore(backLinks, i, st);
      done' := done' + Arrived(st, backLinks[i]);
    }
    assert backLinks[..|backLinks|] == backLinks;
  }

  function TotalIn(totals: map<NodeId, NodeOutput>, id: NodeId): NodeOutput {
    if id in totals then totals[id] else []
  }

  ghost predicate Kept(totals: map<NodeId, NodeOutput>, totals': map<NodeId, NodeOutput>, id: NodeId) {
    (id in totals' <==> id in totals) && TotalIn(totals', id) == TotalIn(totals, id)
  }

  ghost predicate Added(st: RunState, totals: map<NodeId, NodeOutput>, totals': map<NodeId, NodeOutput>, id: NodeId) {
    if id in st.produced then id in totals' && totals'[id] == MergePorts(TotalIn(totals, id), st.produced[id])
    else Kept(totals, totals', id)
  }

  function AddOne(st: RunState, totals: map<NodeId, NodeOutput>, id: NodeId): map<NodeId, NodeOutput> {
    if id in st.produced then totals[id := MergePorts(TotalIn(totals, id), st.produced[id])] else totals
  }

  lemma AddOneAdds(st: RunState, totals: map<NodeId, NodeOutput>, now: map<NodeId, NodeOutput>, id: NodeId)
    requires Kept(totals, now, id)
    ensures Added(st, totals, AddOne(st, now, id), id)
  {
  }

  lemma AddOneElsewhere(st: RunState, totals: map<NodeId, NodeOutput>, now: map<NodeId, NodeOutput>, id: NodeId,
      other: NodeId)
    requires other != id
    ensures Added(st, totals, now, other) ==> Added(st, totals, AddOne(st, now, id), other)
    ensures Kept(totals, now, other) ==> Kept(totals, AddOne(st, now, id), other)
  {
  }

  /** The totals with one pass's outputs of these nodes added. */
  function AddAll(body: seq<NodeInstance>, st: RunState, totals: map<NodeId, NodeOutput>): map<NodeId, NodeOutput> {
    if body == [] then totals
    else AddOne(st, AddAll(body[..|body| - 1], st, totals), body[|body| - 1].id)
  }

  /** What every node sent over all passes, port by port. */
  function Totals(body: seq<NodeInstance>, passes: seq<Pass>): map<NodeId, NodeOutput> {
    if passes == [] then map[] else AddAll(body, Last(passes).after, Totals(body, Front(passes)))
  }

  lemma {:induction false} AddAllAdds(body: seq<NodeInstance>, st: RunState, totals: map<NodeId, NodeOutput>,
      id: NodeId)
    requires DistinctIds(body)
    ensures id in Ids(body) ==> Added(st, totals, AddAll(body, st, totals), id)
    ensures id !in Ids(body) ==> Kept(totals, AddAll(body, st, totals), id)
  {
    if body != [] {
      var front, n := body[..|body| - 1], body[|body| - 1];
      assert body == front + [n];
      AddAllAdds(front, st, totals, id);
      if id == n.id {
        assert id !in Ids(front);
        AddOneAdds(st, totals, AddAll(front, st, totals), id);
      } else {
        assert id in Ids(body) <==> id in Ids(front);
        AddOneElsewhere(st, totals, AddAll(front, st, totals), n.id, id);
      }
    }
  }

  method AddToTotals(body: seq<NodeInstance>, st: RunState, totals: map<NodeId, NodeOutput>)
    returns (totals': map<NodeId, NodeOutput>)
    ensures totals' == AddAll(body, st, totals)
  {
    totals' := totals;
    for i := 0 to |body|
      invariant totals' == AddAll(body[..i], st, totals)
    {
      assert body[..i + 1][..i] == body[..i];
      var id := body[i].id;
      if id in st.produced {
        totals' := totals'[id := MergePorts(TotalIn(totals', id), st.produced[id])];
      }
    }
    assert body[..|body|] == body;
  }
}
