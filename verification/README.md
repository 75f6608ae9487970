# Verified model of the workflow engines

A Dafny model of the repository's scheduling, graph, protocol and encoding logic, with proofs. To verify:
`dafny verify dfyconfig.toml` (Dafny 4.11). There is no I/O: a node's work, clocks, the hash and the canvas are parameters.

## What is modelled

**The editor engine** (`src/engine.rs`, with `src/execution_runner.rs`). `Workflows` holds the data; `Reachability` and
`LoopLayout` the searches that find back links and loop bodies; `TopologicalOrder` the queue-based ordering; `LoopNesting`
why nested loops end. `NodeRuns` is one node's turn, and `NodeTurns` says, case by case, what a turn leaves in terms of what
the links into the node carried. `RunGraph` is the concurrent scheduler as a system of small steps, with the proof that every
interleaving ends as running the nodes in order does; `RunRecords` says what records it leaves. Runs with loops: `RunLists`
says which nodes run together, `LoopBatches` what a loop makes of its input, and `RunLogs` what a run is, as a relation on
logs of turns, where a loop's turn holds its passes and each pass the turns of its body; what holds of every such run is
proved there. `RunEnds` says what every node holds at the end of a run and of a pass. `WorkflowRun` is the recursion itself, a
class with mutable state whose methods are proved to do such runs, and what an execution answers.

When does the order of turns matter? `LoopTrees` says what lies under a loop and which nodes must come before which, and
`RunsAgree` that all runs of a settled workflow agree. For the other half, `Schedules` has a run for every way of putting nodes
off, `Layouts` keeps the plan of a run while its nodes change, `RaceStage` and `RaceTurns` cast the nodes of any layout with a
race so that it shows who ran first, `LoopFirst` and `FeederFirst` are the two ways it can go, and `Races` puts both halves
together. `TimingMatters` is a small workflow with a race. All this is about whole turns; `LoopSteps` is the scheduler with
loops as single steps, in which siblings run between the passes of a loop. `StepsEnd` shows that its runs end, `StepsAgree` that
those of a settled workflow end as its runs of whole turns do, and `TurnsAsSteps` that every run of whole turns is one of them.

`CanonicalJson`, `Fingerprints`, `FingerprintMeaning`, `WorkflowPrints`, `SwappedFeeders` and `Reuse` are incremental runs: what
a fingerprint says and what it does not, and that taking unchanged nodes' output from the last run gives what a full run gives,
over any history of edits and runs. `ReuseExact` says which nodes that are.

**The n8n-compatible stack machine** (`src/n8n/engine.rs`). `StackMachine` is the loop over the stack and the join sets.
On top of it: where every scheduled item came from (`StackLineage`), how join sets fill and pair (`StackJoins`), that no
delivery is lost or doubled (`StackConservation`), what this says of a whole execution (`StackExecution`), the two
execution orders (`StackOrder`), what exactly a run delivers (`StackDeliveries`), and which set runs when (`StackWaiting`).

**Protocols as step systems.** `LeaseQueue` is the Redis job queue, one step for each atomic command or pipe, with crashes
anywhere, `QueueDuplicates` says when it holds a job twice, `QueueOrder` who is taken first, and `LeaseHistory` who holds a lease
and where each job stands. `LeaderElection` is the timed election with lost replies, late requests and crashes, and
`LeaderStays` when a main starts and stops leading. `ChatHandOff` is the dispatcher with its per-chat workers, idle timeouts
and channel closing, and `ChatTimes` when a worker gives up and how they leave.

**Parsers and encodings.** `Templates` splits expression templates, `Flatted` decodes flatted execution data.
`JsonValues`, `SortedStrings`, `Decimals` and `Sequences` are shared vocabulary.

## Where the code does less than its comments say, or than one might expect

The model follows the code. In each case there is a concrete input or run, and the exact condition under which the code does
what is said; the last one is exact wherever a race shows at all.

- Equal fingerprints do not mean everything upstream is unchanged (src/engine.rs:808-811): incoming links are sorted, so
  two feeders behind one start node can swap roles (`SwappedFeeders.SwappedFeedersSamePrint`).
  `WorkflowPrints.EqualPrintsIffSameShape` says exactly what equality means; reuse is still right, because a node is reused only
  when all its feeders were (`Reuse.IncrementalEqualsFull`).
- A chat's updates do not always run one at a time (src/telegram_poller.rs:129-131): a worker that closes its channel on a
  job that came in after its timer fired runs that job while the next update gets a worker of its own
  (`ChatHandOff.OverlapIffClosedOnAJob`).
- A job can be lost in the hand-off (src/telegram_poller.rs:150-164) if a fresh worker gives up before its first job is in
  its channel, possible exactly when that takes as long as the idle time (`ChatHandOff.NothingLostIff`).
- Two mains can lead at once (src/n8n/election.rs:60-62): the lock a leader last set can run out while its failing checks
  still let it hold on and the last of them hangs. `LeaderElection.ExclusiveIffLongEnough` says exactly when the TTL is long
  enough, for checks that begin on the ticks of the interval or a bounded time later; the defaults of 10 s and 3 s are not
  (`LeaderElection.RedisNeedsAFifth`).
- A job can be held twice (src/n8n/queue.rs:155): the process that removes a lease requeues the job even if its LREM finds
  nothing. `QueueDuplicates.SingleIff` names the step, `QueueDuplicates.SafeLeasesKeepSingle` and
  `QueueDuplicates.UnsafeLeaseDoubles` the exact condition on leases that rules it out. It fails in two ways: two overlapping
  sweeps (`QueueDuplicates.OverlappingSweepsDouble`), and a worker that is late to lease the job it took
  (`QueueDuplicates.LateLeaseDoubles`).
- The number of a node's connected inputs is the highest input with a link and one more, not the number of distinct inputs
  that have one (src/n8n/workflow.rs:206): with a gap below the highest a join set waits for an input that nothing enters
  (`StackWaiting.GapCounted`; `StackWaiting.CountIffNoGap` has the exact condition).
- A node in a loop's body waits only for nodes of the same body, as src/engine.rs:261-264 says, not for all its upstream: fed
  by a node that is neither before its loop nor behind it, it finds what that node happens to have sent by then. In every
  layout in which such a race can show the result depends on the timing, for some nodes (`Races.RaceMatters`, with the
  conditions; `TimingMatters.SideNodeRaces` is one with four nodes). It does not, for any nodes, in a settled workflow, in which
  whatever feeds into a loop's tree comes before or after that loop in every run. Both hold for the order of whole turns
  (`RunsAgree.SettledRunsAgree`, `Races.SettledIffIrrelevant`) and for the interleaving of single steps
  (`StepsAgree.SettledStepsAgree`, `TurnsAsSteps.SettledIffInterleavingIrrelevant`).

## Model

| member | source | states |
|---|---|---|
| `Reachability.Flood` | src/engine.rs:722-748 | the breadth-first search ends and reaches exactly the nodes that some walk from the seeds reaches without passing through the stop node |
| `LoopLayout.BackEdges` | src/engine.rs:722-748 | a connection is marked back exactly when it enters a loop node from a node reachable from that loop's output 1 without passing through the loop |
| `LoopLayout.ForwardLinkIff` | src/engine.rs:722-748 | the links left over are exactly those that are not back links |
| `LoopLayout.LoopOwners` | src/engine.rs:752-778 | a node has an owner exactly when some loop's body holds it, and the owner's body is a smallest one among the bodies that do; of equally small ones the first loop in node order wins |
| `LoopLayout.OneOwner` | src/engine.rs:771-776 | so a node's owner is determined |
| `LoopLayout.Smallest` | src/engine.rs:771-776 | the first of the smallest bodies that hold a node |
| `TopologicalOrder.CheckEndpoints` | src/engine.rs:888-895 | true exactly when both ends of every connection are nodes of the workflow |
| `TopologicalOrder.CountStarts` | src/engine.rs:897-912 | counts the nodes no forward link enters; one exactly when there is one start node |
| `TopologicalOrder.Build` | src/engine.rs:916-924 | in-degrees and adjacency lists count each linked pair of nodes once, however many links join it |
| `TopologicalOrder.Advance` | src/engine.rs:931-947 | one turn of the queue: ordered nodes and queue stay exactly the nodes whose predecessors are ordered, in-degrees count the predecessors not yet ordered, equal-footing nodes stay top to bottom |
| `TopologicalOrder.StuckHasCycle` | src/engine.rs:949-955 | if every node of a non-empty finite set has a predecessor in the set, the links hold a cycle |
| `TopologicalOrder.LeftOverMeansCycle` | src/engine.rs:949-955 | nodes left over when the queue is empty mean a repeated id or a cycle |
| `TopologicalOrder.OrderedIsAcyclic` | src/engine.rs:883-961 | links that all go left to right in a list of distinct nodes hold no cycle |
| `TopologicalOrder.FindOrder` | src/engine.rs:883-961 | sound and complete: a non-empty workflow is ordered exactly when endpoints exist, ids are distinct, the forward links are acyclic and (for more than one node) exactly one node has no forward input; the order is a permutation, every forward link goes left to right, every node is reachable from the first, and nodes with the same upstream keep the workflow's order; each error kind is given only for its cause |
| `LoopNesting.LoopNotInOwnBody` | src/engine.rs:752-778 | once there is an order, no loop is in its own body |
| `LoopNesting.BodyIsClosed` | src/engine.rs:752-778 | no forward link leaves a loop body |
| `LoopNesting.TopLevelUpstreamIsTopLevel` | src/engine.rs:200-206 | a top-level node is fed by top-level nodes only, so it waits for all its real upstream |
| `LoopNesting.InnerBodyStrictlyInside` | src/engine.rs:752-778 | the body of a loop inside another loop's body is strictly contained in it |
| `LoopNesting.OwnerIsInnermost` | src/engine.rs:771-776 | no other loop around a node stands inside its owner's body |
| `LoopNesting.OwnedLoopIsSmaller` | src/engine.rs:319-399 | the measure of the recursion through nested loops: a loop owned by another has a strictly smaller body |
| `NodeRuns.Aggregate` | src/engine.rs:452-487 | the loop over the connections fails exactly when an input index is out of range, and otherwise collects the arrived items in connection order, in one list and by input |
| `NodeRuns.CallsMeaning` | src/engine.rs:609-693 | calling the node batch by batch (`CallBatches`) fails the run exactly when some call has unresolved parameters or fails with neither an error route nor continue-on-fail; otherwise each port carries, batch after batch, what the calls put on it, with a failed call's error item on the error route or on port 0 |
| `NodeRuns.RunAlike` | src/engine.rs:442-716 | a node's run depends on the shared state only through the items on the links into it |
| `NodeRuns.OutcomeLocal` | src/engine.rs:404-716 | reuse included, a node's outcome depends only on the entries of the nodes that feed it |
| `NodeTurns.GatherIsReceived` | src/engine.rs:452-475 | what a node gathers is, link by link in connection order, what each link into it that does not lead back carries: its source's items on the link's port, or its error items |
| `NodeTurns.GroupsByInput` | src/engine.rs:476-486 | its groups are the same input by input, up to the highest input that a link enters |
| `NodeTurns.ExecuteGives` | src/engine.rs:569-715 | a node is called once on all items, or once for each if its type runs per item and there are more; the run fails exactly when some call has unresolved parameters or fails with neither an error link nor continue-on-fail; else each port holds the calls' results one after another, a failed call standing there as an error item on port 0 or among the error items, and there are as many ports as the call with most fills |
| `NodeTurns.TurnFits` | src/engine.rs:404-716 | what every turn leaves, at the top level and in every pass, by what its links carried: a node that may keep its record keeps it; an input past the sixteenth stops the run; a disabled node sends what arrived on one port; an enabled start with a trigger sends the trigger's items; an unknown type stops the run; a node linked to that gets nothing sends nothing on any port; a loop sends what arrived through its body in batches and ends with what came back; any other node is called |
| `RunGraph.StepKeeps` | src/engine.rs:266-317 | every step (start, run, report, finish, break out) of every interleaving keeps the invariant that each finished node stored what it stores when run in order and each running one read what it reads then |
| `RunGraph.EveryInterleavingAgrees` | src/engine.rs:266-317 | confluence: without loops, a run that is over succeeded exactly when running the nodes one by one does, and then left exactly the same `produced`, `error_produced` and `reused` |
| `RunGraph.NoStall` | src/engine.rs:305-312 | the loop breaks out only when every node has finished |
| `RunGraph.CanStep` | src/engine.rs:296-315 | a run that is not over can take a step |
| `RunGraph.RunsEnd` | src/engine.rs:296-315 | a run takes at most four steps a node and one more; one that cannot go on is over |
| `RunGraph.InOrderIsReference` | src/engine.rs:266-317 | running in order succeeds exactly when no node would fail on what its upstream stores, and ends in that state |
| `RunGraph.OneTurn` | src/engine.rs:294-315 | a whole turn of any node whose upstream has finished does what its turn in order does |
| `RunRecords.NodesHold` | src/engine.rs:266-317 | in every interleaving of single steps that goes well each node holds what it sends on the final outputs of what feeds it, and is marked as reused exactly when it may be |
| `RunRecords.FinishedAreRecorded` | src/execution_runner.rs:94-145 | in every run, broken ones too, each node that finished has a record |
| `RunRecords.RecordTells` | src/execution_runner.rs:94-145 | a run that goes well leaves for each node a record of the output and error items it ends with, its fingerprint, and its status: skipped exactly when disabled or left without items, errored exactly when one of its calls failed, else success |
| `CanonicalJson.ValueDelimited` | src/engine.rs:851-878 | printed values can be read back from the front: what follows the value is determined |
| `CanonicalJson.CanonicalIff` | src/engine.rs:851-878 | two JSON values print the same exactly when they are equal up to object key order, at any nesting |
| `CanonicalJson.ObjectPrint` | src/engine.rs:851-878 | an object is printed entry by entry, each once, by keys ascending in lexicographic order |
| `Fingerprints.ComputePrints` | src/engine.rs:811-848 | the loop over the order computes the recursive fingerprints |
| `Fingerprints.SettingsInjective` | src/engine.rs:835-844 | settings that print the same are the same |
| `Fingerprints.TextTellsNode` | src/engine.rs:833-845 | the hashed text gives back type, parameters, settings, disabled flag and the list of incoming links |
| `FingerprintMeaning.SamePrintIffSameShape` | src/engine.rs:808-848 | the exact meaning of a fingerprint, across any two workflows: equal exactly when the nodes unfold to the same shape (own fields up to key order, and the same bag of incoming links from nodes of equal shape) |
| `FingerprintMeaning.SortedIffSameBag` | src/engine.rs:832 | sorted link texts are equal exactly when they are the same bag |
| `FingerprintMeaning.JoinInjective` | src/engine.rs:843 | the joined list of link texts gives back the list |
| `WorkflowPrints.FingerprintWorkflow` | src/engine.rs:811-848 | `fingerprints` of a whole workflow: no fingerprints exactly when it is not ordered, otherwise those along an order of it (`PrintsOf`) |
| `WorkflowPrints.OnePrints` | src/engine.rs:811-848 | a workflow has one set of fingerprints: every order gives the same |
| `WorkflowPrints.EqualPrintsIffSameShape` | src/engine.rs:808-848 | so for any two workflows that are ordered, as `fingerprints` is called: two nodes have equal fingerprints exactly when they have the same shape |
| `SwappedFeeders.SwappedFeedersSamePrint` | src/engine.rs:808-811 | the comment that equal fingerprints mean everything upstream is unchanged does not hold: in a workflow that is ordered and fingerprinted, swapping what two feeders of one input do changes both their fingerprints and keeps that of the node they feed |
| `Reuse.RunUnchanged` | src/engine.rs:404-440 | a node with unchanged fields and alike upstream gives the same outcome |
| `Reuse.NodeSettled` | src/execution_runner.rs:400-412 | every node of a reusing run sends what a full run sends, and a reused one as much as it sent in the run before |
| `Reuse.RecordsStayValid` | src/execution_runner.rs:94-145 | records made by a reusing run are again valid for the next edit, over any history of edits to node fields and of runs |
| `Reuse.IncrementalEqualsFull` | src/execution_runner.rs:400-412 | incremental equals full: after any history, in any interleaving, a run with reuse ends as a full run of its version does, with the same items on every port and error output, or fails when that fails |
| `ReuseExact.ReusesTheUntouched` | src/execution_runner.rs:400-412 | what is reused, without fingerprints: over any history of edits and runs, a run that goes well reuses the largest set of nodes that have the same fields as in the run before, succeeded in it, and are fed from the set only; so an edit makes exactly the nodes downstream of it, and of failed or skipped ones, run again |
| `LoopBatches.BatchSize` | src/engine.rs:322-327 | the `batch_size` parameter whenever it is a positive whole number below 2^64, and 1 otherwise |
| `LoopBatches.CollectReturns` | src/engine.rs:371-385 | "done" grows by what each return link brought back, in link order |
| `LoopBatches.AddAllAdds` | src/engine.rs:361-370 | adding one pass to the totals (`AddToTotals`): each owned node's total grows port by port by what it sent; nothing else changes |
| `LoopBatches.MergeTotals` | src/engine.rs:361-370 | totals that are the in-order concatenation of the earlier passes stay so after one more |
| `RunLists.TopIsListed` | src/engine.rs:200-206 | the nodes outside all bodies form a list whose loops have bodies apart from it |
| `RunLists.BodyIsListed` | src/engine.rs:328-333 | the nodes a loop owns form a list inside its body whose own loops have strictly smaller bodies |
| `RunLogs.TurnKeeps` | src/engine.rs:321-399 | whatever runs inside it, a turn writes no entries but its node's own and, for a loop, its body's |
| `RunLogs.FeederSeen` | src/engine.rs:296-315 | in every run of every list, a node has its turn after that of each listed feeder and finds exactly what that turn left |
| `RunLogs.RunOutputs` | src/engine.rs:296-315 | in a finished run of any list each node had exactly one turn, and what that turn left stands at the end |
| `RunLogs.PassOutputs` | src/engine.rs:351-359 | the same for each pass over a loop's body, at any nesting: what a body node sent in the pass is what its one turn in it left |
| `RunLogs.BatchSeen` | src/engine.rs:351-358 | in every turn of a pass, inner loops included, the loop offers exactly the pass's batch on output 1 |
| `RunLogs.LoopConserves` | src/engine.rs:321-399 | conservation: a loop's successful turn sends its input through the body in non-empty batches of at most the batch size, all but the last full, each in a complete run of the body from the state the pass before left; "done" is the in-order concatenation of what the return links brought back; each owned node's output on each port is the in-order concatenation of what it sent in the passes |
| `RunLogs.PlainRun` | src/engine.rs:266-317 | without loops, a run whose turns happened in any order the links allow ends as running the nodes one by one, in success and in state |
| `WorkflowRun.NoStall` | src/engine.rs:296-315 | for the top-level list and for every body: when nothing runs and nothing can start, every node has finished |
| `WorkflowRun.Run.RunGraph` | src/engine.rs:266-317 | what happened is a run of the list (`RunLogs.GraphRan`) from the state before to the state after: turn after turn, each on the state the one before left, no node twice, each after all its listed feeders; on success every node had its turn, otherwise the last turn failed |
| `WorkflowRun.Run.RunNode` | src/engine.rs:442-716 | what happened is a turn of the node in the log (`RunLogs.TurnRan`), on the state before, leaving the state after; `NodeTurns.TurnFits` says what that turn leaves, case by case |
| `WorkflowRun.Run.RunLoop` | src/engine.rs:321-399 | what happened is a loop's turn (`RunLogs.LoopRan`): passes chained from state to state, each a run of the owned nodes with the loop offering the batch, then totals and "done" in the state; or a break-off in a pass; the recursion through nested loops ends |
| `WorkflowRun.Run.RunBody` | src/engine.rs:351-359 | one pass: from the state with the owned nodes' entries cleared and the batch on the loop's output 1, a run of the body |
| `RunsAgree.KthBatch` | src/engine.rs:344-350 | the k-th batch is exactly the items of the input behind the earlier batches, as many as the batch size allows |
| `LoopTrees.TreesApart` | src/engine.rs:752-778 | a loop and all it owns, at any depth, form a tree; the trees of two nodes with one owner share no node |
| `RunsAgree.TurnStaysWithin` | src/engine.rs:321-399 | a turn writes entries of nodes of its own tree only |
| `RunsAgree.SettledRunsAgree` | src/engine.rs:261-317 | confluence with loops, nested ones included: if of two nodes of one list, one of which feeds into the other's tree, one always comes first (`LoopTrees.Settled`), any two runs of the workflow both fail or end in the same state, whichever ready node has its turn next, in the top-level list and in every pass |
| `RunsAgree.ListSettles` | src/engine.rs:261-317 | in every run of the top level and in every pass over a body, settled or not, each node that had its turn, loops included, did in it what it does on what everything feeding it has sent at the end, and its outputs are those of that turn |
| `RunEnds.NodesHold` | src/engine.rs:442-716 | so when a run goes well every node of the list holds, in terms of what its links carry at the end: its record if it is reused; if disabled, exactly those items on one port; as an enabled seeded start, the trigger's items on one port; linked to without an item, no port; else what its calls on those items give, none of them failing the run |
| `RunEnds.PassHolds` | src/engine.rs:351-359 | the same at the end of every pass for every body node: nothing is left over from the pass before |
| `RunEnds.LoopsHold` | src/engine.rs:319-399 | a loop of the list that ran sent in batches exactly what its links carry at the end, and holds the in-order concatenation, pass by pass and return link by return link, of what came back |
| `RunEnds.StartHolds` | src/engine.rs:514-545 | an enabled start with a trigger that is not reused ends with exactly the trigger's items on port 0 |
| `WorkflowRun.SettledExecutionsAgree` | src/engine.rs:169-224 | so the result of an execution of such a workflow does not depend on the order of turns |
| `Schedules.RunExists` | src/engine.rs:294-315 | whatever set of nodes is put off, there is a run, from any state, that puts them off in its list and in every pass inside, as far as the links allow |
| `LoopFirst.RunGoes` | src/engine.rs:261-317 | where a node and a loop beside it race, with the node sending a marker on which the node it feeds in the loop fails: every run in which the loop comes first goes well |
| `FeederFirst.FeederFirstFails` | src/engine.rs:261-317 | and every run in which the feeder comes first fails |
| `Races.RaceMatters` | src/engine.rs:274-292 | in every layout with such a race (`RaceStage.Contest`) there are node types with which the execution fails or succeeds, depending on which of the two has its turn first: nodes in a loop do not wait for a feeder outside it |
| `Races.SettledIffIrrelevant` | src/engine.rs:261-317 | the condition is exact wherever races show: whatever the nodes do, all executions have one result, exactly when the workflow is settled |
| `TimingMatters.SideNodeRaces` | src/engine.rs:274-292 | a workflow of four nodes: a start that feeds a loop and a node beside it, which feeds the loop's body; it is planned, not settled, and has an execution that fails and one that does not |
| `LoopSteps.SaneStep` | src/engine.rs:266-399 | single steps with loops (start, read, store errors, store output, begin and end of a pass, end of a loop): every step keeps that a node runs only while its list does and after its feeders there have finished |
| `LoopSteps.QuietIsThrough` | src/engine.rs:305-312 | a list, of the top level or of a body in a pass, breaks out only when all its nodes have finished |
| `LoopSteps.RunsGoOn` | src/engine.rs:266-399 | no run gets stuck: one that is not over can take a step |
| `StepsEnd.RunsEnd` | src/engine.rs:266-399 | every interleaving of single steps ends, loops and nested loops included |
| `StepsAgree.StepKeeps` | src/engine.rs:266-399 | in a settled workflow every step of every interleaving follows one run of whole turns: in every list and pass that is being run each node reads what it reads there and has left what its turn leaves, each loop is at the same pass with the same batch, totals and "done" |
| `StepsAgree.SettledStepsAgree` | src/engine.rs:261-399 | confluence of single steps with loops: however siblings and other loops run between the passes of a loop, a run of a settled workflow that is over succeeded exactly when its runs of whole turns do, and then left the same state |
| `StepsAgree.SettledStepsGiveTheResult` | src/engine.rs:169-224 | so its result is that of its executions by whole turns |
| `TurnsAsSteps.TurnsAreSteps` | src/engine.rs:261-399 | in every workflow, settled or not, each run of whole turns is one that the steps can take |
| `TurnsAsSteps.SettledIffInterleavingIrrelevant` | src/engine.rs:261-399 | so the condition is as exact for single steps: whatever the nodes do, all interleavings of a workflow have one result, exactly when it is settled, wherever races show |
| `WorkflowRun.ExecuteWorkflow` | src/engine.rs:169-224 | ends for every workflow: an error exactly when there is no order; otherwise what happened is a run of the top-level nodes from the empty state, and the result a failure or exactly one entry for each node of the workflow: its first port at the end or nothing if it has no port; so the trigger's items for an enabled seeded start that is not reused, and for a top-level loop that ran the in-order concatenation of what its return links brought back; without loops the result is the one of running the nodes one by one |
| `StackMachine.TargetIndexConnected` | src/n8n/workflow.rs:165-209 | a link always enters one of its target's connected inputs, so a join set always has the slot |
| `StackWaiting.ConnectedExactly` | src/n8n/workflow.rs:207-209 | a node has inputs exactly up to the highest that a link enters |
| `StackWaiting.CountIffNoGap` | src/n8n/workflow.rs:206-209 | that is the number of distinct inputs with a link, as the comment says, exactly when no input below the highest is without one |
| `StackWaiting.GapCounted` | src/n8n/workflow.rs:206-209 | a workflow in which it is not: a node with one link, into its second input, counts two inputs |
| `StackMachine.Engine.Place` | src/n8n/engine.rs:612-627 | a delivery fills the first pending set of its node that lacks the input, or a new one, and a full set leaves the list |
| `StackMachine.Engine.ScheduleChildren` | src/n8n/engine.rs:589-642 | stack and waiting list become what the scheduling specification gives, for both orders; `StackDeliveries` and `StackWaiting` say what that is |
| `StackMachine.Engine.Execute` | src/n8n/engine.rs:262-397 | the loop ends and is the step function iterated: stack first, then the oldest waiting set, until nothing is left, the workflow ends or the run limit is reached; a node that ends the workflow leaves its sub-nodes' tasks and, failing for good or asked for as the last one, its own in the run data |
| `StackDeliveries.DeliversExactly` | src/n8n/engine.rs:598-627 | complete and sound: with a run of a node each delivery comes to stand in the stack or a waiting set exactly as often as links lead from that output to that input, if the output is not empty and the target is a node; nothing else is delivered |
| `StackDeliveries.RecordsExactly` | src/n8n/engine.rs:330-388 | a turn leaves in the run data, behind all that was there, the tasks of the node's sub-nodes and then its own |
| `StackDeliveries.EveryDeliveryRuns` | src/n8n/engine.rs:262-397 | in an execution that nothing cuts short each of these deliveries went into runs as often as links make it |
| `StackDeliveries.SentInOrder` | src/n8n/engine.rs:598-610 | a run makes its deliveries output by output and link by link |
| `StackWaiting.AddedInOrder` | src/n8n/engine.rs:598-642 | what they make ready, join sets included, goes behind the stack in v0, in the order of the deliveries that made it ready, and in v1 on top, top to bottom and left to right, at one place in that order |
| `StackWaiting.WaitingByAge` | src/n8n/engine.rs:611-627 | the join sets always wait in the order in which they got their first delivery |
| `StackWaiting.OldestFirst` | src/n8n/engine.rs:273-277 | with nothing on the stack the oldest waiting set runs, full or not |
| `StackWaiting.StopsAtLimit` | src/n8n/engine.rs:278-283 | an execution runs nodes at most 100,000 times, and unless a node ends it, it is not stopped before that |
| `StackExecution.LoopIsRun` | src/n8n/engine.rs:262-397 | every execution is one of the runs the lineage, join and conservation results are about, ending where `Execute` does |
| `StackExecution.ExecutionTraced` | src/n8n/engine.rs:580-587 | at the end of an execution every node that ran, but the start, had exactly the items that its recorded sources name in the final run data |
| `StackExecution.ExecutionConserves` | src/n8n/engine.rs:589-642 | an execution that nothing cut short used up everything: each delivery went into exactly as many runs as it was sent |
| `StackExecution.RunFlow` | src/n8n/engine.rs:262-397 | both, concluded about the engine object after `Execute` |
| `StackLineage.EveryEntryTraced` | src/n8n/engine.rs:580-642 | in every execution each scheduled entry has source and input filled together, and following the source gives exactly the items |
| `StackLineage.StaysTraced` | src/n8n/engine.rs:580-587 | and still does after any later runs |
| `StackLineage.RunDataGrows` | src/n8n/engine.rs:426-431 | run data is append-only |
| `StackJoins.PendingSetsFillInOrder` | src/n8n/engine.rs:611-627 | among a node's pending sets the filled slots of each input are always a prefix |
| `StackJoins.KthSetHoldsKthDeliveries` | src/n8n/engine.rs:611-627 | while no set of the node was started incomplete, its k-th completed set holds the k-th delivery of every input, with its source |
| `StackConservation.DeliveriesConserved` | src/n8n/engine.rs:589-642 | every delivery is at all times held exactly as often as it was sent, counted over stack entries, waiting slots and started runs |
| `StackOrder.V1IsPreorder` | src/n8n/engine.rs:630-641 | when no node has more than one connected input, the v1 loop runs exactly the recursive depth-first preorder, cycles included up to the run limit |
| `StackOrder.ChildrenSortedStably` | src/n8n/engine.rs:631-635 | children run strictly top to bottom, then left to right, and those at one place in the order they were sent |
| `StackOrder.V0IsLevelByLevel` | src/n8n/engine.rs:640-642 | the v0 loop runs level by level |
| `StackOrder.V0NearestFirst` | src/n8n/engine.rs:640-642 | so nearer nodes run first: the distance from the start, counted along the recorded sources, never falls from one turn to a later one |
| `LeaseQueue.StepKeeps` | src/n8n/queue.rs:92-163 | every atomic Redis step, crash or tick keeps the queue invariant; the order of the queue is in `QueueOrder`, leases and places in `LeaseHistory` |
| `LeaseQueue.NoJobLost` | src/n8n/queue.rs:92-163 | in every interleaving with crashes between any two commands, a pushed job whose ack was not applied has its data and is in `wait` or `active` |
| `LeaseQueue.NotHandedOutAfterAck` | src/n8n/queue.rs:104-124 | no read hands a job out after its ack was applied |
| `QueueOrder.FirstInFirstOut` | src/n8n/queue.rs:92-124 | of two jobs the one pushed first is taken first, unless the other is put back |
| `QueueOrder.PutBackFirst` | src/n8n/queue.rs:144-163 | a job that is put back is taken before all that wait then, unless they are put back later |
| `LeaseHistory.LeasesAsGranted` | src/n8n/queue.rs:104-163 | a job has a lease, and until when, exactly as the history of takes, heartbeats, marks, removals and acks says |
| `LeaseHistory.ListedExactly` | src/n8n/queue.rs:152 | a sweep lists exactly the jobs whose lease, by that history, is over |
| `LeaseHistory.RequeuesExactly` | src/n8n/queue.rs:153-160 | a client goes on to requeue a job exactly when its own removal ended the lease |
| `LeaseHistory.WaitingStep` | src/n8n/queue.rs:92-163 | an id comes to wait once with its push and with each put-back, and stops with each take |
| `LeaseHistory.InHandStep` | src/n8n/queue.rs:104-163 | it comes in hand once with each take, and one place of it goes with each ack and put-back that finds one |
| `LeaseHistory.SweepMarksAll` | src/n8n/queue.rs:148-152 | before a sweep asks for expired leases it has offered one to every job that was in hand when it began |
| `LeaseHistory.SweepTriesAll` | src/n8n/queue.rs:152-160 | before it ends it has tried to remove the lease of every job it listed |
| `LeaseQueue.RedisQueue.MarkActive` | src/n8n/queue.rs:148-151 | every active job gets a lease unless it has one |
| `LeaseQueue.RedisQueue.CollectExpired` | src/n8n/queue.rs:152 | exactly the ids whose lease has run out, each once |
| `LeaseQueue.RedisQueue.RequeueExpired` | src/n8n/queue.rs:144-163 | every active job whose lease had run out is back in `wait`, every other has a lease |
| `LeaseQueue.RecoverInTwoSweeps` | src/n8n/queue.rs:144-163 | from any reachable state two complete sweeps a lease apart leave every unacked job in `wait`, unleased ones included |
| `QueueDuplicates.SingleIff` | src/n8n/queue.rs:155-160 | in every run, no id is ever held twice in `wait` and `active` together exactly when no client puts back a job that is not active and waits already (the LREM that removes nothing) |
| `QueueDuplicates.SafeLeasesKeepSingle` | src/n8n/queue.rs:148-160 | that never happens when new leases only go to jobs that neither wait nor are being requeued |
| `QueueDuplicates.UnsafeLeaseDoubles` | src/n8n/queue.rs:148-160 | and that condition is exact: after any other new lease some continuation of the run holds a job twice |
| `QueueDuplicates.OverlappingSweepsDouble` | src/n8n/queue.rs:144-163 | a run of the first kind: a second sweep leases a job between the two commands with which the first requeues it |
| `QueueDuplicates.LateLeaseDoubles` | src/n8n/queue.rs:104-118 | a run of the second kind, with no overlapping sweeps: a worker leases the job it took after a sweep has put it back |
| `LeaderElection.Election.Check` | src/n8n/election.rs:152-195 | gate and last renewal after a check, for each reply, as `LeaderElection.AfterCheck` says; what that does to the lead over whole runs is in `LeaderStays` |
| `LeaderStays.AnswerDecides` | src/n8n/election.rs:152-195 | in every run an answered grant leaves the caller leading, since the answer, and an answered refusal leaves it following |
| `LeaderStays.LeadsOnlyByGrant` | src/n8n/election.rs:116-195 | nothing but an answered grant makes a leader |
| `LeaderStays.StopsExactlyBy` | src/n8n/election.rs:152-195 | a leader stops leading exactly by a crash, by the answer to a call that Redis refused, or by a check that fails once its last answered grant is a lease old |
| `LeaderStays.AloneLeadsOn` | src/n8n/election.rs:105-195 | a main that is alone and whose calls are all answered leads from its first answer on, if two intervals, a reply's delay and a check's lateness fit in the TTL |
| `LeaderStays.LeadsOnIffRenewsInTime` | src/n8n/election.rs:105-195 | and that condition is exact: otherwise some such run has the first renewal come too late |
| `LeaderElection.LeadersAreFresh` | src/n8n/election.rs:105-195 | whatever fails, a main leads less than lease + 2 intervals + the lateness of checks after the last renewal it was told of |
| `LeaderElection.AtMostOneLeader` | src/n8n/election.rs:105-195 | at most one main leads at any time, with any number of mains, crashes and lost replies, when the TTL is long enough (`LongEnough`) |
| `LeaderElection.ExclusiveIffLongEnough` | src/n8n/election.rs:60-78 | that condition is exact for checks on the interval's ticks: either reply delay + lease + 2 intervals + lateness fit in the TTL, or the whole intervals that the latest answer and its lease can span, and two more, with the lateness, do; otherwise some run, every check of which begins on its tick or at most that late, has two leaders |
| `LeaderElection.RedisNeedsAFifth` | src/n8n/election.rs:308-313 | with the Redis backend's lease of four fifths, reply delay + 2 intervals + lateness within a fifth of the TTL are enough; 10 s and 3 s are not long enough, whatever the delays |
| `ChatHandOff.StepKeeps` | src/telegram_poller.rs:150-220 | every step of dispatcher, workers and clock keeps the hand-off invariant |
| `ChatHandOff.EachJobInOneSpot` | src/telegram_poller.rs:150-220 | in every interleaving a dispatched job is on its way to a fresh worker, in one live worker's queue, being run, or has run: exactly one of these and exactly once, unless its first send was refused |
| `ChatHandOff.LeftWithNothing` | src/telegram_poller.rs:172-189 | a worker that has left has a closed, empty channel and ran all it was sent |
| `ChatHandOff.TakenInDispatchOrder` | src/telegram_poller.rs:182-189 | a worker takes its jobs in dispatch order, first in first out |
| `ChatHandOff.NothingLostIff` | src/telegram_poller.rs:150-164 | no interleaving loses a job exactly when the idle time exceeds the gap between starting a worker and its first send |
| `ChatHandOff.OneAtATimeInArrivalOrder` | src/telegram_poller.rs:129-131 | unless a worker closes its channel on a job that came in after its timer fired, a chat's jobs run one at a time in arrival order |
| `ChatHandOff.OverlapIffClosedOnAJob` | src/telegram_poller.rs:129-131 | the exact condition: closing on a non-empty channel is what lets two workers of one chat run at once |
| `ChatHandOff.ChatQueues.Dispatch` | src/telegram_poller.rs:150-164 | undisturbed, the job ends last in the queue of the chat's open worker, the old one if open; nothing else changes |
| `ChatHandOff.ChatQueues.NextJob` | src/telegram_poller.rs:172-180 | the first queued job, or a closed channel and no job |
| `ChatHandOff.ChatQueues.ChatWorker` | src/telegram_poller.rs:182-213 | a worker nobody sends to runs all it holds, in order, and leaves |
| `ChatTimes.QuietBeforeTimeOut` | src/telegram_poller.rs:172-180 | a worker times out only with an empty channel and when it has neither started nor finished a job for the idle time |
| `ChatTimes.StopDrains` | src/telegram_poller.rs:182-213 | however far the workers are when the poller stops, they can all leave from there without waiting, and have then run every job they were sent |
| `Templates.SplitTemplate` | src/n8n/expr.rs:18-80 | the segments join to the template and are canonical; an error exactly when no canonical list joins to the template |
| `Templates.ReadBlock` | src/n8n/expr.rs:31-72 | a block ends at the first closing braces outside string literals and inner braces; no result exactly when there are none |
| `Templates.OneSplit` | src/n8n/expr.rs:18-80 | no two canonical lists join to the same template |
| `Templates.QuotesHideBraces` | src/n8n/expr.rs:31-72 | a string literal in any of the three quotes can be a block's code, whatever braces stand in it |
| `Templates.SplitJoin` | src/n8n/expr.rs:18-80 | splitting the join of a canonical list gives the list back |
| `Flatted.UnflattenIff` | src/n8n/migrate.rs:146-174 | any flatted encoding of a value, entries shared or not, decodes to the value exactly when at most 10,001 containers lie one inside the other; a string that names no entry and an empty array stand for null, and what is no array for itself |
| `Flatted.FlattenUnflatten` | src/n8n/migrate.rs:146-174 | the round trip through an encoder, with the same exact condition |

## Left out

- `RunGraph.StepKeeps`: nodes start one by one, not in waves; this allows every interleaving the waves allow and more, so what holds of all of them holds of the source's.
- `Reuse.IncrementalEqualsFull`: workflows without loops (a loop and the nodes in it always run), the list of connections fixed, edits to node fields only; a failing node's own record is not kept, since only successes are reused; the hash is taken as collision-free and a node's work as blind to object key order.
- `ReuseExact.ReusesTheUntouched`: as there, without loops, and for runs that go well.
- `WorkflowRun.Run.RunGraph`: here a started node runs from start to end in one turn, a loop with its whole body. The finer interleaving is that of `LoopSteps`, to which `TurnsAsSteps.TurnsAreSteps` and `StepsAgree.SettledStepsAgree` tie it.
- `LoopSteps.SaneStep`: nodes start one by one, not in waves, which allows more interleavings; once a node has failed the run is over, what others still write then is not modelled.
- `Races.SettledIffIrrelevant`: it asks, as `TurnsAsSteps.SettledIffInterleavingIrrelevant` does, that where there is a race one of them shows: the feeder and the node it feeds are no loops, the output between them feeds no loop, input indexes are below 16, and items get to the feeder and to every loop around the node it feeds. Races from inside another loop's tree, or between nodes that never get items, are not covered; whether they show depends on the loops' own outputs. The other direction (`RunsAgree.SettledRunsAgree`, `StepsAgree.SettledStepsAgree`) has no such condition.
- `NodeRuns.CallBatches`: laying results over input fields (`with_input_fields`), retries and timeouts are part of a call's one result.
- `NodeRuns.TakeTurn`: the `upstream` map and the resolution of parameter expressions are inside the uninterpreted node work, which sees only parameters, settings and received items; an expression that reads a node elsewhere in the workflow is not modelled.
- `StackExecution.RunFlow`: from an empty run data, as a full run begins; `StackExecution.ExecutionTraced` and the others start from any.
- `StackMachine.Engine.Execute`: a node's work is one uninterpreted result, with the sub-runs it reports; retries, pin data, waiting and partial runs are inside it or left out.
- `StackConservation.DeliveriesConserved`: within the run limit; the run that would exceed it is dropped, as the source does.
- `LeaderElection.AtMostOneLeader`: graceful shutdown is not modelled (the gate stays true after the release), and a main that restarts counts as a new one. A request may take up to the call's timeout to reach Redis; the delay bounds the way back.
- `LeaseQueue.NoJobLost`: job ids are fresh and Redis keeps its data; the PostgreSQL queue is not part of this model.
- `ChatHandOff.NothingLostIff`: the poll loop that feeds the dispatcher and what a run of a job does are not modelled; a job whose execution fails to start counts as run.
- `Templates.SplitTemplate`: evaluating the blocks and turning values into text are left out.
- `Flatted.UnflattenIff`: an index too large for the machine is treated like any index past the end, which has the same result.
- Cancellation of a running workflow.
- Observers, events, counts, the input kept in a record and the merging of loop records: they report a run and do not steer it.
- Node positions are real numbers, so a position that is not a number is not modelled.
- HTTP handlers, storage, credentials, JavaScript evaluation, cryptography: input and output or foreign code.
