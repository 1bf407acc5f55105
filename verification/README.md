# Propagation engine, compiled regions, wire codec and gossip: a verified model

pgress keeps a graph of three-valued nodes (Neg, Zero, Pos) up to date under a small instruction set.
This project models four parts of it and proves what they keep.

- **The incremental engine.** A FIFO work queue is drained by push and demand steps; a causal clock
  lets each (source, subscriber) pair carry at most one push per causal time; dense slots, bit planes,
  dense index lists and dependency counters duplicate the plain graph. `Ternary`, `Rules`,
  `ValueStore`, `Deps`, `Propagate`, `Drain` and `EngineState` hold the values and the steps as
  functions; `DepRegistry`, `PropEngine`, `RegionCaches` and `Engine` hold the classes that carry them
  out in place, each method tied to its function.
- **The compiled tier.** `TopoSort`, `RegionCompile` and `RegionIndex` turn a member set into a
  compressed-row circuit with an inverted index; `Region` and `RegionRun` evaluate it on the rows that
  dirty bits reach, through word operations on the planes where the columns are contiguous.
- **The wire.** `WireFormat` is the payload format of the eighteen instructions as a printer and a
  parser, `Codec` the byte buffer and the cursor, `Framing` the preamble, the record header and the
  stream decoder.
- **Stabilisation and gossip.** `Equations` and `EGraph` are the rewrite rules and the e-graph with its
  constant analysis, `Section`, `SectionExpr` and `PortCompliance` the section that is stabilised;
  `Gossip`, `GossipConvergence` and `SimCluster` the simulated cluster.

## Reading guide

The source's mutable structures are classes, arrays and loops here; each method's postcondition equates
the new state with a function of the old one, and the theorems are about those functions. Random numbers,
authority verdicts, the answers of the saturation runner and hash iteration order are parameters or
arbitrary choices, so every theorem holds for all of them.

Main results, by file:

- `RegionRun`: an incremental run leaves the store equal to a full topological evaluation, over any
  sequence of boundary writes; `EngineRegions` proves the same through `apply`, where other artifacts run
  and a warm drain follows. `RegionCompile`: the compiler answers exactly on duplicate-free, acyclic,
  mapped member sets, and its circuit is the members' equations.
- `EngineInvariant`, `EngineWiring`: an instruction keeps the caches in agreement with the graph if and
  only if it is legal, so over every run of legal instructions they agree; on plain runs the dense lists
  and counters are exact as well. `Engine.Apply` is the same step in place.
- `Drain`: a drain without demands ends on every graph, cyclic ones included; with demands on every
  acyclic one. `CounterPath`: the counter shortcut is the scan exactly when the aggregate of the counters
  answers the propagation state, which exact counters always do.
- `Convergence`, `PullEval`, `LocalConsistency`, and through `apply` in `EngineRuns`: Pos writes end in the
  least fixpoint whatever their order; a demand evaluates a lazy graph; a write over unique paths leaves
  every equation satisfied. `HandledPush`: when skipping a handled push is exactly harmless.
- `Reports`, `GraphEffects`, `EngineEffects`: replaying a reply's reports over the values and versions before
  a call gives exactly those after it, and every instruction's effect on nodes, edges, dependencies and modes;
  a remote edge and its ends cannot be deleted locally. `PushGate`: what the delta gate lets through, by
  dimensions, and that a masked subscriber keeps its value; `Masks`: without labels every pair observes all.
  `CausalClock`: which dimension each instruction ticks in. `Statistics`: what the counters count.
- `Eviction`, `EngineLists`: an edit evicts exactly the tracked artifacts it touches, and exactly when an
  instruction leaves the columns of tracked artifacts equal to their members' dependencies, over whole runs.
- `StabilisationRounds`, `Handover`: which requests a drain hands to stabilisation, what the next drain starts
  from when one is accepted, and whose pushes a region run or a resolution queues.
- `EngineLimits`, `UnevenPaths`: runs from the empty engine where a hypothesis is missing and the
  conclusion fails: drifted counters, a member created again, a source deleted under a tracked artifact,
  two paths of different length.
- `CodecRoundTrip`: printing and parsing is the identity up to an explicit normal form, exactly when
  the lengths fit; `CodecIdentity`: on in-range operations without NaN it is the identity. `WireLayout`: the
  documented layout, byte by byte. `Framing`: streams split and decode; accepted records are ordered.
- `EGraph`: no saturation run merges two constants; `GroundFolding`: every term without symbols is folded.
  `SectionExpr`: a member's term has the value of its recursive evaluation, and `StabilisedValues` that an
  accepted stabilisation gives Zero members exactly that value.
- `GossipConvergence`: convergence within twice the longest delay; `GossipSilence`: exactly what a tick sends,
  and that nothing passes between shards cut apart or of which one is not alive.

Where the source's documentation and code differ the model follows the code: `compiled_handled` is
documented as safe for every rule (core-rs/src/engine.rs:485-489), but skipping is harmless only under the
condition of `HandledPush.HandledPushIsNoOp`; `parse_payload` is documented as rejecting remote
dependencies (session-rs/src/dispatch.rs:276) but parses them; delays are documented as starting at 0
(session-rs/src/sim/faults.rs:58) but start at 1; a tracked artifact is documented as invalidated when any
member's edges change (spec/abi.md:381), but deleting a node invalidates only the artifacts that cover that node.

## Model

| member | source | states |
|---|---|---|
| `Ternary.Algebra` | core-rs/src/ternary.rs:31-128 | the operation tables are clamped arithmetic on the chain Neg < Zero < Pos; merge is symmetric in its branches and stays between them |
| `Ternary.FoldsCharacterised` | core-rs/src/ternary.rs:174-208 | every fast path of the three folds agrees with least element, greatest element and infectious sum |
| `Ternary.PropagationState` | core-rs/src/ternary.rs:219-252 | the counting scan with early exits classifies as Conflicted iff some Zero, Ready iff all Pos, Pending otherwise |
| `Rules.ZeroEval` | core-rs/src/node.rs:143-157 | exactly when each rule maps a Zero dependency to Zero |
| `Rules.AllPosEval` | core-rs/src/node.rs:143-157 | exactly which rules map all-Pos dependencies to Pos, at which arity |
| `ValueStores.RangeMaskSelects` | core-rs/src/value_store.rs:248-258 | the mask has exactly the bits of the slots in the range |
| `ValueStores.ValueStore.Alloc` | core-rs/src/value_store.rs:60-71 | a new slot reads Neg, planes are widened as needed, cache and planes stay in agreement |
| `ValueStores.ValueStore.SetByDense` | core-rs/src/value_store.rs:88-106 | cache and both planes move together; nothing else changes |
| `ValueStores.ValueStore.Dealloc` | core-rs/src/value_store.rs:158-162 | the slot reads Neg again and keeps its index |
| `ValueStores.ValueStore.MeetAllRange` | core-rs/src/value_store.rs:172-193 | the word loop equals `meet_all` of the slots in the range |
| `ValueStores.ValueStore.JoinAnyRange` | core-rs/src/value_store.rs:201-220 | the word loop equals `join_any` of the slots in the range |
| `Time.ProductLattice` | core-rs/src/time.rs:90-118 | meet and join are the bounds of the product order, which is antisymmetric |
| `Time.AdvancedIsUnion` | core-rs/src/time.rs:210-214 | advancing an antichain gives an antichain whose down-set grows by exactly the down-set of t |
| `Time.Frontier.Advance` | core-rs/src/time.rs:210-214 | the loop keeps a duplicate-free antichain and adds exactly the down-set of t |
| `Time.Frontier.Join` | core-rs/src/time.rs:217-221 | the down-set of the join is the union |
| `Time.Frontier.Meet` | core-rs/src/time.rs:224-234 | the down-set of the nested-loop meet is the intersection |
| `Deps.HistogramIs` | core-rs/src/deps.rs:47-95 | the counters of a list are its multiplicities |
| `Deps.AggregateIsState` | core-rs/src/deps.rs:68-72 | the aggregate read off the counters is the propagation state of the values |
| `Deps.HistogramUpdate` | core-rs/src/deps.rs:91-95 | a counter update is the histogram of the list with that value changed |
| `Deps.HistogramRemove` | core-rs/src/deps.rs:82-88 | a counter removal is the histogram of the list without that value |
| `CounterPath.FastRefinesScan` | core-rs/src/propagate.rs:226-449 | with exact counters the shortcut gives the same value, events, work, statistics and world as the scan |
| `CounterPath.PushIsScan` | core-rs/src/propagate.rs:198-450 | so a push step is the scan whenever counters are exact where the shortcut applies |
| `CounterPath.FastIsScanExactly` | core-rs/src/propagate.rs:226-449 | where its guard lets it run the shortcut is the scan exactly when the aggregate of the counters answers the propagation state; exact counters do |
| `CounterPath.InexactCanAnswer` | core-rs/src/deps.rs:68-72 | counters that are no histogram of the values and answer all the same |
| `EngineLimits.CountersDriftInARun` | core-rs/src/engine.rs:203-213 | a run from the empty engine (two nodes, the same `Subscribe` twice, one write) after which shortcut and scan differ |
| `StepFacts.PushSubsResult` | core-rs/src/propagate.rs:343-381 | the subscriber loop enqueues exactly the accepted subscribers in order and stamps exactly their pairs |
| `StepFacts.StepEffect` | core-rs/src/propagate.rs:198-450 | the whole effect of a push step: the value, the counters, the stamps, the work and the reported change |
| `Statistics.LoopAccounts` | core-rs/src/propagate.rs:50-67 | every subscriber is queued or counted once as held back by its stamp or its mode; only those the authority refuses are neither |
| `Statistics.DrainTallies` | core-rs/src/propagate.rs:50-67 | however a drain ends, it counts as many changes and fired demands as it reports |
| `Coherence.WiredPushIsScan` | core-rs/src/propagate.rs:226-301 | on a graph with exact counters and lists every push is the scan |
| `Coherence.DrainStepKeeps` | core-rs/src/propagate.rs:522-626 | one work item keeps the store, planes, registry and wiring in agreement with the graph |
| `Coherence.DrainKeeps` | core-rs/src/propagate.rs:522-626 | so does a whole drain, idle or cut off |
| `Coherence.DrainClock` | core-rs/src/deps.rs:406-410 | a drain stamps no pair later than its clock |
| `Draining.StampCloses` | core-rs/src/deps.rs:161-176 | stamping closes exactly the stamped pairs' gates at that time |
| `PushGate.PushIsGated` | core-rs/src/deps.rs:161-176 | by dimensions alone: a push queues and stamps only subscribers whose pair observes a dimension in which the clock has passed the stamp, whose mode or demand and authority agree; if it pushes at all, all of them |
| `PushGate.WriteIsGated` | core-rs/src/engine.rs:239-249 | a write of another value queues and stamps exactly those |
| `PushGate.ShutStaysShut` | core-rs/src/deps.rs:161-176 | a subscriber whose mask has no dimension past the stamp is neither queued nor stamped |
| `PushGate.MaskedKeepsValue` | core-rs/src/engine.rs:215-251 | through `apply`: a node whose pairs are all masked from the attribute dimension keeps value, version and pairs over any `SetValue` of another node, unreported |
| `PushGate.MaskedRunKeepsValue` | core-rs/src/engine.rs:215-251 | so over any sequence of such writes |
| `PushGate.LabelMasks` | core-rs/src/engine.rs:401-406 | `SetEdgeLabel` with such a mask brings a node into that state |
| `PushGate.LoopAudits` | core-rs/src/propagate.rs:130-177 | a subscriber loop reports a violation exactly for the pushes it lets through under protest |
| `Masks.CallMasks` | core-rs/src/deps.rs:220-254 | for every instruction: a registered pair observes every dimension and has never been stamped, a labelled one observes what its label says, no other pair is new or observes anything else |
| `Masks.UnlabelledRuns` | core-rs/src/deps.rs:220-254 | over every run without labels every pair observes every dimension, as convergence and consistency ask |
| `Draining.DrainStepPays` | core-rs/src/propagate.rs:522-626 | every step lowers pushes, weighted demands and open pairs taken together |
| `Draining.DrainEndsOnAnyGraph` | core-rs/src/propagate.rs:522-626 | without demands a drain ends idle on every graph, cyclic or not, once the limit is the measure |
| `Draining.DrainEndsOnAcyclicGraph` | core-rs/src/propagate.rs:590-614 | with demands a drain ends idle on every ranked graph, by a rank-weighted measure |
| `Writes.WriteDrains` | core-rs/src/engine.rs:215-251 | twice the registered pairs always suffices after a write |
| `Convergence.WritesConverge` | core-rs/src/propagate.rs:343-381 | any sequence of Pos writes, cycles allowed, ends with exactly the least fixpoint Pos, each node reported at most once |
| `Convergence.OrderDoesNotMatter` | core-rs/src/propagate.rs:343-381 | the order and repetition of the writes do not matter |
| `PullEval.DemandEvaluates` | core-rs/src/propagate.rs:454-476 | a demand on an acyclic graph of Neg nodes over Pos inputs makes it and all its ancestors Pos |
| `LocalConsistency.WriteStaysConsistent` | core-rs/src/propagate.rs:339-449 | over unique paths a write leaves every Eager equation that held satisfied |
| `HandledPush.HandledPushIsNoOp` | core-rs/src/propagate.rs:562-575 | the push of a satisfied region row would leave every value and slot exactly when no dependency is Zero or the rule maps them to Zero, and, on a row with too few dependencies, when the value is the one the scan would write |
| `HandledPush.SkipIsInvisible` | core-rs/src/propagate.rs:562-575 | the skipped push would also report and queue nothing exactly when, besides, no dependency is Zero |
| `HandledPush.SkippedWork` | core-rs/src/propagate.rs:421-449 | with a Zero dependency, what the skipped push would have queued, mode by mode |
| `HandledPush.CompiledPushIsNoOp` | core-rs/src/propagate.rs:562-575 | the first statement for the rows of a compiled region |
| `HandledPush.AlwaysInfectious` | core-rs/src/propagate.rs:562-575 | one-input Identity and MvNeg, and BochvarFold, always meet that condition |
| `HandledPush.CopyOfTwoDiffers` | core-rs/src/propagate.rs:562-575 | in every coherent world an Identity row satisfied over Pos and Zero holds Pos, and the skipped push would make it Zero |
| `Regions.FullEvalSatisfies` | core-rs/src/region.rs:349-446 | a full topological evaluation satisfies every row and moves outputs only |
| `Regions.SolutionUnique` | core-rs/src/region.rs:349-446 | and is the only store that does |
| `Regions.FullEvalOfBoundary` | core-rs/src/region.rs:349-446 | it depends on the boundary slots alone |
| `Bits.DecSubtractsOne` | core-rs/src/region.rs:375 | the borrow that clears the lowest bit is subtraction of one on every nonzero word |
| `RegionRun.BinarySearch` | core-rs/src/region.rs:361-380 | the lookup in the sorted column keys finds the key or proves its absence |
| `RegionRun.BuildPending` | core-rs/src/region.rs:356-382 | the pending bits are exactly the rows with a dirty column |
| `RegionRun.EvalRow` | core-rs/src/region.rs:395-425 | a row's value, by plane words when its columns are contiguous and by gathering otherwise, is its rule's |
| `RegionRun.IncrementalIsFull` | core-rs/src/region.rs:349-446 | if every row is satisfied or has a dirty column, the incremental evaluation is the full one |
| `RegionRun.RunCompiledRegion` | core-rs/src/region.rs:349-446 | the in-place run computes it, returns exactly the changed rows with old and new values, and marks exactly their outputs dirty |
| `RegionRun.ReplayWrites` | core-rs/src/region.rs:349-446 | over any sequence of boundary writes, each followed by a run, the store is the full evaluation of the written boundary |
| `RegionIndex.BuildRegionInv` | core-rs/src/region.rs:278-324 | the inverted index lists a row under a column iff it reads it; a contiguity hint is set iff the columns are contiguous |
| `TopoSort.KahnSort` | core-rs/src/engine.rs:786-816 | the sort succeeds exactly on duplicate-free acyclic members, with a topological permutation; in-degrees never underflow |
| `RegionCompile.CompileRegion` | core-rs/src/engine.rs:777-872 | a region exactly for duplicate-free, acyclic, mapped members; its rows, slots, rules, index and inputs are right |
| `RegionCompile.RowsTopological` | core-rs/src/engine.rs:777-872 | a row reads a member's slot only if that member comes earlier |
| `DepClosure.BfsDepClosure` | core-rs/src/engine.rs:750-770 | exactly the nodes within the depth limit, each once |
| `EngineModel.RunRegionKeeps` | core-rs/src/engine.rs:473-531 | a region run in the drain keeps the store valid and the artifacts runnable |
| `Handover.RunHandsOver` | core-rs/src/engine.rs:509-531 | a region run queues exactly the pushes of the subscribers outside the region that hear of a member whose slot it changed |
| `Handover.OnlyMembersSkipped` | core-rs/src/propagate.rs:562-575 | through `apply`: with clear bits before, the warm drain skips exactly the members of the regions that ran |
| `Eviction.EditsEvict` | core-rs/src/region.rs:214-244 | `EdgeConnect`, `DelEdge` and `DelNode` remove exactly the epoch-tracked artifacts that cover a touched node, with their dirty flags and entries; pinned ones and all that cover no touched node keep region, flag and entries |
| `Eviction.KeepsCurrentExactly` | core-rs/src/engine.rs:132-453 | an instruction leaves every tracked artifact reading exactly the slots of its members' present dependencies if and only if it does not create a node a tracked member reads, subscribe a tracked member to a source it does not read, delete a source of a tracked artifact that does not cover it, or declare as tracked an artifact that is not so |
| `Eviction.RunsStayCurrent` | core-rs/src/region.rs:214-238 | so over every run of such instructions from the empty engine |
| `Eviction.CompiledIsExact` | core-rs/src/engine.rs:777-872 | what the compiler delivers reads exactly its members' dependencies |
| `EngineLists.TidyRunsFollow` | core-rs/src/region.rs:214-238 | over every run with fresh identifiers, one edge per pair and no `Subscribe`, with regions and stabilisation, dense lists stay right and every compiled tracked artifact reads what its members do, as long as no source is deleted under one that does not cover it |
| `EngineLimits.SourceDeletionStales` | core-rs/src/engine.rs:261-290 | a run from the empty engine after which deleting a source leaves a tracked artifact reading its slot |
| `EngineInvariant.ApplyKeeps` | core-rs/src/engine.rs:132-453 | every legal instruction keeps store, planes, registry, edges, clock and artifacts consistent, whether it succeeds or fails |
| `EngineInvariant.KeepsExactlyWhenLegal` | core-rs/src/engine.rs:132-453 | legality is exact: an instruction keeps them if and only if it creates no member of a cached artifact and its compiled region fits the store |
| `EngineInvariant.CreateNodeKeepsExactly` | core-rs/src/engine.rs:138-157 | creating a node, new or again, keeps the invariant if and only if it is a member of no cached artifact |
| `EngineInvariant.RunsKeep` | core-rs/src/engine.rs:132-453 | so in every state of every run of legal instructions from the empty engine |
| `EngineInvariant.RecreatedNodeDiverges` | core-rs/src/engine.rs:138-157 | after a member of a one-row artifact is created again, any run of the artifact that changes its slot to a value other than Neg breaks the mirror |
| `EngineLimits.RecreatedMemberDiverges` | core-rs/src/engine.rs:138-157 | such a state is reached: from the empty engine, create, connect, declare, create again and write, and the graph and the store disagree |
| `EngineInvariant.RemoveNodeOk` | core-rs/src/deps.rs:280-309 | removing a node leaves one relation in deps, subs and metadata |
| `EngineValues.StabiliseKeeps` | core-rs/src/engine.rs:598-665 | applying a stabilisation answer keeps the invariant |
| `EngineValues.RunRegionInv` | core-rs/src/engine.rs:473-531 | running a region and syncing the graph keeps the invariant |
| `EngineWiring.ApplyPlain` | core-rs/src/engine.rs:132-453 | an instruction with fresh ids, at most one edge per pair, no Subscribe, stabilisation or region keeps lists and counters exact |
| `EngineWiring.PlainRunsKeep` | core-rs/src/deps.rs:228-309 | so over every such run the dense lists are the image of the ordered ones and the counters exact histograms |
| `EngineRuns.WriteIsOneDrain` | core-rs/src/engine.rs:215-251 | `SetValue` through `apply` is the write and one drain that ends idle |
| `EngineRuns.SetValueStaysConsistent` | core-rs/src/engine.rs:215-251 | local consistency, stated of `apply` |
| `EngineRuns.SetValuesConverge` | core-rs/src/engine.rs:215-251 | order-independent convergence and single reports, stated of a sequence of `apply` calls |
| `EngineRuns.DemandMakesPos` | core-rs/src/engine.rs:310-314 | pull evaluation, stated of `apply` |
| `EngineRuns.DrainCalm` | core-rs/src/propagate.rs:421-449 | without Stabilizing nodes a drain asks for no stabilisation |
| `StabilisationRounds.RequestsAre` | core-rs/src/engine.rs:551-561 | a drain hands over exactly the requested regions, in order, and keeps exactly the other events |
| `StabilisationRounds.ReplyUnasked` | core-rs/src/engine.rs:539-572 | whatever the instruction, no successful reply contains a request |
| `StabilisationRounds.ConflictAsks` | core-rs/src/propagate.rs:410-417 | the push of a Stabilizing node over a Zero dependency makes it Zero and asks for its dependencies and itself |
| `StabilisationRounds.AskedInDrain` | core-rs/src/propagate.rs:522-626 | that request is among those the drain hands over |
| `StabilisationRounds.ApplyResolves` | core-rs/src/engine.rs:539-634 | through `apply`: when a request is answered by an accepted section built from the state it is served in, the next drain starts from a state in which every Zero member has its recursive value and no other value moved but of Zero nodes |
| `StabilisationRounds.PropagateAsks` | core-rs/src/engine.rs:253-257 | `Propagate` of a conflicted Stabilizing node drains in two steps and hands its region over |
| `StabilisationRounds.PropagateResolves` | core-rs/src/engine.rs:253-257 | so with the first request accepted the call goes on from a state in which the node has its recursive value |
| `StabilisationRounds.BoundaryInfects` | core-rs/src/engine.rs:640-649 | an obstruction at the boundary moves nothing and reports every member as infected |
| `StabilisationRounds.InformationalDemands` | core-rs/src/engine.rs:650-659 | missing information demands exactly the Neg dependencies of members |
| `Handover.ResolutionHandsOver` | core-rs/src/engine.rs:614-633 | an accepted stabilisation queues exactly the pushes of those who hear of a member it resolved |
| `Reports.RepliesTell` | core-rs/src/engine.rs:132-572 | replaying the reported changes over the values and versions before a value instruction gives exactly those after it, through region runs, drains and stabilisation |
| `Reports.RunsReplay` | core-rs/src/engine.rs:132-572 | so over any run of value instructions but `Reflect` |
| `Reports.OthersStand` | core-rs/src/engine.rs:132-453 | every other instruction reports nothing and moves no value; a created node is Neg |
| `GraphEffects.CallFollows` | core-rs/src/engine.rs:132-453 | for every instruction, refused or not, exactly which nodes, edges and dependencies there are afterwards |
| `GraphEffects.InterfacesStand` | core-rs/src/engine.rs:261-308 | over any run a remote edge and its two ends stand until an edge is connected under the same identifier |
| `EngineEffects.ModesFollow` | core-rs/src/engine.rs:172-188 | every node's mode after every instruction: an edge decides only for an Eager target, an effort port making it Lazy and a bond port Stabilizing |
| `EngineEffects.ReflectTurns` | core-rs/src/node.rs:95-101 | `Reflect` of an Input turns its rank r into 2 - r and moves its version by one, Zero included |
| `CausalClock.CallTicks` | core-rs/src/engine.rs:667-677 | every instruction ticks in its one dimension, besides one e-graph tick per resolved section, and the arrival counter counts all ticks |
| `CausalClock.ArrivalsAreTicks` | core-rs/src/engine.rs:667-677 | so over every run the arrival counter is the number of ticks of the clock |
| `EngineRegions.CallServes` | core-rs/src/engine.rs:461-570 | a boundary write through `apply`, with any order of the dirty regions, leaves every row of the region satisfied over the written boundary, whether the call succeeds or meets its step limit |
| `EngineRegions.WritesEvaluateFully` | core-rs/src/engine.rs:461-570 | after any sequence of such calls every slot of the region holds the full topological evaluation of the initial store with the writes |
| `EngineRegions.RunAll` | core-rs/src/engine.rs:473-531 | whatever other artifacts run before and after it, the region's own run satisfies its rows and marks its members handled |
| `EngineRegions.DrainSlots` | core-rs/src/propagate.rs:562-575 | the drain behind it leaves every slot of the region, because the pushes of its members are skipped |
| `EngineRegions.InsertedServes` | core-rs/src/region.rs:190-197 | a compiled region whose rows hold is in service once it is inserted |
| `EngineLimits.CopyServes` | core-rs/src/engine.rs:420-449 | a run from the empty engine that declares a region in service |
| `UnevenPaths.UnevenPathsGoStale` | core-rs/src/deps.rs:161-176 | two paths of different length: every equation holds before a write of Pos, and the node behind them is left Zero over a Pos dependency |
| `UnevenPaths.StaleKiteReached` | core-rs/src/engine.rs:215-251 | the state before that write is reached from the empty engine and meets every hypothesis of local consistency but unique paths |
| `RegistryFacts.SubscribeRelation` | core-rs/src/deps.rs:240-254 | registration adds exactly the pair to deps, subs and metadata, which stay one relation |
| `RegistryFacts.SubscribeAgain` | core-rs/src/deps.rs:240-254 | registering a pair again leaves the relation, restarts its metadata and adds a second entry to both ordered lists |
| `DepRegistries.DepRegistry.Unsubscribe` | core-rs/src/deps.rs:259-277 | the pair leaves both sets, its metadata and both ordered lists |
| `DepRegistries.DepRegistry.RemoveNode` | core-rs/src/deps.rs:280-309 | every pair at the node is detached and its tables dropped |
| `DepRegistries.DepRegistry.GateOpen` | core-rs/src/deps.rs:161-176 | the delta gate of a registered pair in place; `PushGate.PushIsGated` says what it lets through |
| `PropEngines.StepPushInPlace` | core-rs/src/propagate.rs:198-450 | the step on graph, registry and store in place is the step function |
| `PropEngines.PropEngine.StepDemand` | core-rs/src/propagate.rs:454-476 | the Neg dependencies are demanded before the node is pushed |
| `PropEngines.PropEngine.Drain` | core-rs/src/propagate.rs:522-626 | the queue loop in place is the drain function, with its events, statistics and step limit |
| `PropEngines.Graph.DanglingEdges` | core-rs/src/graph.rs:71-81 | the filter loop lists an edge if and only if it starts or ends at the node, in strictly ascending order |
| `RegionCaches.RegionArtifactCache.Insert` | core-rs/src/region.rs:190-197 | the artifact is stored and listed under each boundary input |
| `RegionCaches.RegionArtifactCache.InvalidateForNode` | core-rs/src/region.rs:218-244 | the eviction of one node in place; `Eviction.EditsEvict` says which artifacts go |
| `RegionCaches.RegionArtifactCache.TakeDirty` | core-rs/src/region.rs:265-267 | the dirty roots come out once each and the set is empty |
| `Engines.Engine.ExecuteRegion` | core-rs/src/engine.rs:473-507 | a region run on the engine's store, dirty bits, handled bits and statistics |
| `Engines.Engine.RunDirtyRegions` | core-rs/src/engine.rs:473-536 | the dirty regions run in whatever order the set yields, then the dirty bits are clear |
| `Engines.Engine.RunStabilize` | core-rs/src/engine.rs:598-665 | the answer of a stabilisation is applied to the members |
| `Engines.Engine.DrainAll` | core-rs/src/engine.rs:461-570 | `drain_and_stabilize` in place; `StabilisationRounds` says what its rounds serve |
| `Engines.Engine.DropNode` | core-rs/src/engine.rs:261-290 | deletion removes the incident edges with their subscriptions, then the node |
| `Engines.Engine.DeclareRegion` | core-rs/src/engine.rs:420-449 | the boundary's members are resolved and, for an Eager policy, compiled exactly when they can be |
| `Engines.Engine.Apply` | core-rs/src/engine.rs:132-453 | one instruction in place is a legal step of the state function, returns its events or error, and keeps the invariant |
| `WireBytes.ReadBack` | session-rs/src/encode.rs:58-63 | little-endian bytes read back as the number's residue |
| `WireBytes.WriteBack` | session-rs/src/encode.rs:58-63 | bytes read as a number are written back as they were |
| `WireBytes.SortedAscending` | session-rs/src/encode.rs:82-84 | attribute keys are written in strictly ascending byte order |
| `WireLayout.LeastByteFirst` | spec/abi.md:518 | the k-th byte of a number is its k-th digit to the base 256, least first |
| `WireLayout.TwosComplement` | spec/abi.md:518 | a negative number is written as its two's complement |
| `WireLayout.RulesInOrder` | spec/abi.md:483-493 | rule bytes count up in the documented order |
| `WireLayout.OpcodeIsNumber` | spec/abi.md:307-344 | the opcodes of the documented table |
| `WireLayout.WordsLayout` | spec/abi.md:307-338 | the nine instructions of eight-byte fields are those fields in the documented order |
| `WireLayout.NodeByteLayout` | spec/abi.md:309-318 | a value is its rank less one as a signed byte behind its node, a mode its number |
| `WireLayout.TableLayout` | spec/abi.md:336-338 | labels, configurations and policies field by field |
| `WireLayout.RegionLayout` | spec/abi.md:327 | a counted list of identifiers |
| `WireLayout.DeclareLayout` | spec/abi.md:361-389 | a declared region field by field |
| `WireLayout.EdgeLayout` | spec/abi.md:308 | a local edge field by field; no port is an unnamed signal |
| `WireLayout.NodeLayout` | spec/abi.md:307 | a node field by field |
| `WireBytes.CanonicalTwice` | session-rs/src/dispatch.rs:179-186 | NaN canonicalisation is idempotent |
| `CodecIdentity.CanonicalMeans` | spec/abi.md:565-578 | with NaN defined apart: every pattern that is no NaN, infinities included, stays, and every NaN becomes 0x7FF8000000000000 |
| `CodecIdentity.AttributesCross` | session-rs/src/encode.rs:79-100 | an attribute map printed and parsed has its keys, each value but a NaN as it was and each NaN as that pattern |
| `CodecIdentity.PortableBack` | session-rs/src/encode.rs:135-358 | operations whose numbers are in range, without NaN, parse back as exactly themselves |
| `CodecRoundTrip.AttrsBack` | session-rs/src/encode.rs:79-100 | an attribute map reads back with its keys and normal values |
| `CodecRoundTrip.FrontierMeaning` | session-rs/src/encode.rs:207-216 | a frontier reads back with one clock per low half, that of its largest partition |
| `CodecRoundTrip.OpBack` | session-rs/src/dispatch.rs:280-644 | whatever follows a payload, parsing yields the normal form and leaves exactly what follows |
| `CodecRoundTrip.RoundTrip` | session-rs/src/encode.rs:135-358 | a printed payload parses to the normal form |
| `CodecRoundTrip.RoundTripExactly` | session-rs/src/encode.rs:66-100 | for operations whose remote frontier, if any, names partitions below 2^64, it does so exactly when texts are valid and lengths fit their prefixes |
| `CodecRoundTrip.ParsedIsNormal` | session-rs/src/dispatch.rs:280-644 | whatever parses is in normal form, fits, and has the opcode it was parsed under |
| `CodecRoundTrip.Reparse` | session-rs/src/dispatch.rs:280-644 | for every byte string that parses, printing and parsing again gives the same operation |
| `CodecRoundTrip.NormalFormIsStable` | session-rs/src/encode.rs:105-126 | the normal form is its own normal form and keeps the opcode |
| `Codec.WritePayload` | session-rs/src/encode.rs:135-358 | the buffer grows by exactly the payload |
| `Codec.ByteBuffer.WriteAttrMap` | session-rs/src/encode.rs:79-100 | count and sorted entries are appended |
| `Codec.Parse` | session-rs/src/dispatch.rs:280-644 | the cursor reads what the parser takes, with the same error at the same point |
| `Codec.Reader.ReadAttrMap` | session-rs/src/dispatch.rs:221-258 | the entry loop, later keys overwriting earlier ones |
| `Framing.HeaderBack` | session-rs/src/encode.rs:412-430 | a header is 48 bytes with each field at its offset |
| `Framing.PreambleBack` | session-rs/src/encode.rs:443-457 | a preamble is 32 bytes with magic, version and fields at their offsets |
| `Framing.WriteRecord` | session-rs/src/encode.rs:412-430 | the in-place encoder produces header and payload with the right length |
| `Framing.StreamDecoder.DecodePreamble` | session-rs/src/decode.rs:225-246 | magic, then version, then the fields |
| `Framing.StreamDecoder.DecodeRecord` | session-rs/src/decode.rs:262-346 | the checks in order, the traces and counters in place |
| `Framing.AcceptsExactly` | session-rs/src/decode.rs:262-346 | exactly when a header is accepted |
| `Framing.AcceptedGoes` | session-rs/src/decode.rs:322-346 | where an accepted record goes: 0x0100 is a profile, 0x0001 to 0x0012 are routed, any other is skipped to its last byte |
| `Framing.RoutedIsDispatched` | session-rs/src/dispatch.rs:280-644 | what is not routed could not be dispatched, and whatever parses is routed |
| `Framing.AcceptedOrdered` | session-rs/src/decode.rs:296-321 | over arbitrary input the accepted records of a session have rising sequence numbers and epochs that never fall |
| `Framing.RefusedEpochConsumes` | session-rs/src/decode.rs:296-321 | a record refused for its epoch has consumed its sequence number |
| `Framing.StreamBack` | session-rs/src/dispatch.rs:806-812 | a preamble and records in order decode to exactly the headers and normal forms |
| `Gossip.DueSplit` | session-rs/src/sim/network.rs:51-63 | a drain takes exactly the due messages and leaves the others |
| `Gossip.PressureDecides` | session-rs/src/topology.rs:62-66 | the health in numbers: -1 if and only if a cursor is parked, 0 with none and a queue of at least 500, 1 otherwise |
| `Gossip.PressureLowers` | session-rs/src/topology.rs:62-66 | more pressure never raises the health |
| `Gossip.CrashIsSeen` | session-rs/src/sim/mod.rs:290-313 | right after a crash every shard sees the crashed one as -1 and everything else as before |
| `Gossip.HealIsSeen` | session-rs/src/sim/mod.rs:316-325 | right after a recovery every shard sees it as 1 and everything else as before |
| `Gossip.GossipReaches` | session-rs/src/sim/mod.rs:244-265 | a tick sends each connected alive pair a message due within the longest delay |
| `GossipConvergence.RunsBounded` | session-rs/src/sim/mod.rs:175-340 | in every reachable state no message is overdue or further away than the longest delay |
| `GossipConvergence.GossipConverges` | session-rs/src/sim/mod.rs:234-281 | after twice the longest delay every steady observer sees -1 if and only if a cursor is parked, 0 with none and a queue of at least 500, and 1 otherwise, and keeps seeing it |
| `GossipConvergence.DelaysDoNotMatter` | session-rs/src/sim/mod.rs:644-712 | clusters with different delays and seeds agree on the health they converge to |
| `GossipSilence.SeveredViewStands` | session-rs/src/sim/mod.rs:244-265 | while two shards are cut apart or one is not alive, and nothing is left in flight, the one's view of the other stands over any run |
| `GossipSilence.TickSendsExactly` | session-rs/src/sim/mod.rs:244-265 | with nothing in flight between two shards a tick sends something exactly when both are alive, the pressure is known, they are not cut apart and the lot does not lose it |
| `GossipSilence.DelaysExactly` | session-rs/src/sim/faults.rs:60-66 | the delays are exactly those from one tick to the longest |
| `SimClusters.FaultPolicy.SampleDelayTicks` | session-rs/src/sim/faults.rs:60-66 | a delay between one and the longest delay |
| `SimClusters.SimNetwork.DrainDue` | session-rs/src/sim/network.rs:51-63 | the split loop in place |
| `SimClusters.SimCluster.TickOnce` | session-rs/src/sim/mod.rs:234-266 | a tick in place is a step of the transition system |
| `SimClusters.SimCluster.CrashShard` | session-rs/src/sim/mod.rs:290-313 | a crash in place is a step of the transition system |
| `SimClusters.SimCluster.HealShard` | session-rs/src/sim/mod.rs:316-325 | a recovery in place is a step of the transition system |
| `SimClusters.SimCluster.PartitionNetwork` | session-rs/src/sim/mod.rs:328-334 | exactly the pairs of the two sets are cut, in either direction |
| `Equations.RuleIsSound` | core-rs/src/egraph.rs:90-124 | both sides of each of the eighteen rules agree under every assignment |
| `Equations.DerivationIsSound` | core-rs/src/egraph.rs:90-124 | every equation derivable by instances, congruence, symmetry and transitivity preserves evaluation |
| `Equations.ConstantsStayDistinct` | core-rs/src/egraph.rs:90-124 | two constants are derivably equal only if they are the same |
| `EGraphs.MatchIsEqual` | core-rs/src/egraph.rs:130-145 | a pattern match modulo classes is a derivable equality |
| `EGraphs.MakeIsRight` | core-rs/src/egraph.rs:61-78 | the analysis of an e-node is the value of its term |
| `GroundFolding.MakeAnswers` | core-rs/src/egraph.rs:61-78 | the analysis answers exactly when the e-node is no symbol and every child is known |
| `GroundFolding.RecomputeAnswers` | core-rs/src/egraph.rs:61-86 | re-analysing such an e-node makes its class known |
| `GroundFolding.RunsFold` | core-rs/src/egraph.rs:58-86 | in every state of every saturation run the class of a term without symbols holds its value |
| `EGraphs.NoConflict` | core-rs/src/egraph.rs:80-85 | merging derivably equal classes never meets two constants, so none is dropped |
| `EGraphs.RunsSound` | core-rs/src/egraph.rs:58-86 | in every state of every saturation run classes are derivably equal and constants right |
| `EGraphs.RunsNeverConflict` | core-rs/src/egraph.rs:80-85 | no justified merge of such a run conflicts and no class holds two literals |
| `Section.BuildSectionRegion` | core-rs/src/egraph.rs:330-383 | at most the budget of members, disjoint from current pins, every dependency covered; below the budget the least Zero-closed set of the seeds |
| `SectionExpr.RuleTermExact` | core-rs/src/egraph.rs:402-432 | exactly when filling missing operands with Neg agrees with the rule |
| `SectionExpr.MemberTermValue` | core-rs/src/egraph.rs:440-506 | on an acyclic section with full arity a member's term under the pins has the value of recursive evaluation |
| `SectionExpr.ExprBuilder.Build` | core-rs/src/egraph.rs:440-506 | the memoised recursion ends on every section and yields the member's term on an acyclic one |
| `SectionExpr.ExprBuilder.BuildAll` | core-rs/src/egraph.rs:511-528 | every member gets its term |
| `SectionExpr.ResolvedIsRecursive` | core-rs/src/egraph.rs:130-145 | a constant found for a member's class is its recursive value |
| `PortCompliance.CheckPortCompliance` | core-rs/src/egraph.rs:542-588 | accepted exactly when every root has the same non-Zero constant, else refused with the kind of obstruction |
| `PortCompliance.AcceptedIsRight` | core-rs/src/egraph.rs:542-588 | an accepted value is every member's recursive value |
| `StabilisedValues.StabiliseResolves` | core-rs/src/engine.rs:598-665 | an accepted stabilisation of an acyclic full-arity section gives every Zero member its recursive value over the pins and moves no other value |

## Left out

- Integer widths: dense indices, counters, statistics, ticks and versions are unbounded; the 32-bit and 64-bit wrap-around of the source is written out only on the wire.
- Node types, attributes and their reflection, edge types and the event history are stored by the source and read by nothing modelled here, so the engine carries none of them.
- Eviction.RunsStayCurrent: a tracked artifact can read a slot its members no longer depend on after a source it does not cover is deleted (EngineLimits.SourceDeletionStales), and miss one after `Subscribe` or after a source is created again; the exceptions are exact (Eviction.KeepsCurrentExactly).
- Reports.RepliesTell: stabilisation answers settle on a value other than Zero, which the acceptance test guarantees (PortCompliance.CheckPortCompliance).
- EngineEffects.ReflectTurns: stated of an Input on an engine without regions and Stabilizing nodes; what a call then makes of a computed node is Reports.RepliesTell.
- WireLayout.EdgeLayout: the fields of a remote dependency are not spelled out byte by byte.
- Adjacency epochs: the compile epoch of a region is a parameter, because nothing modelled reads it back.
- Authority: the verdict of the gate is a parameter of a drain; capability and scope bits, the gate's arithmetic and the narrowing of labels on `PartitionBind` are not modelled. `since`, `until` and sensitivity of dependency metadata are not either.
- Partition, stabilisation and execution-policy tables are written by their instructions and read by nothing modelled; those instructions advance the clock here and do nothing else.
- Hash iteration order is ascending for dependency and subscriber lists and an arbitrary choice for dirty regions and alive shards.
- Engines.Engine.Apply: the saturation runner's verdicts come from outside, round by round; a call that is given fewer rounds than it needs ends with a model-only error.
- EngineInvariant.RunsKeep: creating a member of a cached artifact again is excluded, because the mirror then breaks (EngineLimits.RecreatedMemberDiverges); the exclusion is exact (EngineInvariant.KeepsExactlyWhenLegal).
- EngineWiring.PlainRunsKeep: counters are not exact across stabilisation, changes inside a region, parallel edges, or `Subscribe` followed by `DelNode`; the source does not keep them in step there.
- EngineRuns.SetValueStaysConsistent: unique paths are a sufficient condition, not an exact one; without it the conclusion can fail (UnevenPaths.UnevenPathsGoStale), since a pair carries one push per causal time.
- EngineRuns.SetValuesConverge: stated without compiled regions, because a compiled row applies lattice operations where a push keeps or infects.
- Equality of compiled and warm evaluation without a condition, for the same reason.
- Memory prefetch and row order hints of the compiled run.
- The egg runner's schedule, limits and extraction, and its node identity after hash-consing: the model keeps e-nodes apart until they are merged.
- SectionExpr.ExprBuilder.Build: builds terms rather than e-graph identifiers.
- Engines.Engine.RunStabilize: takes the section and its verdict from outside; StabilisedValues.StabiliseResolves says what an accepted verdict for a built section does.
- EngineRegions.WritesEvaluateFully: no other artifact writes a slot of the region and its boundary nodes have no rule; a region fed by another is run once per call in the order of the dirty set, and a boundary node that a drain changes marks no region dirty.
- CodecRoundTrip.RoundTripExactly: remote frontiers with partitions of 64 bits or more are outside its "only if"; for them CodecRoundTrip.RoundTrip gives the "if".
- Ed25519 verification, trust store, session tables, admission, quotas, placement, telemetry and the profile payload.
- Floating-point drop chances are reals and the generator's numbers arbitrary, so no statement about probabilities is made.
- A crashed shard can still be seen as Pos when gossip in flight arrives after the crash; nothing to the contrary is claimed.
- Python bindings, demo, benches, RTL and HLS.
