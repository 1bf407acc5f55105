/** The engine's state and one instruction's effect on it, as functions. */
module EngineModel {
  import opened Base
  import opened Bits
  import opened Ternary
  import opened Rules
  import opened Time
  import opened Isa
  import opened ValueStores
  import opened Deps
  import opened Propagation
  import opened StepFacts
  import opened Draining
  import opened Regions
  import opened RegionRun
  import opened Writes

  datatype EngineError = NodeNotFound(id: Uid) | DpoViolation(id: Uid) | StepLimitExceeded | RoundsExhausted

  // ---- compiled artifacts -----------------------------------------------------------------

  datatype RegionCache = RegionCache(regions: map<Uid, Region>, contracts: map<Uid, StabilityContract>,
                                     dirty: set<Uid>, inputTo: map<nat, seq<Uid>>) {

    function RootsOf(dense: nat): seq<Uid> { if dense in inputTo then inputTo[dense] else [] }

    /** List root under each of the inputs. */
    function Listed(root: Uid, inputs: seq<nat>): map<nat, seq<Uid>> {
      if inputs == [] then inputTo
      else
        var before := Listed(root, inputs[..|inputs| - 1]);
        var last := inputs[|inputs| - 1];
        before[last := (if last in before then before[last] else []) + [root]]
    }

    function Insert(root: Uid, region: Region, contract: StabilityContract): RegionCache {
      RegionCache(regions[root := region], contracts[root := contract], dirty, Listed(root, region.inputs))
    }

    function MarkDirty(dense: nat): RegionCache { this.(dirty := dirty + Elements(RootsOf(dense))) }

    /** The epoch-tracked artifacts that cover a node. */
    function Stale(node: Uid): set<Uid> {
      set root | root in regions && root in contracts && contracts[root] == EpochTracked && node in regions[root].members
    }

    /** Those of the roots whose artifact reads the slot as a boundary input. */
    function Reading(roots: set<Uid>, dense: nat): set<Uid>
      requires roots <= regions.Keys
    {
      set root | root in roots && dense in regions[root].inputs
    }

    /** Remove the stale artifacts, their dirty flags and their reverse entries; contracts stay. */
    function Invalidate(node: Uid): RegionCache {
      var stale := Stale(node);
      RegionCache(regions - stale, contracts, dirty - stale,
                  map dense | dense in inputTo :: Without(inputTo[dense], Reading(stale, dense)))
    }
  }

  function Without(roots: seq<Uid>, gone: set<Uid>): seq<Uid> {
    if roots == [] then []
    else Without(roots[..|roots| - 1], gone) + (if roots[|roots| - 1] in gone then [] else [roots[|roots| - 1]])
  }

  // ---- the state ----------------------------------------------------------------------------

  datatype EngineState = EngineState(world: World, edges: map<Uid, Edge>, items: seq<WorkItem>, events: seq<PropEvent>, stats: Stats,
                           demanded: set<Uid>, now: ProductTime, arrival: nat, partitions: map<Uid, PartitionId>,
                           cache: RegionCache, dirtySlots: seq<Word>, handled: seq<Word>, maxSteps: nat)
  {
    /** Advance one dimension of the causal clock and the arrival counter. */
    function Log(dim: TimeDim): EngineState { this.(now := now.Advance(dim), arrival := arrival + 1) }

    function WithReg(reg: Registry): EngineState { this.(world := world.(reg := reg)) }

    function Enqueue(item: WorkItem): EngineState { this.(items := items + [item]) }
  }

  /** What the model does not compute and an operation may be given: the authority verdicts, the
      result of compiling a region, the order in which dirty roots come out of their set, and what
      structural stabilisation answers, round by round. */
  datatype Choices = Choices(auth: map<(Uid, Uid), Verdict>, compiled: Option<Region>, roots: seq<Uid>,
                             rounds: seq<seq<Stabilized>>, explicitRun: Stabilized)

  /** The section that was built from the seeds and how its stabilisation ended. */
  datatype Stabilized = Stabilized(members: set<Uid>, verdict: StabVerdict)
  datatype StabVerdict = Settled(value: Option<T>) | Boundary | Informational | Structural

  /** The state an instruction leaves, and the events or the error it returns. */
  datatype Reply = Done(e: EngineState, events: seq<PropEvent>) | Failed(e: EngineState, error: EngineError) {
    function Result(): Base.Result<seq<PropEvent>, EngineError> { if Done? then Ok(events) else Err(error) }
  }

  // ---- external writes ------------------------------------------------------------------------

  /** Mark the node's slot dirty and the regions that read it. */
  function Touch(e: EngineState, node: Uid): EngineState {
    if node in e.world.store.idx then
      var d := e.world.store.idx[node];
      e.(cache := e.cache.MarkDirty(d), dirtySlots := SetBitGuarded(e.dirtySlots, d))
    else e
  }

  /** The subscriber loop of a write, appended to the queue. */
  function Notified(e: EngineState, node: Uid, subs: seq<Uid>, prior: T, next: T): EngineState {
    var a := BumpAndPush(Acc(e.world.reg, [], [], NO_STATS), node, subs, prior, next, WriteCtx(e.now));
    e.WithReg(a.reg).(items := e.items + a.work)
  }

  // ---- the compiled tier -------------------------------------------------------------------------

  /** The dirty bits with every changed output among the first i rows set. */
  function Redirtied(dirty: seq<Word>, r: Region, c0: seq<T>, c1: seq<T>, i: nat): seq<Word>
    requires r.Shaped() && r.Fits(|c0|) && |c1| == |c0| && i <= r.Rows()
  {
    if i == 0 then dirty
    else
      var d := r.outputs[i - 1];
      var before := Redirtied(dirty, r, c0, c1, i - 1);
      if c0[d] != c1[d] then SetBitGuarded(before, d) else before
  }

  /** The handled bits with every listed member's slot set. */
  function MarkHandled(handled: seq<Word>, idx: map<Uid, nat>, members: seq<Uid>): seq<Word> {
    if members == [] then handled
    else
      var last := members[|members| - 1];
      var before := MarkHandled(handled, idx, members[..|members| - 1]);
      if last in idx then SetBitGuarded(before, idx[last]) else before
  }

  function OutsideOf(subs: seq<Uid>, members: seq<Uid>): seq<Uid> {
    if subs == [] then []
    else OutsideOf(subs[..|subs| - 1], members) + (if subs[|subs| - 1] in members then [] else [subs[|subs| - 1]])
  }

  /** Sync a changed output to the graph, report it, and notify the subscribers outside the region. */
  function SyncChange(e: EngineState, members: seq<Uid>, change: (Uid, T, T)): EngineState {
    var (node, prior, next) := change;
    var e1 := e.(world := if node in e.world.nodes
                          then e.world.(nodes := e.world.nodes[node := e.world.nodes[node].SetValue(next)]) else e.world,
                 events := e.events + [ValueChanged(node, prior, next)]);
    Notified(e1, node, OutsideOf(Ascending(e1.world.reg.SubsOf(node)), members), prior, next)
  }

  function SyncChanges(e: EngineState, members: seq<Uid>, changed: seq<(Uid, T, T)>): EngineState {
    if changed == [] then e
    else SyncChange(SyncChanges(e, members, changed[..|changed| - 1]), members, changed[|changed| - 1])
  }

  /** Run one dirty region, if its artifact is still there. */
  ghost function RunRegion(e: EngineState, root: Uid): EngineState
    requires root in e.cache.regions ==> e.cache.regions[root].Runnable(|e.world.store.cache|)
  {
    if root !in e.cache.regions then e
    else
      var r := e.cache.regions[root];
      SyncChanges(Ran(e, r), r.members, ChangedBy(e, r))
  }

  /** What the region's run changes on the engine's store, in row order. */
  ghost function ChangedBy(e: EngineState, r: Region): seq<(Uid, T, T)>
    requires r.Runnable(|e.world.store.cache|)
  {
    Changes(r, e.world.store.cache, IncEval(r, e.world.store.cache, e.dirtySlots), r.Rows())
  }

  /** The store, dirty bits, handled bits and statistics after the region's run. */
  ghost function Ran(e: EngineState, r: Region): EngineState
    requires r.Runnable(|e.world.store.cache|)
  {
    var c0 := e.world.store.cache;
    var c1 := IncEval(r, c0, e.dirtySlots);
    e.(world := e.world.(store := StoreOf(c1, e.world.store.idx)),
       dirtySlots := Redirtied(e.dirtySlots, r, c0, c1, r.Rows()),
       handled := MarkHandled(e.handled, e.world.store.idx, r.members),
       stats := e.stats.(materialized := e.stats.materialized + |ChangedBy(e, r)|))
  }

  // ---- draining and stabilising --------------------------------------------------------------------

  /** The queue as `drain` takes it over. */
  function QueueOf(e: EngineState): Queue { TakenOver(e.world, e.items, e.events, e.stats, e.demanded) }

  function WithQueue(e: EngineState, q: Queue): EngineState {
    e.(world := q.world, items := q.items, events := q.events, stats := q.stats, demanded := q.demanded)
  }

  function Requests(events: seq<PropEvent>): seq<seq<Uid>> {
    if events == [] then []
    else Requests(events[..|events| - 1]) + (if events[|events| - 1].StabilizeQueued? then [events[|events| - 1].region] else [])
  }

  function WithoutRequests(events: seq<PropEvent>): seq<PropEvent> {
    if events == [] then []
    else WithoutRequests(events[..|events| - 1]) + (if events[|events| - 1].StabilizeQueued? then [] else [events[|events| - 1]])
  }

  /** Give one Zero member the resolved value and push to its Eager subscribers; the counters of
      the subscribers are not updated here. */
  function ResolveOne(e: EngineState, id: Uid, v: T): EngineState
    requires e.world.Wf()
  {
    if id in e.world.nodes && e.world.nodes[id].value == Zero then
      var w := e.world.Put(id, v);
      var a := PushSubs(Acc(w.reg, [], [], NO_STATS), id, Ascending(w.reg.SubsOf(id)), WriteCtx(e.now));
      e.(world := w.(reg := a.reg), items := e.items + a.work, events := e.events + [ValueChanged(id, Zero, v)])
    else e
  }

  ghost function ResolveAll(e: EngineState, ids: seq<Uid>, v: T): (out: EngineState)
    requires e.world.Wf()
    ensures out.world.Wf()
  {
    if ids == [] then e
    else
      var before := ResolveAll(e, ids[..|ids| - 1], v);
      ResolveOneWf(before, ids[|ids| - 1], v);
      ResolveOne(before, ids[|ids| - 1], v)
  }

  lemma ResolveOneWf(e: EngineState, id: Uid, v: T)
    requires e.world.Wf()
    ensures ResolveOne(e, id, v).world.Wf()
  {
    if id in e.world.nodes && e.world.nodes[id].value == Zero {
      PutWf(e.world, id, v);
      var w := e.world.Put(id, v);
      AscendingDistinct(w.reg.SubsOf(id));
      PushSubsResult(Acc(w.reg, [], [], NO_STATS), id, Ascending(w.reg.SubsOf(id)), WriteCtx(e.now));
    }
  }

  /** Demand every Neg dependency of the members. */
  function DemandNeg(e: EngineState, ids: seq<Uid>): EngineState {
    if ids == [] then e
    else
      var before := DemandNeg(e, ids[..|ids| - 1]);
      before.(items := before.items + Demands(NegNodes(before.world, Ascending(before.world.reg.DepsOf(ids[|ids| - 1])))))
  }

  function NegNodes(w: World, ids: seq<Uid>): seq<Uid> {
    if ids == [] then []
    else
      var last := ids[|ids| - 1];
      NegNodes(w, ids[..|ids| - 1]) + (if last in w.nodes && w.nodes[last].value == Neg then [last] else [])
  }

  function Infections(ids: seq<Uid>): seq<PropEvent> {
    seq(|ids|, k requires 0 <= k < |ids| => BochvarInfected(ids[k], Some(Conflict)))
  }

  /** `run_stabilize`, given how stabilisation of the seeds' section ended. */
  ghost function Stabilise(e: EngineState, seeds: seq<Uid>, s: Stabilized): (out: EngineState)
    requires e.world.Wf()
    ensures out.world.Wf()
  {
    if seeds == [] then e
    else
      match s.verdict
      case Settled(v) => if v.Some? then ResolveAll(e, Ascending(s.members), v.value).Log(Egraph) else e
      case Boundary => e.(events := e.events + Infections(Ascending(s.members)))
      case Informational => DemandNegWf(e, Ascending(s.members)); DemandNeg(e, Ascending(s.members))
      case Structural => e
  }

  lemma {:induction false} DemandNegWf(e: EngineState, ids: seq<Uid>)
    ensures DemandNeg(e, ids) == e.(items := DemandNeg(e, ids).items)
    decreases |ids|
  {
    if ids != [] { DemandNegWf(e, ids[..|ids| - 1]); }
  }

  /** Serve each stabilisation request in turn. */
  ghost function StabiliseEach(e: EngineState, requests: seq<seq<Uid>>, answers: seq<Stabilized>): (out: EngineState)
    requires e.world.Wf()
    ensures out.world.Wf()
    decreases |requests|
  {
    if requests == [] || answers == [] then e
    else StabiliseEach(Stabilise(e, requests[0], answers[0]), requests[1..], answers[1..])
  }

  /** Drain, then serve the stabilisation requests the drain produced, until there are none. */
  ghost function Settle(e: EngineState, auth: map<(Uid, Uid), Verdict>, rounds: seq<seq<Stabilized>>): Reply
    requires e.world.Wf()
    decreases |rounds|
  {
    DrainWf(QueueOf(e), e.now, auth, e.handled, e.maxSteps);
    var d := Drain(QueueOf(e), e.now, auth, e.handled, e.maxSteps);
    var e1 := WithQueue(e, d.q);
    if d.LimitExceeded? then Failed(e1, StepLimitExceeded)
    else if Requests(e1.events) == [] then Finish(e1)
    else if rounds == [] then Failed(e1, RoundsExhausted)
    else Settle(StabiliseEach(e1.(events := WithoutRequests(e1.events)), Requests(e1.events), rounds[0]), auth, rounds[1..])
  }

  /** Clear the handled bits and take the events. */
  function Finish(e: EngineState): Reply {
    Done(e.(handled := Cleared(|e.handled|), events := []), e.events)
  }

  function Cleared(n: nat): seq<Word> { seq(n, i => NO_BITS) }

  lemma {:induction false} DrainWf(q: Queue, now: ProductTime, auth: map<(Uid, Uid), Verdict>, handled: seq<Word>, budget: nat)
    requires q.world.Wf()
    ensures Drain(q, now, auth, handled, budget).q.world.Wf()
    decreases budget
  {
    if q.items != [] && budget > 0 {
      DrainStepWf(q, now, auth, handled);
      DrainWf(DrainStep(q, now, auth, handled), now, auth, handled, budget - 1);
    }
  }

  // ---- the compiled tier and the warm tier in one call -------------------------------------------

  /** The artifacts are runnable on the store. */
  ghost predicate CacheRunnable(e: EngineState) {
    forall root :: root in e.cache.regions ==> e.cache.regions[root].Runnable(|e.world.store.cache|)
  }

  lemma {:induction false} SyncKeeps(e: EngineState, members: seq<Uid>, changed: seq<(Uid, T, T)>)
    ensures var out := SyncChanges(e, members, changed);
      out.world.store == e.world.store && out.cache == e.cache && out.world.reg.orderedIdx == e.world.reg.orderedIdx
    decreases |changed|
  {
    if changed != [] {
      var before := SyncChanges(e, members, changed[..|changed| - 1]);
      var change := changed[|changed| - 1];
      SyncKeeps(e, members, changed[..|changed| - 1]);
      BumpAndPushKeeps(Acc(before.world.reg, [], [], NO_STATS), change.0,
                       OutsideOf(Ascending(before.world.reg.SubsOf(change.0)), members), change.1, change.2, WriteCtx(before.now));
    }
  }

  lemma {:induction false} BumpAndPushKeeps(a: Acc, n: Uid, subs: seq<Uid>, prior: T, next: T, ctx: Ctx)
    ensures BumpAndPush(a, n, subs, prior, next, ctx).reg.orderedIdx == a.reg.orderedIdx
    decreases |subs|
  {
    if subs != [] { BumpAndPushKeeps(a, n, subs[..|subs| - 1], prior, next, ctx); }
  }

  lemma RunRegionKeeps(e: EngineState, root: Uid)
    requires e.world.Wf() && CacheRunnable(e)
    ensures var out := RunRegion(e, root);
      out.world.Wf() && CacheRunnable(out) && |out.world.store.cache| == |e.world.store.cache| && out.cache == e.cache
  {
    if root in e.cache.regions {
      var r := e.cache.regions[root];
      var c1 := IncEval(r, e.world.store.cache, e.dirtySlots);
      StoreOfValid(c1, e.world.store.idx);
      SyncKeeps(Ran(e, r), r.members, ChangedBy(e, r));
    }
  }

  ghost function RunRegions(e: EngineState, roots: seq<Uid>): (out: EngineState)
    requires e.world.Wf() && CacheRunnable(e)
    ensures out.world.Wf() && CacheRunnable(out)
  {
    if roots == [] then e
    else
      var before := RunRegions(e, roots[..|roots| - 1]);
      RunRegionKeeps(before, roots[|roots| - 1]);
      RunRegion(before, roots[|roots| - 1])
  }

  /** `drain_and_stabilize`: run the dirty regions, clear the dirty bits, drain and stabilise. */
  ghost function DrainAndStabilize(e: EngineState, roots: seq<Uid>, auth: map<(Uid, Uid), Verdict>, rounds: seq<seq<Stabilized>>): Reply
    requires e.world.Wf() && CacheRunnable(e)
  {
    var e1 := RunRegions(e.(cache := e.cache.(dirty := {})), roots);
    Settle(e1.(dirtySlots := Cleared(|e1.dirtySlots|)), auth, rounds)
  }

  // ---- structural operations -----------------------------------------------------------------------

  /** Make room for the store's slots. */
  function Widened(bits: seq<Word>, slots: nat): seq<Word> { if |bits| < Words(slots) then bits + [NO_BITS] else bits }

  function CreateNode(e: EngineState, id: Uid, kind: NodeKind): EngineState {
    var store := e.world.store.Alloc(id);
    e.(world := World(e.world.nodes[id := Node(kind, Neg, 0)], e.world.reg.SetMode(id, Eager), store),
       dirtySlots := Widened(e.dirtySlots, |store.cache|),
       handled := if |e.dirtySlots| < Words(|store.cache|) then e.handled + [NO_BITS] else e.handled)
  }

  /** The mode a port prefers is taken over while the target is still Eager. */
  function InferMode(reg: Registry, tgt: Uid, dep: DepKind): Registry {
    var preferred := PortPreference(dep);
    if preferred.Some? && reg.ModeOf(tgt) == Eager then reg.SetMode(tgt, preferred.value) else reg
  }

  function SlotOf(w: World, n: Uid): Option<nat> { if n in w.store.idx then Some(w.store.idx[n]) else None }

  /** Subscribe with the source's slot and count its current value. */
  function Link(w: World, src: Uid, tgt: Uid): World
    requires w.store.Shaped()
  {
    w.(reg := w.reg.Subscribe(src, tgt, SlotOf(w, src)).AddToCounter(tgt, w.store.Get(src)))
  }

  function Connect(e: EngineState, id: Uid, src: Uid, tgt: Uid, dep: DepKind): EngineState
    requires e.world.store.Shaped()
  {
    var w := e.world.(reg := InferMode(e.world.reg, tgt, dep));
    e.(world := Link(w, src, tgt), edges := e.edges[id := Edge(src, tgt, dep.Remote?)],
       cache := e.cache.Invalidate(src).Invalidate(tgt))
  }

  /** Uncount the source's current value and unsubscribe. */
  function Unlink(w: World, src: Uid, tgt: Uid): World
    requires w.store.Shaped()
  {
    w.(reg := w.reg.RemoveFromCounter(tgt, w.store.Get(src)).Unsubscribe(src, tgt))
  }

  function RemoveEdge(e: EngineState, id: Uid): EngineState
    requires e.world.store.Shaped() && id in e.edges
  {
    e.(world := Unlink(e.world, e.edges[id].src, e.edges[id].tgt), edges := e.edges - {id})
  }

  /** The edges at a node. */
  function Incident(e: EngineState, node: Uid): set<Uid> {
    set id | id in e.edges && (e.edges[id].src == node || e.edges[id].tgt == node)
  }

  function RemoveEdges(e: EngineState, ids: seq<Uid>): (out: EngineState)
    requires e.world.store.Shaped()
    ensures out.world.store == e.world.store && out.world.nodes == e.world.nodes && out.cache == e.cache
    ensures forall id :: id in out.edges <==> id in e.edges && id !in ids
    ensures forall id :: id in out.edges ==> out.edges[id] == e.edges[id]
  {
    if ids == [] then e
    else
      var last := ids[|ids| - 1];
      assert ids == ids[..|ids| - 1] + [last];
      var before := RemoveEdges(e, ids[..|ids| - 1]);
      if last in before.edges then RemoveEdge(before, last) else before
  }

  function DeleteNode(e: EngineState, id: Uid): EngineState
    requires e.world.store.Shaped() && |e.world.store.planeP0| == |e.world.store.planeP1| == Words(|e.world.store.cache|)
  {
    var e1 := RemoveEdges(e, Ascending(Incident(e, id)));
    e1.(world := World(e1.world.nodes - {id}, e1.world.reg.RemoveNode(id), e1.world.store.Set(id, Neg)),
        cache := e1.cache.Invalidate(id))
  }

  function DeleteEdge(e: EngineState, id: Uid): EngineState
    requires e.world.store.Shaped() && id in e.edges
  {
    RemoveEdge(e.(cache := e.cache.Invalidate(e.edges[id].src).Invalidate(e.edges[id].tgt)), id)
  }

  // ---- one instruction -------------------------------------------------------------------------------

  function TakeEvents(e: EngineState): Reply { Done(e.(events := []), e.events) }

  /** An external value put into the graph and the store, with its event and tick. */
  function PutValue(e: EngineState, node: Uid, v: T): EngineState
    requires e.world.Wf() && node in e.world.nodes
  {
    var e1 := Touch(e.(world := e.world.Put(node, v)), node);
    e1.(events := e1.events + [ValueChanged(node, e.world.nodes[node].value, v)]).Log(Attribute)
  }

  /** The write of an external value, before draining. */
  function WriteValue(e: EngineState, node: Uid, v: T): EngineState
    requires e.world.Wf() && node in e.world.nodes
  {
    var e2 := PutValue(e, node, v);
    Notified(e2, node, Ascending(e2.world.reg.SubsOf(node)), e.world.nodes[node].value, v)
  }

  /** `reflect`: negate the value; the version moves even when the value does not. */
  function Reflected(n: Node): Node { n.(value := MvNeg(n.value), version := n.version + 1) }

  /** A reflected value in the graph and the store; the event and the dirty marks only on a change. */
  function PutReflected(e: EngineState, node: Uid): EngineState
    requires e.world.Wf() && node in e.world.nodes
  {
    var prior := e.world.nodes[node].value;
    var next := MvNeg(prior);
    var e1 := e.(world := e.world.(nodes := e.world.nodes[node := Reflected(e.world.nodes[node])], store := e.world.store.Set(node, next)));
    if next != prior then Touch(e1, node).(events := e1.events + [ValueChanged(node, prior, next)]) else e1
  }

  function ReflectValue(e: EngineState, node: Uid): EngineState
    requires e.world.Wf() && node in e.world.nodes
  {
    var e2 := PutReflected(e, node);
    Notified(e2, node, Ascending(e2.world.reg.SubsOf(node)), e.world.nodes[node].value, MvNeg(e.world.nodes[node].value))
  }

  function ZeroNodes(w: World): set<Uid> { set n | n in w.nodes && w.nodes[n].value == Zero }

  predicate ChangesGraph(op: IsaOp) { op.NodeCreate? || op.EdgeConnect? || op.Subscribe? || op.DelNode? || op.DelEdge? }

  predicate MovesValues(op: IsaOp) { op.SetValue? || op.Propagate? || op.Demand? || op.Reflect? || op.Stabilize? }

  /** The instructions that change the graph. */
  function ApplyGraph(e: EngineState, op: IsaOp): Reply
    requires e.world.Wf() && ChangesGraph(op)
  {
    match op
    case NodeCreate(id, _, kind, _) => TakeEvents(CreateNode(e, id, kind).Log(TimeDim.Identity))
    case EdgeConnect(id, _, src, tgt, dep) =>
      if src !in e.world.nodes then Failed(e, NodeNotFound(src))
      else if tgt !in e.world.nodes then Failed(e, NodeNotFound(tgt))
      else TakeEvents(Connect(e, id, src, tgt, dep).Log(Dependency))
    case Subscribe(source, subscriber) =>
      TakeEvents(e.(world := Link(e.world, source, subscriber)).Log(Dependency))
    case DelNode(id) =>
      if exists edge :: edge in Incident(e, id) && e.edges[edge].remote then Failed(e, DpoViolation(id))
      else TakeEvents(DeleteNode(e, id).Log(TimeDim.Identity))
    case DelEdge(id) =>
      if id !in e.edges then TakeEvents(e)
      else if e.edges[id].remote then Failed(e, DpoViolation(id))
      else TakeEvents(DeleteEdge(e, id).Log(Dependency))
  }

  /** The instructions that change modes, labels, bindings and artifacts. */
  function ApplyTables(e: EngineState, op: IsaOp, ch: Choices): Reply
    requires !ChangesGraph(op) && !MovesValues(op)
  {
    match op
    case SetMode(node, mode) =>
      if node !in e.world.nodes then Failed(e, NodeNotFound(node))
      else TakeEvents(e.WithReg(e.world.reg.SetMode(node, mode)).Log(TimeDim.Identity))
    case PartitionBind(node, partition) => TakeEvents(e.(partitions := e.partitions[node := partition]).Log(TimeDim.Identity))
    case SetEdgeLabel(source, target, edgeLabel) =>
      TakeEvents(e.WithReg(e.world.reg.SetMask(source, target, edgeLabel.projectionMask.dims)).Log(TimeDim.Identity))
    case RegionDeclare(root, _, stability, compile) =>
      var e1 := e.(cache := e.cache.(contracts := e.cache.contracts[root := stability]));
      var e2 := if compile == CompileEager && ch.compiled.Some?
                then e1.(cache := e1.cache.Insert(root, ch.compiled.value, stability)) else e1;
      TakeEvents(e2.Log(TimeDim.Identity))
    case PartitionCreate(_, _, _, _) => TakeEvents(e.Log(TimeDim.Identity))
    case SetPartitionAuthority(_, _, _) => TakeEvents(e.Log(TimeDim.Identity))
    case SetStabilizationConfig(_, _) => TakeEvents(e.Log(TimeDim.Identity))
    case SetExecutionPolicy(_, _) => TakeEvents(e.Log(TimeDim.Identity))
  }

  /** The instructions that move values. */
  ghost function ApplyValues(e: EngineState, op: IsaOp, ch: Choices): Reply
    requires e.world.Wf() && CacheRunnable(e) && MovesValues(op)
  {
    match op
    case SetValue(node, v) =>
      if node !in e.world.nodes then Failed(e, NodeNotFound(node))
      else if v == e.world.nodes[node].value then Done(e, [])
      else
        WriteValueReady(e, node, v);
        DrainAndStabilize(WriteValue(e, node, v), ch.roots, ch.auth, ch.rounds)
    case Propagate(node) => DrainAndStabilize(e.Enqueue(Push(node)).Log(Attribute), ch.roots, ch.auth, ch.rounds)
    case Demand(node) => DrainAndStabilize(e.Enqueue(DemandItem(node)).Log(Attribute), ch.roots, ch.auth, ch.rounds)
    case Reflect(node) =>
      var e1 := e.Log(Attribute);
      if node !in e.world.nodes then Failed(e1, NodeNotFound(node))
      else
        ReflectValueReady(e1, node);
        DrainAndStabilize(ReflectValue(e1, node), ch.roots, ch.auth, ch.rounds)
    case Stabilize(region) =>
      var seeds := if region.Some? then region.value else Ascending(ZeroNodes(e.world));
      TakeEvents(Stabilise(e, seeds, ch.explicitRun).Log(Egraph))
  }

  /** `Engine::apply`: the event list starts empty, then the instruction takes effect. */
  ghost function Apply(e0: EngineState, op: IsaOp, ch: Choices): Reply
    requires e0.world.Wf() && CacheRunnable(e0)
  {
    var e := e0.(events := []);
    if ChangesGraph(op) then ApplyGraph(e, op)
    else if MovesValues(op) then ApplyValues(e, op, ch)
    else ApplyTables(e, op, ch)
  }

  // ---- the order of dirty regions -----------------------------------------------------------------

  /** The instruction reaches the drain. */
  predicate Drains(e: EngineState, op: IsaOp) {
    || op.Propagate? || op.Demand? || (op.Reflect? && op.node in e.world.nodes)
    || (op.SetValue? && op.node in e.world.nodes && op.val != e.world.nodes[op.node].value)
  }

  /** The state an instruction hands to `drain_and_stabilize`. */
  function Loaded(e: EngineState, op: IsaOp): EngineState
    requires e.world.Wf() && Drains(e, op)
  {
    match op
    case SetValue(node, v) => WriteValue(e, node, v)
    case Propagate(node) => e.Enqueue(Push(node)).Log(Attribute)
    case Demand(node) => e.Enqueue(DemandItem(node)).Log(Attribute)
    case Reflect(node) => ReflectValue(e.Log(Attribute), node)
  }

  /** The roots are the dirty set, each once, in some order. */
  ghost predicate Lists(dirty: set<Uid>, roots: seq<Uid>) { Distinct(roots) && forall r :: r in roots <==> r in dirty }

  /** The chosen roots list the regions that are dirty when the drain starts. */
  ghost predicate RootsListed(e: EngineState, op: IsaOp, ch: Choices) {
    e.world.Wf() && Drains(e, op) ==> Lists(Loaded(e, op).cache.dirty, ch.roots)
  }

  lemma NotifiedReady(e: EngineState, node: Uid, subs: seq<Uid>, prior: T, next: T)
    requires e.world.Wf() && CacheRunnable(e)
    ensures Notified(e, node, subs, prior, next).world.Wf() && CacheRunnable(Notified(e, node, subs, prior, next))
  {
    BumpAndPushKeeps(Acc(e.world.reg, [], [], NO_STATS), node, subs, prior, next, WriteCtx(e.now));
  }

  lemma WriteValueReady(e: EngineState, node: Uid, v: T)
    requires e.world.Wf() && CacheRunnable(e) && node in e.world.nodes
    ensures WriteValue(e, node, v).world.Wf() && CacheRunnable(WriteValue(e, node, v))
  {
    PutWf(e.world, node, v);
    var e1 := Touch(e.(world := e.world.Put(node, v)), node);
    var e2 := e1.(events := e1.events + [ValueChanged(node, e.world.nodes[node].value, v)]).Log(Attribute);
    NotifiedReady(e2, node, Ascending(e2.world.reg.SubsOf(node)), e.world.nodes[node].value, v);
  }

  lemma ReflectValueReady(e: EngineState, node: Uid)
    requires e.world.Wf() && CacheRunnable(e) && node in e.world.nodes
    ensures ReflectValue(e, node).world.Wf() && CacheRunnable(ReflectValue(e, node))
  {
    var prior := e.world.nodes[node].value;
    var next := MvNeg(prior);
    SetValid(e.world.store, node, next);
    var e1 := e.(world := e.world.(nodes := e.world.nodes[node := Reflected(e.world.nodes[node])], store := e.world.store.Set(node, next)));
    var e2 := if next != prior then Touch(e1, node).(events := e1.events + [ValueChanged(node, prior, next)]) else e1;
    NotifiedReady(e2, node, Ascending(e2.world.reg.SubsOf(node)), prior, next);
  }
}
