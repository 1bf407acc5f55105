/** Where the guarantees end: runs of the engine, from the empty state, that meet every hypothesis of a
    theorem but one and break its conclusion. */
module EngineLimits {
  import opened Base
  import opened Bits
  import opened Ternary
  import opened Rules
  import opened Time
  import opened Isa
  import opened ValueStores
  import opened Deps
  import opened Propagation
  import opened StepFacts
  import opened Draining
  import opened Coherence
  import opened Regions
  import opened RegionRun
  import opened Writes
  import opened EngineModel
  import opened EngineValues
  import opened EngineInvariant
  import opened EngineWiring
  import opened EngineRuns
  import opened LocalConsistency
  import CounterPath
  import EngineRegions
  import RegionCompile
  import opened Eviction

  // ---- reachable states --------------------------------------------------------------------

  /** A run of the engine leads from the empty state to e. */
  ghost predicate Reachable(e: EngineState) {
    exists states, ops, choices :: Leads(states, ops, choices, e)
  }

  ghost predicate Leads(states: seq<EngineState>, ops: seq<IsaOp>, choices: seq<Choices>, e: EngineState) {
    Run(states, ops, choices) && states[0] == EMPTY_ENGINE && states[|ops|] == e
  }

  lemma EmptyReachable()
    ensures Reachable(EMPTY_ENGINE)
  {
    assert Leads([EMPTY_ENGINE], [], [], EMPTY_ENGINE);
  }

  lemma ReachableNext(e: EngineState, op: IsaOp, ch: Choices, e': EngineState)
    requires Reachable(e) && Step(e, op, ch, e')
    ensures Reachable(e')
  {
    hide Step;
    var states, ops, choices :| Leads(states, ops, choices, e);
    assert Leads(states + [e'], ops + [op], choices + [ch], e');
  }

  // ---- building a graph --------------------------------------------------------------------

  const QUIET := Choices(map[], None, [], [], Stabilized({}, Structural))
  const NO_ARTIFACTS := RegionCache(map[], map[], {}, map[])

  function Create(id: Uid, kind: NodeKind): IsaOp { NodeCreate(id, [], kind, map[]) }
  function Wire(id: Uid, src: Uid, tgt: Uid): IsaOp { EdgeConnect(id, [], src, tgt, Local(None)) }

  /** At rest with nothing compiled, the standard step limit and no event left over. */
  ghost predicate Building(e: EngineState) {
    && Inv(e) && e.items == [] && e.demanded == {} && e.events == [] && e.handled == Cleared(|e.handled|)
    && e.cache == NO_ARTIFACTS && NoneStabilizing(e.world.reg) && e.maxSteps == 100_000
  }

  /** The instruction creates a node, joins two by an edge without a port, or subscribes. */
  predicate Adds(e: EngineState, op: IsaOp) {
    || op.NodeCreate?
    || (op.EdgeConnect? && op.dep == Local(None) && op.src in e.world.nodes && op.tgt in e.world.nodes)
    || op.Subscribe?
  }

  /** The world after it. */
  function Added(w: World, op: IsaOp): World
    requires w.store.Shaped() && (op.NodeCreate? || op.EdgeConnect? || op.Subscribe?)
  {
    match op
    case NodeCreate(id, _, kind, _) => World(w.nodes[id := Node(kind, Neg, 0)], w.reg.SetMode(id, Eager), w.store.Alloc(id))
    case EdgeConnect(_, _, src, tgt, _) => Link(w, src, tgt)
    case Subscribe(source, subscriber) => Link(w, source, subscriber)
  }

  lemma EmptyBuilding()
    ensures Building(EMPTY_ENGINE)
  {
    EmptyInv();
    assert Cleared(0) == [];
  }

  /** What an addition leaves besides the world and the edges. */
  ghost predicate Idle(e: EngineState) {
    && e.events == [] && e.items == [] && e.demanded == {} && e.handled == Cleared(|e.handled|)
    && e.cache == NO_ARTIFACTS && NoneStabilizing(e.world.reg) && e.maxSteps == 100_000
  }

  lemma AddNode(e: EngineState, op: IsaOp)
    requires Building(e) && e.world.Wf() && CacheRunnable(e) && op.NodeCreate?
    ensures var e' := Apply(e, op, QUIET).e;
      e'.world == CreateNode(e, op.id, op.kind).world && e'.edges == e.edges && Idle(e')
  {
    WidenedCleared(e.handled, |e.dirtySlots|, |e.world.store.Alloc(op.id).cache|);
    hide Inv, ApplyValues;
  }

  lemma AddEdge(e: EngineState, op: IsaOp)
    requires Building(e) && e.world.Wf() && CacheRunnable(e) && op.EdgeConnect? && Adds(e, op)
    ensures var e' := Apply(e, op, QUIET).e;
      e'.world == Link(e.world, op.src, op.tgt) && e'.edges == e.edges[op.id := Edge(op.src, op.tgt, false)] && Idle(e')
  {
    NothingInvalidated(op.src);
    NothingInvalidated(op.tgt);
    hide Inv, ApplyValues;
  }

  lemma AddSubscription(e: EngineState, op: IsaOp)
    requires Building(e) && e.world.Wf() && CacheRunnable(e) && op.Subscribe?
    ensures var e' := Apply(e, op, QUIET).e;
      e'.world == Link(e.world, op.source, op.subscriber) && e'.edges == e.edges && Idle(e')
  {
    hide Inv, ApplyValues;
  }

  lemma AddStep(e: EngineState, op: IsaOp) returns (e': EngineState)
    requires Building(e) && Reachable(e) && Adds(e, op)
    ensures Building(e') && Reachable(e') && e'.world == Added(e.world, op)
    ensures PlainInv(e) && Plain(e, op, QUIET) ==> PlainInv(e')
    ensures e'.edges == if op.EdgeConnect? then e.edges[op.id := Edge(op.src, op.tgt, false)] else e.edges
  {
    InvReady(e);
    e' := Apply(e, op, QUIET).e;
    AddIsStep(e, op);
    AddedIs(e, op);
    hide Apply, Inv, Link, CreateNode, Step, PlainInv, Reachable, Plain;
    StepKeeps(e, op, QUIET, e');
    ReachableNext(e, op, QUIET, e');
    if PlainInv(e) && Plain(e, op, QUIET) { PlainStep(e, op, QUIET, e'); }
  }

  lemma AddIsStep(e: EngineState, op: IsaOp)
    requires Building(e) && Adds(e, op) && e.world.Wf() && CacheRunnable(e)
    ensures Step(e, op, QUIET, Apply(e, op, QUIET).e)
  {
    hide Inv, Apply;
  }

  lemma AddedIs(e: EngineState, op: IsaOp)
    requires Building(e) && Adds(e, op) && e.world.Wf() && CacheRunnable(e)
    ensures var e' := Apply(e, op, QUIET).e;
      && e'.world == Added(e.world, op) && Idle(e')
      && e'.edges == (if op.EdgeConnect? then e.edges[op.id := Edge(op.src, op.tgt, false)] else e.edges)
  {
    hide Apply, Building, CacheRunnable, Idle, Link;
    match op {
      case NodeCreate(_, _, _, _) => AddNode(e, op);
      case EdgeConnect(_, _, _, _, _) => AddEdge(e, op);
      case Subscribe(_, _) => AddSubscription(e, op);
    }
  }

  lemma NothingInvalidated(node: Uid)
    ensures NO_ARTIFACTS.Invalidate(node) == NO_ARTIFACTS
  {}

  lemma WidenedCleared(handled: seq<Word>, dirty: nat, slots: nat)
    requires handled == Cleared(|handled|)
    ensures (if dirty < Words(slots) then handled + [NO_BITS] else handled)
         == Cleared(|if dirty < Words(slots) then handled + [NO_BITS] else handled|)
  {
    assert handled + [NO_BITS] == Cleared(|handled| + 1);
  }

  lemma AscendingOne(x: Uid)
    ensures Ascending({x}) == [x]
  {
    AscendingElements({x});
    assert Ascending({x})[0] in Ascending({x});
  }

  lemma AscendingTwo(x: Uid, y: Uid)
    requires x < y
    ensures Ascending({x, y}) == [x, y]
  {
    AscendingElements({x, y});
    AscendingSorted({x, y});
    var q := Ascending({x, y});
    assert q[0] in q && q[1] in q && q[0] < q[1];
  }

  // ---- subscribed twice --------------------------------------------------------------------

  /** A MeetAll node that reads an Input node twice over. */
  ghost predicate ReadsTwice(w: World) {
    && w.nodes.Keys == {0, 1} && w.nodes[0].kind == Input && w.nodes[1].kind == Computed(MeetAllRule)
    && 0 in w.store.idx && w.reg.OrderedIdxOf(1) == [w.store.idx[0], w.store.idx[0]]
    && w.reg.SubsOf(0) == {1} && w.reg.ModeOf(1) == Eager && 1 in w.reg.counters
  }

  /** The subscriber's counters when it was subscribed twice and the source moved once: one Neg is
      left of two, while both entries of its list read Pos. */
  ghost predicate Drifted(w: World) {
    && Coherent(w) && ReadsTwice(w) && w.nodes[0].value == Pos && w.nodes[1].value == Neg
    && w.reg.counters[1] == Counters(1, 0, 1)
  }

  lemma DriftedDiffers(w: World, ctx: Ctx, stats: Stats)
    requires Drifted(w)
    ensures FastPath(w, 1) && StepFast(w, 1, ctx, stats) == Nothing(w, stats)
    ensures w.DepVals(1) == [Pos, Pos] && StepScan(w, 1, ctx, stats).val == Some(Pos)
    ensures StepPush(w, 1, ctx, stats) == Nothing(w, stats)
  {
    assert w.DepVals(1) == [Pos, Pos];
    AllPosEval(MeetAllRule, [Pos, Pos]);
  }

  lemma TwiceWorld(w1: World, w2: World, w3: World, w4: World)
    requires w1 == Added(EMPTY_ENGINE.world, Create(0, Input))
    requires w1.store.Shaped() && w2 == Added(w1, Create(1, Computed(MeetAllRule)))
    requires w2.store.Shaped() && w3 == Added(w2, Subscribe(0, 1))
    requires w3.store.Shaped() && w4 == Added(w3, Subscribe(0, 1))
    ensures ReadsTwice(w4) && w4.nodes[0].value == Neg && w4.nodes[1].value == Neg
    ensures w4.reg.counters[1] == Counters(2, 0, 0) && w4.reg.meta.Keys == {(0, 1)}
  {
    assert w2.store.idx == map[0 := 0, 1 := 1] && w2.store.cache == [Neg, Neg];
    assert w3.reg.counters == map[1 := Counters(1, 0, 0)];
    assert w3.reg.OrderedIdxOf(1) == [0];
  }

  lemma TwiceSubscribed() returns (e: EngineState)
    ensures Building(e) && Reachable(e)
    ensures var w := e.world;
      ReadsTwice(w) && w.nodes[0].value == Neg && w.nodes[1].value == Neg && w.reg.counters[1] == Counters(2, 0, 0)
      && w.reg.meta.Keys == {(0, 1)}
  {
    EmptyBuilding();
    EmptyReachable();
    hide Building, Reachable, Added, ReadsTwice, Plain, PlainInv;
    var e1 := AddStep(EMPTY_ENGINE, Create(0, Input));
    BuildingShaped(e1);
    var e2 := AddStep(e1, Create(1, Computed(MeetAllRule)));
    BuildingShaped(e2);
    var e3 := AddStep(e2, Subscribe(0, 1));
    BuildingShaped(e3);
    e := AddStep(e3, Subscribe(0, 1));
    TwiceWorld(e1.world, e2.world, e3.world, e.world);
  }

  lemma BuildingShaped(e: EngineState)
    requires Building(e)
    ensures e.world.store.Shaped() && e.world.Wf()
  {}

  /** The write of the source reaches the counters once, and the counters hold the subscriber back. */
  lemma TwiceWritten(w: World, now: ProductTime)
    requires Coherent(w) && ReadsTwice(w) && w.nodes[0].value == Neg && w.nodes[1].value == Neg && w.reg.counters[1] == Counters(2, 0, 0)
    ensures Drifted(WriteWorld(w, 0, Pos, now)) && forall item :: item in WriteItems(w, 0, Pos, now) ==> item == Push(1)
  {
    WriteKeeps(w, 0, Pos, now);
    TwiceBumped(w, now);
    hide Coherent, WriteWorld, WriteItems;
  }

  lemma TwiceBumped(w: World, now: ProductTime)
    requires w.Wf() && ReadsTwice(w) && w.nodes[0].value == Neg && w.reg.counters[1] == Counters(2, 0, 0)
    ensures var w' := WriteWorld(w, 0, Pos, now);
      && w'.nodes == w.nodes[0 := w.nodes[0].SetValue(Pos)] && w'.store.idx == w.store.idx
      && w'.reg == w.reg.(counters := w'.reg.counters, meta := w'.reg.meta)
      && 1 in w'.reg.counters && w'.reg.counters[1] == Counters(1, 0, 1)
    ensures forall item :: item in WriteItems(w, 0, Pos, now) ==> item == Push(1)
  {
    WriteEffect(w, 0, Pos, now);
    AscendingOne(1);
    var to := Accepted(w.reg, 0, [1], WriteCtx(now));
    AcceptedElements(w.reg, 0, [1], WriteCtx(now));
    PushesElements(to);
    assert Pushes(to) + [] == Pushes(to);
    assert 1 in [1 as Uid];
    hide WriteWorld, WriteItems, Accepted;
  }

  /** The drain does nothing in a drifted world. */
  ghost predicate Idling(w: World, q: Queue) { q.world == w && forall item :: item in q.items ==> item == Push(1) }

  lemma IdlingStep(w: World, q: Queue, now: ProductTime, auth: map<(Uid, Uid), Verdict>)
    requires Drifted(w) && Idling(w, q) && w.Wf() && q.items != []
    ensures Idling(w, DrainStep(q, now, auth, []))
  {
    assert q.items[0] in q.items;
    DriftedDiffers(w, Ctx(now, auth, q.demanded), q.stats.(maxDepth := Larger(q.stats.maxDepth, |q.items|)));
    assert !Handled(w, [], 1);
    assert q.items[1..] + [] == q.items[1..];
    var next := DrainStep(q, now, auth, []);
    assert q.items[0] == Push(1);
    assert next.world == w;
    assert next.items == q.items[1..];
    forall item | item in next.items ensures item == Push(1) { assert item in q.items; }
    hide StepPush, Drifted;
  }

  lemma DriftedDrain(q: Queue, now: ProductTime, auth: map<(Uid, Uid), Verdict>, budget: nat)
    requires Drifted(q.world) && Idling(q.world, q)
    ensures q.world.Wf() && Drain(q, now, auth, [], budget).q.world == q.world
  {
    var w := q.world;
    var inv := (p: Queue) => Idling(w, p);
    forall p: Queue | p.world.Wf() && p.items != [] && inv(p) ensures inv(DrainStep(p, now, auth, [])) {
      IdlingStep(w, p, now, auth);
    }
    var last := DrainInductionAny(q, now, auth, [], budget, inv);
  }

  /** After creating a source and a MeetAll node, subscribing the node twice and writing Pos to the
      source, the node's counters are no histogram of what it reads: the shortcut leaves it Neg where
      the scan would make it Pos. */
  lemma CountersDriftInARun() returns (e: EngineState)
    ensures Reachable(e) && Drifted(e.world)
    ensures e.world.Wf() && 1 in e.world.nodes && e.world.nodes[1].kind.Computed? && FastPath(e.world, 1)
    ensures !CounterPath.Exact(e.world, 1)
    ensures forall ctx, stats :: StepFast(e.world, 1, ctx, stats) != StepScan(e.world, 1, ctx, stats)
  {
    hide Reachable, Building;
    var e0 := TwiceSubscribed();
    TwiceRests(e0);
    hide *;
    e := WrittenTwice(e0);
    DriftedInexact(e.world);
  }

  lemma TwiceRests(e: EngineState)
    requires Building(e) && e.world.reg.meta.Keys == {(0, 1)}
    ensures AtRest(e) && e.cache == NO_ARTIFACTS
  {
    assert |e.world.reg.meta| == |e.world.reg.meta.Keys| == 1;
    hide Inv;
  }

  lemma DriftedInexact(w: World)
    requires Drifted(w)
    ensures w.Wf() && 1 in w.nodes && w.nodes[1].kind.Computed? && FastPath(w, 1) && !CounterPath.Exact(w, 1)
    ensures forall ctx, stats :: StepFast(w, 1, ctx, stats) != StepScan(w, 1, ctx, stats)
  {
    forall ctx, stats ensures StepFast(w, 1, ctx, stats) != StepScan(w, 1, ctx, stats) { DriftedDiffers(w, ctx, stats); }
    DriftedDiffers(w, WriteCtx(ZERO_TIME), NO_STATS);
    HistogramIs([Pos, Pos]);
    HistogramTotal([Pos, Pos]);
    hide StepFast, StepScan;
  }

  lemma WrittenTwice(e0: EngineState) returns (e: EngineState)
    requires AtRest(e0) && Reachable(e0)
    requires ReadsTwice(e0.world) && e0.world.nodes[0].value == Neg && e0.world.nodes[1].value == Neg
    requires e0.world.reg.counters[1] == Counters(2, 0, 0) && e0.cache == NO_ARTIFACTS
    ensures Reachable(e) && Drifted(e.world)
  {
    var now := e0.now.Advance(Attribute);
    TwiceWritten(e0.world, now);
    DriftedDrain(WriteQueue(e0.world, 0, Pos, now, e0.stats), now, map[], e0.maxSteps);
    WriteIsOneDrain(e0, 0, Pos, QUIET);
    e := Call(e0, SetValue(0, Pos), QUIET).e;
    WriteIsStep(e0, 0, Pos);
    hide AtRest, Call, Drain, WriteQueue, Reachable, Step, Drifted;
    ReachableNext(e0, SetValue(0, Pos), QUIET, e);
  }

  /** Without artifacts a write is a step whatever else. */
  lemma WriteIsStep(e: EngineState, n: Uid, v: T)
    requires Inv(e) && e.cache == NO_ARTIFACTS
    ensures Step(e, SetValue(n, v), QUIET, Call(e, SetValue(n, v), QUIET).e)
  {
    InvReady(e);
    if e.world.Wf() && Drains(e.(events := []), SetValue(n, v)) {
      NothingDirty(e.(events := []), n, v);
    }
    hide Inv, Apply, Loaded;
  }

  lemma NothingDirty(e: EngineState, n: Uid, v: T)
    requires e.world.Wf() && Drains(e, SetValue(n, v)) && e.cache == NO_ARTIFACTS
    ensures Loaded(e, SetValue(n, v)).cache.dirty == {}
  {
    hide BumpAndPush;
  }

  // ---- a member created again -----------------------------------------------------------------

  /** The compiled region of node 1, a copy of node 0, over slots 1 and 0. */
  const COPY := Region([1], [Rules.Identity], [1], [0], [0, 1], [0], 0, [0], [0, 1], [0], [Some(0)])
  const COPY_CACHE := RegionCache(map[1 := COPY], map[1 := Pinned], {}, map[0 := [1]])
  const DECLARE := RegionDeclare(1, ExplicitSet([1]), Pinned, CompileEager)
  const COMPILED := QUIET.(compiled := Some(COPY))

  lemma CopyRunnable(slots: nat)
    requires slots >= 2
    ensures COPY.Valid(slots) && RegionCompile.InputsExact(COPY)
  {
    CopyIndexed();
    CopyFits(slots);
    CopyInputs();
    hide IndexFor, RegionCompile.InputsExact, Region.Fits, Region.Topological, Region.HintsTrue, CsrShaped;
  }

  lemma CopyFits(slots: nat)
    requires slots >= 2
    ensures COPY.Shaped() && COPY.Fits(slots) && Distinct(COPY.outputs) && COPY.Topological() && COPY.HintsTrue()
  {
    assert COPY.Deps(0) == [0];
  }

  lemma CopyInputs()
    ensures COPY.Shaped() && RegionCompile.InputsExact(COPY)
  {
    assert COPY.Deps(0) == [0];
    assert COPY.inputs[0] == 0;
  }

  lemma CopyIndexed()
    ensures COPY.Shaped() && COPY.Indexed()
  {
    assert COPY.Deps(0) == [0] && CsrRow(COPY.colInvOffsets, COPY.colInvRows, 0) == [0];
    forall r: nat, c: nat ensures Reads(COPY.depOffsets, COPY.depCols, 1, r, c) <==> r == 0 && c == 0 {}
    assert COPY.colInvKeys[0] == 0;
  }

  /** A source and its copy. */
  ghost predicate Copying(w: World) {
    && w.Wf() && w.nodes.Keys == {0, 1} && w.nodes[0] == Node(Input, Neg, 0) && w.nodes[1] == Node(Computed(Rules.Identity), Neg, 0)
    && w.reg.SubsOf(0) == {1} && w.reg.SubsOf(1) == {} && 0 in w.store.idx && w.store.idx[0] == 0 && 1 in w.store.idx
    && w.reg.OrderedIdxOf(1) == [0] && |w.store.cache| >= 2 && forall d :: 0 <= d < |w.store.cache| ==> w.store.cache[d] == Neg
  }

  lemma CopyWorld(w1: World, w2: World, w3: World)
    requires w1 == Added(EMPTY_ENGINE.world, Create(0, Input))
    requires w1.store.Shaped() && w2 == Added(w1, Create(1, Computed(Rules.Identity)))
    requires w2.store.Shaped() && w3 == Added(w2, Wire(10, 0, 1)) && w3.Wf()
    ensures Copying(w3) && w3.store.idx == map[0 := 0, 1 := 1] && |w3.store.cache| == 2 && w3.reg.DepsOf(1) == {0}
  {}

  lemma CopyBuilt() returns (e: EngineState)
    ensures Building(e) && Reachable(e)
    ensures Copying(e.world) && e.world.store.idx == map[0 := 0, 1 := 1] && |e.world.store.cache| == 2 && e.world.reg.DepsOf(1) == {0}
    ensures e.edges == map[10 := Edge(0, 1, false)]
  {
    EmptyBuilding();
    EmptyReachable();
    hide Building, Reachable, Plain, PlainInv, Copying;
    var e1 := AddStep(EMPTY_ENGINE, Create(0, Input));
    BuildingShaped(e1);
    var e2 := AddStep(e1, Create(1, Computed(Rules.Identity)));
    BuildingShaped(e2);
    e := AddStep(e2, Wire(10, 0, 1));
    BuildingShaped(e);
    CopyWorld(e1.world, e2.world, e.world);
  }

  /** The artifact is what the compiler answers. */
  lemma CopyIsCompiled(w: World)
    requires Copying(w) && w.store.idx == map[0 := 0, 1 := 1] && w.reg.DepsOf(1) == {0}
    ensures RegionCompile.CompiledFrom(w, [1], COPY)
  {
    assert COPY.Deps(0) == [0];
    assert Elements([1]) == {1};
    CopyRunnable(2);
  }

  /** Holding the artifact, with nothing queued, on two or three slots. */
  ghost predicate Holding(e: EngineState) {
    && Copying(e.world) && e.cache == COPY_CACHE && e.items == [] && e.events == []
    && |e.world.store.cache| <= 3 && |e.dirtySlots| == |e.handled| == 1
  }

  lemma CopyDeclared(e: EngineState) returns (e': EngineState)
    requires Building(e) && Reachable(e) && Copying(e.world)
    requires e.world.store.idx == map[0 := 0, 1 := 1] && |e.world.store.cache| == 2
    ensures Reachable(e') && Inv(e') && Holding(e') && e'.world == e.world
  {
    InvReady(e);
    DeclaredIs(e);
    DeclareIsStep(e);
    e' := Apply(e, DECLARE, COMPILED).e;
    hide Inv, Reachable, Step, Apply, Copying;
    ReachableNext(e, DECLARE, COMPILED, e');
    StepKeeps(e, DECLARE, COMPILED, e');
  }

  lemma DeclaredIs(e: EngineState)
    requires Building(e) && e.world.Wf() && CacheRunnable(e)
    ensures Apply(e, DECLARE, COMPILED).e == e.(cache := COPY_CACHE).Log(TimeDim.Identity)
  {
    CopyInserted();
    hide Inv, ApplyValues;
  }

  lemma DeclareIsStep(e: EngineState)
    requires Building(e) && e.world.Wf() && CacheRunnable(e)
    requires Copying(e.world) && e.world.store.idx == map[0 := 0, 1 := 1] && |e.world.store.cache| == 2
    ensures Step(e, DECLARE, COMPILED, Apply(e, DECLARE, COMPILED).e)
  {
    CopyRunnable(2);
    assert Placed(e.world, COPY);
    hide Apply, Inv;
  }

  lemma CopyInserted()
    ensures NO_ARTIFACTS.(contracts := map[1 := Pinned]).Insert(1, COPY, Pinned) == COPY_CACHE
  {
    var cache := NO_ARTIFACTS.(contracts := map[1 := Pinned]);
    ListedOnce(cache, 1, 0);
    assert cache.RootsOf(0) + [1] == [1];
    assert cache.Listed(1, COPY.inputs) == map[0 := [1]];
  }

  lemma ListedOnce(cache: RegionCache, root: Uid, d: nat)
    ensures cache.Listed(root, [d]) == cache.inputTo[d := cache.RootsOf(d) + [root]]
  {
    var inputs := [d];
    assert inputs[..|inputs| - 1] == [];
    assert cache.Listed(root, []) == cache.inputTo;
  }

  /** Created again, node 1 has a third slot; the artifact still writes the second. */
  lemma CopyRecreated(e: EngineState) returns (e': EngineState)
    requires Inv(e) && Holding(e) && e.world.store.idx == map[0 := 0, 1 := 1] && |e.world.store.cache| == 2
    ensures e.world.Wf() && CacheRunnable(e) && e' == Apply(e, Create(1, Computed(Rules.Identity)), QUIET).e
    ensures Holding(e') && e'.world.store.idx[1] == 2 && |e'.world.store.cache| == 3 && CacheRunnable(e')
  {
    InvReady(e);
    RecreatedHolds(e);
    RecreatedIs(e);
    hide *;
    e' := Apply(e, Create(1, Computed(Rules.Identity)), QUIET).e;
    LoggedHolds(CreateNode(e, 1, Computed(Rules.Identity)));
  }

  lemma RecreatedHolds(e: EngineState)
    requires Inv(e) && Holding(e) && e.world.store.idx == map[0 := 0, 1 := 1] && |e.world.store.cache| == 2
    ensures var e' := CreateNode(e, 1, Computed(Rules.Identity));
      Holding(e') && e'.world.store.idx[1] == 2 && |e'.world.store.cache| == 3
  {
    InvRegistry(e);
    CreateNodeCoherent(e.world, 1, Computed(Rules.Identity));
    hide Inv, Coherent;
    CopyAgain(e.world, CreateNode(e, 1, Computed(Rules.Identity)).world);
    hide Copying;
  }

  lemma CopyAgain(w: World, w': World)
    requires Copying(w) && w.store.idx == map[0 := 0, 1 := 1] && |w.store.cache| == 2 && w'.Wf()
    requires w' == World(w.nodes[1 := Node(Computed(Rules.Identity), Neg, 0)], w.reg.SetMode(1, Eager), w.store.Alloc(1))
    ensures Copying(w') && w'.store.idx[1] == 2 && |w'.store.cache| == 3
  {}

  lemma LoggedHolds(e: EngineState)
    requires Holding(e) && e.world.store.idx[1] == 2 && |e.world.store.cache| == 3
    ensures var e' := e.Log(TimeDim.Identity);
      Holding(e') && e'.world.store.idx[1] == 2 && |e'.world.store.cache| == 3 && CacheRunnable(e')
  {
    CopyRunnable(3);
    hide Copying;
  }

  lemma RecreatedIs(e: EngineState)
    requires Holding(e) && e.world.Wf() && CacheRunnable(e)
    ensures Apply(e, Create(1, Computed(Rules.Identity)), QUIET).e == CreateNode(e, 1, Computed(Rules.Identity)).Log(TimeDim.Identity)
  {
    hide ApplyValues, Copying;
  }

  /** The artifact as it is declared is in service: a write of its source is the boundary write that the
      region theorems speak of. */
  lemma CopyServes() returns (e: EngineState)
    ensures Reachable(e) && EngineRegions.InService(e, 1) && EngineRegions.Boundary(e, 1, 0)
  {
    hide Reachable, Building, Inv;
    var built := CopyBuilt();
    e := CopyDeclared(built);
    BuildingQuiet(built);
    CopySatisfied(e);
  }

  lemma BuildingQuiet(e: EngineState)
    requires Building(e)
    ensures NoneStabilizing(e.world.reg)
  {
    hide Inv;
  }

  lemma CopyRowHolds(c: seq<T>)
    requires |c| == 2 && forall d :: 0 <= d < |c| ==> c[d] == Neg
    ensures COPY.Valid(2) && AllSatisfied(COPY, c, 1)
  {
    CopyRunnable(2);
    assert COPY.Deps(0) == [0] && Gather(c, COPY.Deps(0)) == [Neg];
  }

  lemma CopySealed(w: World)
    requires Copying(w) && w.store.idx == map[0 := 0, 1 := 1]
    ensures COPY.Shaped() && EngineRegions.Sealed(w, COPY)
  {
    assert COPY.Deps(0) == [0] && 1 in COPY.members;
  }

  lemma CopyListed()
    ensures forall c :: c in COPY.inputs ==> 1 in COPY_CACHE.RootsOf(c)
    ensures COPY.inputs[0] == 0 && COPY_CACHE.regions == map[1 := COPY]
  {
    assert COPY_CACHE.RootsOf(0)[0] == 1;
  }

  lemma CopySatisfied(e: EngineState)
    requires Inv(e) && Holding(e) && NoneStabilizing(e.world.reg)
    requires e.world.store.idx == map[0 := 0, 1 := 1] && |e.world.store.cache| == 2
    ensures EngineRegions.InService(e, 1) && EngineRegions.Boundary(e, 1, 0)
  {
    hide *;
    HoldingParts(e);
    CopyRunnable(2);
    CopyRowHolds(e.world.store.cache);
    CopySealed(e.world);
    CopyListed();
    CopyInService(e);
  }

  lemma HoldingParts(e: EngineState)
    requires Holding(e)
    ensures Copying(e.world) && e.cache == COPY_CACHE && e.items == []
    ensures 0 in e.world.nodes && forall d :: 0 <= d < |e.world.store.cache| ==> e.world.store.cache[d] == Neg
  {}

  lemma CopyInService(e: EngineState)
    requires Inv(e) && NoneStabilizing(e.world.reg) && e.items == [] && e.cache == COPY_CACHE && COPY_CACHE.regions == map[1 := COPY]
    requires |e.world.store.cache| == 2 && COPY.Valid(2) && RegionCompile.InputsExact(COPY) && AllSatisfied(COPY, e.world.store.cache, 1)
    requires EngineRegions.Sealed(e.world, COPY) && (forall c :: c in COPY.inputs ==> 1 in COPY_CACHE.RootsOf(c))
    requires 0 in e.world.nodes && e.world.store.idx == map[0 := 0, 1 := 1] && COPY.inputs[0] == 0
    ensures EngineRegions.InService(e, 1) && EngineRegions.Boundary(e, 1, 0)
  {
    hide *;
    CopyAlone();
    NoItems(e.items);
    EngineRegions.ServiceFrom(e, 1, COPY);
    CopyBoundary(e);
  }

  lemma CopyAlone()
    ensures COPY.Rows() == 1 && COPY.Shaped() && EngineRegions.Alone(map[1 := COPY], 1)
  {}

  lemma NoItems(items: seq<WorkItem>)
    requires items == []
    ensures NoStabilizeItems(items)
  {}

  lemma CopyBoundary(e: EngineState)
    requires e.cache.regions == map[1 := COPY] && 0 in e.world.nodes && e.world.store.idx == map[0 := 0, 1 := 1] && COPY.inputs[0] == 0
    ensures EngineRegions.Boundary(e, 1, 0)
  {}

  // ---- the write that follows ---------------------------------------------------------------

  /** The state handed to the drain: the source holds Pos, its slot is dirty, and so is the artifact. */
  lemma CopyWritten(e: EngineState)
    requires Holding(e) && e.world.store.idx[1] == 2 && |e.world.store.cache| == 3
    ensures var w, out := e.world, WriteValue(e, 0, Pos);
      && out.world.Wf() && out.world.store.cache == [Pos, Neg, Neg] && out.world.store.idx == w.store.idx
      && out.world.nodes.Keys == {0, 1} && out.world.nodes[1] == w.nodes[1] && out.world.reg.SubsOf(1) == {}
      && out.cache.regions == COPY_CACHE.regions && Test(out.dirtySlots, 0) && |out.dirtySlots| == |out.handled| == 1
      && Unasked(out.events) && AllPushes(out.items) && forall item :: item in out.items ==> item == Push(1)
  {
    var w, now := e.world, e.now.Advance(Attribute);
    assert w.store.cache == [Neg, Neg, Neg];
    PutWf(w, 0, Pos);
    AscendingOne(1);
    CopyNotified(w, now);
    TestSet(e.dirtySlots, 0, 0);
    var e2 := PutValue(e, 0, Pos);
    assert e2.world == w.Put(0, Pos) && e2.now == now && e2.items == [];
    var a := Notify(w.reg, 0, Neg, Pos, now);
    assert WriteValue(e, 0, Pos) == e2.WithReg(a.reg).(items := [] + a.work);
    hide BumpAndPush;
  }

  lemma CopyNotified(w: World, now: ProductTime)
    requires Copying(w)
    ensures var a := Notify(w.reg, 0, Neg, Pos, now);
      && a.reg.subs == w.reg.subs && a.reg.orderedIdx == w.reg.orderedIdx
      && AllPushes(a.work) && forall item :: item in a.work ==> item == Push(1)
  {
    WriteEffect(w, 0, Pos, now);
    AscendingOne(1);
    var to := Accepted(w.reg, 0, [1], WriteCtx(now));
    AcceptedElements(w.reg, 0, [1], WriteCtx(now));
    PushesElements(to);
    assert Pushes(to) + [] == Pushes(to);
  }

  /** What the write hands to the region run. */
  ghost predicate Dirtied(e: EngineState) {
    && e.world.Wf() && CacheRunnable(e) && e.world.store.cache == [Pos, Neg, Neg]
    && 1 in e.world.store.idx && e.world.store.idx[1] == 2
    && 1 in e.world.nodes && e.world.nodes[1].value == Neg && e.world.reg.SubsOf(1) == {}
    && e.cache.regions == COPY_CACHE.regions && Test(e.dirtySlots, 0) && |e.dirtySlots| == |e.handled| == 1
    && Unasked(e.events) && forall item :: item in e.items ==> item == Push(1)
  }

  /** The run of the artifact gives the graph Pos for node 1, and leaves Neg in its slot. */
  ghost predicate Split(e: EngineState) {
    && e.world.Wf() && 1 in e.world.nodes && e.world.nodes[1].value == Pos && 1 in e.world.store.idx
    && e.world.store.idx[1] == 2 && e.world.store.cache == [Pos, Pos, Neg] && Handled(e.world, e.handled, 1)
    && Unasked(e.events) && forall item :: item in e.items ==> item == Push(1)
  }

  lemma CopyEvaluated(dirty: seq<Word>)
    requires Test(dirty, 0)
    ensures COPY.Valid(3)
    ensures IncEval(COPY, [Pos, Neg, Neg], dirty) == [Pos, Pos, Neg]
    ensures Changes(COPY, [Pos, Neg, Neg], [Pos, Pos, Neg], 1) == [(1, Neg, Pos)]
  {
    CopyRunnable(3);
    var c0 := [Pos, Neg, Neg];
    assert COPY.Deps(0) == [0];
    assert 0 in COPY.Deps(0);
    assert RowDirty(COPY, 0, dirty);
    assert Gather(c0, COPY.Deps(0)) == [Pos];
    assert IncRows(COPY, c0, dirty, 0) == c0;
    assert IncRows(COPY, c0, dirty, 1) == c0[1 := Pos];
    assert Changes(COPY, c0, [Pos, Pos, Neg], 0) == [];
  }

  /** The run before its change is synced. */
  ghost predicate Unsynced(e: EngineState) {
    && e.world.Wf() && e.world.store.cache == [Pos, Pos, Neg] && 1 in e.world.store.idx && e.world.store.idx[1] == 2
    && 1 in e.world.nodes && e.world.nodes[1].value == Neg && e.world.reg.SubsOf(1) == {}
    && Test(e.handled, 2) && Unasked(e.events) && forall item :: item in e.items ==> item == Push(1)
  }

  lemma CopyRan(e: EngineState)
    requires Dirtied(e) && 1 in e.cache.regions
    requires e.cache.regions[1].Runnable(|e.world.store.cache|)
    ensures Split(RunRegion(e, 1))
  {
    CopyRanIs(e);
    hide *;
    CopySynced(Ran(e, COPY));
  }

  lemma CopyRanIs(e: EngineState)
    requires Dirtied(e) && 1 in e.cache.regions
    requires e.cache.regions[1].Runnable(|e.world.store.cache|)
    ensures COPY.Runnable(|e.world.store.cache|) && Unsynced(Ran(e, COPY))
    ensures RunRegion(e, 1) == SyncChanges(Ran(e, COPY), [1], [(1, Neg, Pos)])
  {
    CopyEvaluated(e.dirtySlots);
    hide IncEval, Changes, SyncChanges, CacheRunnable;
    RanUnsynced(e);
  }

  lemma RanUnsynced(e: EngineState)
    requires Dirtied(e) && COPY.Runnable(|e.world.store.cache|) && IncEval(COPY, e.world.store.cache, e.dirtySlots) == [Pos, Pos, Neg]
    ensures Unsynced(Ran(e, COPY))
  {
    StoreOfValid([Pos, Pos, Neg], e.world.store.idx);
    EngineRegions.MarkHandledSets(e.handled, e.world.store.idx, [1], 1);
    hide IncEval, Changes, CacheRunnable;
  }

  lemma CopySynced(e: EngineState)
    requires Unsynced(e)
    ensures Split(SyncChanges(e, [1], [(1, Neg, Pos)]))
  {
    SyncedIs(e);
    hide SyncChanges;
  }

  lemma SyncedIs(e: EngineState)
    requires 1 in e.world.nodes && e.world.reg.SubsOf(1) == {}
    ensures var out := SyncChanges(e, [1], [(1, Neg, Pos)]);
      && out == e.(world := e.world.(nodes := e.world.nodes[1 := e.world.nodes[1].SetValue(Pos)]),
                   events := e.events + [ValueChanged(1, Neg, Pos)])
  {
    var changes: seq<(Uid, T, T)> := [(1, Neg, Pos)];
    assert changes[..|changes| - 1] == [];
    assert SyncChanges(e, [1], []) == e;
    assert e.items + [] == e.items;
  }

  /** With node 1 handled, the pushes the write queued are dropped. */
  ghost predicate Dropping(w: World, events: seq<PropEvent>, q: Queue) {
    q.world == w && q.events == events && forall item :: item in q.items ==> item == Push(1)
  }

  lemma DropStep(w: World, events: seq<PropEvent>, q: Queue, now: ProductTime, auth: map<(Uid, Uid), Verdict>, handled: seq<Word>)
    requires w.Wf() && Handled(w, handled, 1) && Dropping(w, events, q) && q.items != []
    ensures Dropping(w, events, DrainStep(q, now, auth, handled))
  {
    assert q.items[0] in q.items;
    forall item | item in q.items[1..] ensures item == Push(1) { assert item in q.items; }
  }

  lemma SplitSettles(e: EngineState, auth: map<(Uid, Uid), Verdict>, rounds: seq<seq<Stabilized>>)
    requires Split(e)
    ensures Settle(e, auth, rounds).e.world == e.world
  {
    var w, events := e.world, e.events;
    var inv := (p: Queue) => Dropping(w, events, p);
    forall p: Queue | p.world.Wf() && p.items != [] && inv(p) ensures inv(DrainStep(p, e.now, auth, e.handled)) {
      DropStep(w, events, p, e.now, auth, e.handled);
    }
    var last := DrainInductionAny(QueueOf(e), e.now, auth, e.handled, e.maxSteps, inv);
    UnaskedRequests(events);
    hide Drain;
  }

  lemma DirtiedDrains(e: EngineState)
    requires Dirtied(e)
    ensures var out := DrainAndStabilize(e, [1], map[], []).e;
      1 in out.world.nodes && out.world.nodes[1].value == Pos && 1 in out.world.store.idx
      && out.world.store.idx[1] == 2 && out.world.store.cache == [Pos, Pos, Neg]
  {
    var e0 := e.(cache := e.cache.(dirty := {}));
    assert Dirtied(e0);
    CopyRan(e0);
    OneRegion(e0, 1);
    var e1 := RunRegions(e0, [1]);
    var e2 := e1.(dirtySlots := Cleared(|e1.dirtySlots|));
    assert Split(e2);
    SplitSettles(e2, map[], []);
    hide RunRegion, RunRegions, Settle;
  }

  lemma OneRegion(e: EngineState, root: Uid)
    requires e.world.Wf() && CacheRunnable(e)
    ensures RunRegions(e, [root]) == RunRegion(e, root)
  {
    assert [root][..|[root]| - 1] == [];
    assert RunRegions(e, []) == e;
  }

  /** Why a member of a cached artifact must not be created again: from the empty engine, create a source
      and its copy, compile the copy, create the copy again, and write the source. The first four steps
      are a run; after the last the graph gives the copy Pos and its slot Neg. */
  lemma RecreatedMemberDiverges() returns (e: EngineState, again: EngineState, out: EngineState)
    ensures Reachable(e) && Inv(e) && e.cache.regions == map[1 := COPY] && RegionCompile.CompiledFrom(e.world, [1], COPY)
    ensures e.world.Wf() && CacheRunnable(e) && again == Apply(e, Create(1, Computed(Rules.Identity)), QUIET).e
    ensures again.world.Wf() && CacheRunnable(again) && out == Apply(again, SetValue(0, Pos), QUIET.(roots := [1])).e
    ensures !Mirrored(out.world)
  {
    hide Reachable, Building, Inv, Copying, Holding, CacheRunnable, Dirtied, Apply, DrainAndStabilize;
    var built := CopyBuilt();
    CopyIsCompiled(built.world);
    e := CopyDeclared(built);
    HoldingCache(e);
    again := CopyRecreated(e);
    RecreatedWritten(again);
    out := Apply(again, SetValue(0, Pos), QUIET.(roots := [1])).e;
    hide Mirrored, RegionCompile.CompiledFrom;
  }

  lemma HoldingCache(e: EngineState)
    requires Holding(e)
    ensures e.cache.regions == map[1 := COPY] && e.world.Wf() && e.world.store.Shaped()
  {}

  lemma RecreatedWritten(e: EngineState)
    requires Holding(e) && e.world.store.idx[1] == 2 && |e.world.store.cache| == 3 && CacheRunnable(e)
    ensures e.world.Wf() && !Mirrored(Apply(e, SetValue(0, Pos), QUIET.(roots := [1])).e.world)
  {
    CopyWritten(e);
    WriteValueReady(e, 0, Pos);
    assert Dirtied(WriteValue(e, 0, Pos));
    DirtiedDrains(WriteValue(e, 0, Pos));
    assert e.(events := []) == e;
    WrittenApply(e);
    hide WriteValue, DrainAndStabilize, Dirtied, Apply;
  }

  lemma WrittenApply(e: EngineState)
    requires Holding(e) && CacheRunnable(e)
    ensures e.world.Wf() && 0 in e.world.nodes
    ensures var e1 := WriteValue(e, 0, Pos);
      e1.world.Wf() && CacheRunnable(e1)
      && Apply(e, SetValue(0, Pos), QUIET.(roots := [1])) == DrainAndStabilize(e1, [1], map[], [])
  {
    WriteValueReady(e, 0, Pos);
    assert e.(events := []) == e;
    hide WriteValue, DrainAndStabilize;
  }

  // ---- a source deleted under a tracked artifact ----------------------------------------------------

  const DECLARE_TRACKED := RegionDeclare(1, ExplicitSet([1]), EpochTracked, CompileEager)

  lemma TrackedDeclared(e: EngineState) returns (e': EngineState)
    requires Building(e) && Reachable(e) && Copying(e.world)
    requires e.world.store.idx == map[0 := 0, 1 := 1] && |e.world.store.cache| == 2
    ensures Reachable(e') && Inv(e') && e'.world == e.world && e'.edges == e.edges
    ensures e'.cache.regions == map[1 := COPY] && e'.cache.contracts == map[1 := EpochTracked]
  {
    InvReady(e);
    e' := Apply(e, DECLARE_TRACKED, COMPILED).e;
    TrackedIs(e);
    TrackedIsStep(e);
    hide Inv, Reachable, Step, Apply, Copying, Building;
    ReachableNext(e, DECLARE_TRACKED, COMPILED, e');
    StepKeeps(e, DECLARE_TRACKED, COMPILED, e');
  }

  lemma TrackedIs(e: EngineState)
    requires Building(e) && e.world.Wf() && CacheRunnable(e)
    ensures var e' := Apply(e, DECLARE_TRACKED, COMPILED).e;
      e'.world == e.world && e'.edges == e.edges && e'.cache.regions == map[1 := COPY] && e'.cache.contracts == map[1 := EpochTracked]
  {
    hide Inv, ApplyValues, RegionCache.Listed;
  }

  lemma TrackedIsStep(e: EngineState)
    requires Building(e) && e.world.Wf() && CacheRunnable(e)
    requires Copying(e.world) && e.world.store.idx == map[0 := 0, 1 := 1] && |e.world.store.cache| == 2
    ensures Step(e, DECLARE_TRACKED, COMPILED, Apply(e, DECLARE_TRACKED, COMPILED).e)
  {
    CopyRunnable(2);
    assert Placed(e.world, COPY);
    hide Apply, Inv;
  }

  lemma CopyIsExact(w: World)
    requires Copying(w) && w.store.idx == map[0 := 0, 1 := 1] && w.reg.DepsOf(1) == {0}
    ensures Exact(w, COPY)
  {
    assert COPY.Deps(0) == [0];
  }

  lemma CopyIsRead(e: EngineState)
    requires e.world.store.idx == map[0 := 0, 1 := 1] && e.world.reg.DepsOf(1) == {0} && e.edges == map[10 := Edge(0, 1, false)]
    requires e.cache.regions == map[1 := COPY] && e.cache.contracts == map[1 := EpochTracked]
    ensures Tracked(e.cache, 1) && !KeepsColumns(e, DelNode(0), QUIET)
  {
    assert 1 in COPY.members;
    assert TrackedReader(e, 1, 1, 0);
  }

  /** Deleting a source evicts only the artifacts that cover it: from the empty engine, create a source and its copy,
      compile the copy as tracked, and delete the source. The artifact stays, and its row goes on reading the slot of
      a node that the copy no longer depends on. */
  lemma SourceDeletionStales() returns (e: EngineState)
    ensures Reachable(e) && Inv(e) && Current(e) && Tracked(e.cache, 1) && e.cache.regions == map[1 := COPY]
    ensures !Current(Call(e, DelNode(0), QUIET).e)
  {
    hide *;
    var built := CopyBuilt();
    e := TrackedDeclared(built);
    CopyIsExact(e.world);
    OnlyCopy(e);
    CopyIsRead(e);
    KeepsCurrentExactly(e, DelNode(0), QUIET);
  }

  lemma OnlyCopy(e: EngineState)
    requires e.cache.regions == map[1 := COPY] && Exact(e.world, COPY)
    ensures Current(e)
  {
    hide Exact;
  }
}
