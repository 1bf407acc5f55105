/** Every instruction, and so every run, keeps the engine's invariant. */
module EngineInvariant {
  import opened Base
  import opened Bits
  import opened Ternary
  import opened Time
  import opened Isa
  import opened ValueStores
  import opened Deps
  import opened Propagation
  import opened Coherence
  import opened Regions
  import opened RegionRun
  import opened EngineModel
  import opened EngineValues
  import opened RegistryFacts

  // ---- the registry moves ------------------------------------------------------------------

  /** No metadata is new or changed. */
  ghost predicate MetaWithin(reg: Registry, reg': Registry) {
    forall p :: p in reg'.meta ==> p in reg.meta && reg'.meta[p] == reg.meta[p]
  }

  lemma {:induction false} UnsubscribeAllMeta(reg: Registry, srcs: seq<Uid>, sub: Uid)
    ensures MetaWithin(reg, reg.UnsubscribeAll(srcs, sub))
    decreases |srcs|
  {
    if srcs != [] {
      var before := reg.UnsubscribeAll(srcs[..|srcs| - 1], sub);
      UnsubscribeAllMeta(reg, srcs[..|srcs| - 1], sub);
      UnsubscribeMeta(before, srcs[|srcs| - 1], sub);
    }
  }

  lemma UnsubscribeMeta(reg: Registry, src: Uid, sub: Uid)
    ensures reg.Unsubscribe(src, sub).meta == reg.meta - {(src, sub)}
  {}

  lemma {:induction false} DetachAllMeta(reg: Registry, id: Uid, subList: seq<Uid>)
    ensures MetaWithin(reg, reg.DetachAll(id, subList))
    decreases |subList|
  {
    if subList != [] {
      var before := reg.DetachAll(id, subList[..|subList| - 1]);
      DetachAllMeta(reg, id, subList[..|subList| - 1]);
      DetachMeta(before, id, subList[|subList| - 1]);
    }
  }

  lemma DetachMeta(reg: Registry, id: Uid, sub: Uid)
    ensures reg.Detach(id, sub).meta == reg.meta - {(id, sub)}
  {}

  lemma RemoveNodeMeta(reg: Registry, id: Uid)
    ensures MetaWithin(reg, reg.RemoveNode(id))
  {
    var up := reg.UnsubscribeAll(Ascending(reg.DepsOf(id)), id);
    UnsubscribeAllMeta(reg, Ascending(reg.DepsOf(id)), id);
    DetachAllMeta(up, id, Ascending(up.SubsOf(id)));
  }

  /** What the invariant asks of a registry, over a store of this many slots. */
  ghost predicate RegistryOk(reg: Registry, slots: nat, now: ProductTime) {
    Related(reg) && IdxBelow(reg, slots) && ClockAhead(reg, now)
  }

  lemma SubscribeOk(reg: Registry, src: Uid, sub: Uid, dense: Option<nat>, slots: nat, now: ProductTime)
    requires RegistryOk(reg, slots, now) && (dense.Some? ==> dense.value < slots)
    ensures RegistryOk(reg.Subscribe(src, sub, dense), slots, now)
  {
    RelatedIsRelation(reg);
    SubscribeRelation(reg, src, sub, dense, Pairs(reg));
    RelationIsRelated(reg.Subscribe(src, sub, dense), Pairs(reg) + iset{(src, sub)});
    SubscribeBelow(reg, src, sub, dense, slots);
  }

  lemma UnsubscribeOk(reg: Registry, src: Uid, sub: Uid, slots: nat, now: ProductTime)
    requires RegistryOk(reg, slots, now)
    ensures RegistryOk(reg.Unsubscribe(src, sub), slots, now)
  {
    RelatedIsRelation(reg);
    UnsubscribeRelation(reg, src, sub, Pairs(reg));
    RelationIsRelated(reg.Unsubscribe(src, sub), Pairs(reg) - iset{(src, sub)});
    UnsubscribeBelow(reg, src, sub, slots);
    UnsubscribeMeta(reg, src, sub);
  }

  lemma RemoveNodeOk(reg: Registry, id: Uid, slots: nat, now: ProductTime)
    requires RegistryOk(reg, slots, now)
    ensures RegistryOk(reg.RemoveNode(id), slots, now)
  {
    RelatedIsRelation(reg);
    RemoveNodeRelation(reg, id, Pairs(reg));
    RelationIsRelated(reg.RemoveNode(id), Apart(Pairs(reg), id));
    RemoveNodeBelow(reg, id, slots);
    RemoveNodeMeta(reg, id);
  }

  /** Modes and counters are free. */
  lemma SideTablesOk(reg: Registry, reg': Registry, slots: nat, now: ProductTime)
    requires RegistryOk(reg, slots, now) && reg' == reg.(modes := reg'.modes, counters := reg'.counters)
    ensures RegistryOk(reg', slots, now)
  {
    SameShapeRelated(reg, reg');
  }

  // ---- worlds and engines ----------------------------------------------------------------------

  lemma InvRegistry(e: EngineState)
    requires Inv(e)
    ensures RegistryOk(e.world.reg, |e.world.store.cache|, e.now)
  {
    forall n, k | n in e.world.reg.orderedIdx && 0 <= k < |e.world.reg.orderedIdx[n]|
      ensures e.world.reg.orderedIdx[n][k] < |e.world.store.cache|
    {
      assert e.world.InRange(e.world.reg.orderedIdx[n]);
    }
  }

  /** The registry, the edges and the cached artifacts may change while nodes and store stand. */
  lemma StructureInv(e: EngineState, e': EngineState)
    requires Inv(e) && e'.world == e.world.(reg := e'.world.reg) && RegistryOk(e'.world.reg, |e.world.store.cache|, e'.now)
    requires EdgesLive(e') && e'.cache.regions.Keys <= e.cache.regions.Keys
    requires forall root :: root in e'.cache.regions ==> e'.cache.regions[root] == e.cache.regions[root]
    requires |e'.dirtySlots| == |e.dirtySlots| && |e'.handled| == |e.handled|
    ensures Inv(e')
  {
    forall root | root in e'.cache.regions ensures Placed(e'.world, e'.cache.regions[root]) {
      assert Placed(e.world, e.cache.regions[root]);
    }
    forall n | n in e'.world.reg.orderedIdx ensures e'.world.InRange(e'.world.reg.orderedIdx[n]) {}
  }

  lemma InvalidateWithin(cache: RegionCache, node: Uid)
    ensures var cache' := cache.Invalidate(node);
      cache'.regions.Keys <= cache.regions.Keys && forall root :: root in cache'.regions ==> cache'.regions[root] == cache.regions[root]
  {}

  lemma CreateNodeCoherent(w: World, id: Uid, kind: NodeKind)
    requires Coherent(w) && IdxBelow(w.reg, |w.store.cache|)
    ensures Coherent(World(w.nodes[id := Node(kind, Neg, 0)], w.reg.SetMode(id, Eager), w.store.Alloc(id)))
  {
    var w' := World(w.nodes[id := Node(kind, Neg, 0)], w.reg.SetMode(id, Eager), w.store.Alloc(id));
    AllocValid(w.store, id);
    SameShapeRelated(w.reg, w'.reg);
    forall n | n in w'.reg.orderedIdx ensures w'.InRange(w'.reg.orderedIdx[n]) {}
  }

  /** The node is a member of no cached artifact. */
  predicate InNoRegion(regions: map<Uid, Region>, id: Uid) {
    forall root :: root in regions ==> id !in regions[root].members
  }

  lemma CreateNodeKeeps(e: EngineState, id: Uid, kind: NodeKind)
    requires Inv(e) && InNoRegion(e.cache.regions, id)
    ensures Inv(CreateNode(e, id, kind))
  {
    var w, e' := e.world, CreateNode(e, id, kind);
    InvRegistry(e);
    CreateNodeCoherent(w, id, kind);
    AllPlacedGrow(w, e'.world, e.cache.regions, id);
    hide Coherent, Placed;
  }

  lemma AllPlacedGrow(w: World, w': World, regions: map<Uid, Region>, id: Uid)
    requires AllPlaced(w, regions) && InNoRegion(regions, id)
    requires w'.store.idx == w.store.idx[id := |w.store.cache|] && |w'.store.cache| == |w.store.cache| + 1
    ensures AllPlaced(w', regions)
  {
    forall root | root in regions ensures Placed(w', regions[root]) {
      assert Placed(w, regions[root]);
      PlacedGrows(w, w', regions[root], id);
    }
  }

  lemma PlacedGrows(w: World, w': World, r: Region, id: Uid)
    requires Placed(w, r) && id !in r.members
    requires w'.store.idx == w.store.idx[id := |w.store.cache|] && |w'.store.cache| == |w.store.cache| + 1
    ensures Placed(w', r)
  {}

  /** A member created again gets a new slot, while its artifact goes on writing the old one. */
  lemma MemberMoves(e: EngineState, id: Uid, kind: NodeKind, root: Uid)
    requires Inv(e) && root in e.cache.regions && id in e.cache.regions[root].members
    ensures !Placed(CreateNode(e, id, kind).world, e.cache.regions[root])
  {
    var r := e.cache.regions[root];
    assert Placed(e.world, r);
    var i :| 0 <= i < r.Rows() && r.members[i] == id;
    assert r.outputs[i] < |e.world.store.cache|;
    assert CreateNode(e, id, kind).world.store.idx[id] == |e.world.store.cache|;
  }

  /** Creating a node, new or again, keeps the invariant exactly when it is a member of no cached artifact. */
  lemma CreateNodeKeepsExactly(e: EngineState, id: Uid, kind: NodeKind)
    requires Inv(e)
    ensures Inv(CreateNode(e, id, kind)) <==> InNoRegion(e.cache.regions, id)
  {
    if InNoRegion(e.cache.regions, id) {
      CreateNodeKeeps(e, id, kind);
    } else {
      var root :| root in e.cache.regions && id in e.cache.regions[root].members;
      MemberMoves(e, id, kind, root);
      assert CreateNode(e, id, kind).cache.regions[root] == e.cache.regions[root];
      hide Placed, Coherent;
    }
  }

  lemma LinkOk(w: World, src: Uid, tgt: Uid, now: ProductTime)
    requires w.store.Valid() && RegistryOk(w.reg, |w.store.cache|, now)
    ensures RegistryOk(Link(w, src, tgt).reg, |w.store.cache|, now) && Link(w, src, tgt) == w.(reg := Link(w, src, tgt).reg)
  {
    SubscribeOk(w.reg, src, tgt, SlotOf(w, src), |w.store.cache|, now);
    SideTablesOk(w.reg.Subscribe(src, tgt, SlotOf(w, src)), Link(w, src, tgt).reg, |w.store.cache|, now);
  }

  lemma UnlinkOk(w: World, src: Uid, tgt: Uid, now: ProductTime)
    requires w.store.Valid() && RegistryOk(w.reg, |w.store.cache|, now)
    ensures RegistryOk(Unlink(w, src, tgt).reg, |w.store.cache|, now) && Unlink(w, src, tgt) == w.(reg := Unlink(w, src, tgt).reg)
  {
    SideTablesOk(w.reg, w.reg.RemoveFromCounter(tgt, w.store.Get(src)), |w.store.cache|, now);
    UnsubscribeOk(w.reg.RemoveFromCounter(tgt, w.store.Get(src)), src, tgt, |w.store.cache|, now);
  }

  lemma ConnectKeeps(e: EngineState, id: Uid, src: Uid, tgt: Uid, dep: DepKind)
    requires Inv(e) && src in e.world.nodes && tgt in e.world.nodes
    ensures Inv(Connect(e, id, src, tgt, dep))
  {
    var slots := |e.world.store.cache|;
    InvRegistry(e);
    SideTablesOk(e.world.reg, InferMode(e.world.reg, tgt, dep), slots, e.now);
    LinkOk(e.world.(reg := InferMode(e.world.reg, tgt, dep)), src, tgt, e.now);
    InvalidateWithin(e.cache, src);
    InvalidateWithin(e.cache.Invalidate(src), tgt);
    ConnectTables(e, id, src, tgt, dep);
    hide Coherent, Placed, RegistryOk, Connect;
    StructureInv(e, Connect(e, id, src, tgt, dep));
  }

  /** What a connection leaves of the edges, the artifacts and the bits. */
  lemma ConnectTables(e: EngineState, id: Uid, src: Uid, tgt: Uid, dep: DepKind)
    requires e.world.store.Shaped() && EdgesLive(e) && src in e.world.nodes && tgt in e.world.nodes
    ensures var e' := Connect(e, id, src, tgt, dep);
      && e'.world == Link(e.world.(reg := InferMode(e.world.reg, tgt, dep)), src, tgt) && EdgesLive(e') && e'.now == e.now
      && e'.cache == e.cache.Invalidate(src).Invalidate(tgt) && e'.dirtySlots == e.dirtySlots && e'.handled == e.handled
  {
    hide InferMode;
  }

  lemma RemoveEdgeKeeps(e: EngineState, id: Uid)
    requires Inv(e) && id in e.edges
    ensures Inv(RemoveEdge(e, id))
  {
    InvRegistry(e);
    UnlinkOk(e.world, e.edges[id].src, e.edges[id].tgt, e.now);
    StructureInv(e, RemoveEdge(e, id));
  }

  lemma {:induction false} RemoveEdgesKeep(e: EngineState, ids: seq<Uid>)
    requires Inv(e)
    ensures Inv(RemoveEdges(e, ids)) && RemoveEdges(e, ids).now == e.now
    decreases |ids|
  {
    if ids != [] {
      var before := RemoveEdges(e, ids[..|ids| - 1]);
      RemoveEdgesKeep(e, ids[..|ids| - 1]);
      if ids[|ids| - 1] in before.edges { RemoveEdgeKeeps(before, ids[|ids| - 1]); }
    }
  }

  lemma DeleteEdgeKeeps(e: EngineState, id: Uid)
    requires Inv(e) && id in e.edges
    ensures Inv(DeleteEdge(e, id))
  {
    var src, tgt := e.edges[id].src, e.edges[id].tgt;
    var e1 := e.(cache := e.cache.Invalidate(src).Invalidate(tgt));
    InvalidateWithin(e.cache, src);
    InvalidateWithin(e.cache.Invalidate(src), tgt);
    InvRegistry(e);
    StructureInv(e, e1);
    RemoveEdgeKeeps(e1, id);
  }

  /** Taking a node out of the graph once no edge ends at it. */
  lemma DropNodeKeeps(e: EngineState, id: Uid)
    requires Inv(e) && forall edge :: edge in e.edges ==> e.edges[edge].src != id && e.edges[edge].tgt != id
    ensures Inv(e.(world := World(e.world.nodes - {id}, e.world.reg.RemoveNode(id), e.world.store.Set(id, Neg)),
                   cache := e.cache.Invalidate(id)))
  {
    var w := World(e.world.nodes - {id}, e.world.reg.RemoveNode(id), e.world.store.Set(id, Neg));
    var e' := e.(world := w, cache := e.cache.Invalidate(id));
    InvRegistry(e);
    RemoveNodeOk(e.world.reg, id, |e.world.store.cache|, e.now);
    SetValid(e.world.store, id, Neg);
    InvalidateWithin(e.cache, id);
    forall root | root in e'.cache.regions ensures Placed(w, e'.cache.regions[root]) {
      assert Placed(e.world, e.cache.regions[root]);
    }
    forall n | n in w.reg.orderedIdx ensures w.InRange(w.reg.orderedIdx[n]) {}
  }

  lemma DeleteNodeKeeps(e: EngineState, id: Uid)
    requires Inv(e)
    ensures Inv(DeleteNode(e, id))
  {
    var ids := Ascending(Incident(e, id));
    AscendingElements(Incident(e, id));
    RemoveEdgesKeep(e, ids);
    var e1 := RemoveEdges(e, ids);
    forall edge | edge in e1.edges ensures e1.edges[edge].src != id && e1.edges[edge].tgt != id {
      assert edge !in Incident(e, id);
    }
    DropNodeKeeps(e1, id);
  }

  // ---- instructions ------------------------------------------------------------------------------

  /** What a caller and the compiler owe: a node that is created is a member of no cached artifact; a
      compiled region fits the store and writes its members' slots, as `compile_region` guarantees. */
  ghost predicate Legal(e: EngineState, op: IsaOp, ch: Choices) {
    && (op.NodeCreate? ==> InNoRegion(e.cache.regions, op.id))
    && (op.RegionDeclare? && op.compile == CompileEager && ch.compiled.Some? ==> Placed(e.world, ch.compiled.value))
  }

  lemma TakenKeeps(e: EngineState, dim: TimeDim)
    requires Inv(e)
    ensures Inv(TakeEvents(e.Log(dim)).e)
  {
    LogKeeps(e, dim);
    OnlyQueues(e.Log(dim), TakeEvents(e.Log(dim)).e);
  }

  lemma DeclareKeeps(e: EngineState, root: Uid, region: Region, contract: StabilityContract)
    requires Inv(e) && Placed(e.world, region)
    ensures Inv(e.(cache := e.cache.Insert(root, region, contract)))
  {
    var e' := e.(cache := e.cache.Insert(root, region, contract));
    forall r | r in e'.cache.regions ensures Placed(e'.world, e'.cache.regions[r]) {
      if r != root { assert Placed(e.world, e.cache.regions[r]); }
    }
  }

  lemma SideTablesInv(e: EngineState, reg: Registry)
    requires Inv(e) && reg == e.world.reg.(modes := reg.modes, counters := reg.counters)
    ensures Inv(e.WithReg(reg))
  {
    InvRegistry(e);
    SideTablesOk(e.world.reg, reg, |e.world.store.cache|, e.now);
    StructureInv(e, e.WithReg(reg));
  }

  lemma SetMaskInv(e: EngineState, src: Uid, sub: Uid, mask: set<TimeDim>)
    requires Inv(e)
    ensures Inv(e.WithReg(e.world.reg.SetMask(src, sub, mask)))
  {
    var reg := e.world.reg.SetMask(src, sub, mask);
    InvRegistry(e);
    SameShapeRelated(e.world.reg, reg);
    StructureInv(e, e.WithReg(reg));
  }

  lemma SubscribeInv(e: EngineState, src: Uid, sub: Uid)
    requires Inv(e)
    ensures Inv(e.(world := Link(e.world, src, sub)))
  {
    InvRegistry(e);
    LinkOk(e.world, src, sub, e.now);
    StructureInv(e, e.(world := Link(e.world, src, sub)));
  }

  /** The value-moving instructions. */
  lemma ApplyValuesKeeps(e: EngineState, op: IsaOp, ch: Choices)
    requires Inv(e) && e.world.Wf() && CacheRunnable(e) && MovesValues(op)
    ensures Inv(ApplyValues(e, op, ch).e)
  {
    match op {
      case SetValue(node, v) =>
        if node in e.world.nodes && v != e.world.nodes[node].value {
          WriteValueKeeps(e, node, v);
          DrainAndStabilizeKeeps(WriteValue(e, node, v), ch);
        }
      case Propagate(node) =>
        LogKeeps(e, Attribute);
        QueueThenDrain(e, Push(node), ch);
      case Demand(node) => QueueThenDrain(e, DemandItem(node), ch);
      case Reflect(node) =>
        LogKeeps(e, Attribute);
        if node in e.world.nodes {
          ReflectValueKeeps(e.Log(Attribute), node);
          DrainAndStabilizeKeeps(ReflectValue(e.Log(Attribute), node), ch);
        }
      case Stabilize(region) =>
        var seeds := if region.Some? then region.value else Ascending(ZeroNodes(e.world));
        StabiliseKeeps(e, seeds, ch.explicitRun);
        TakenKeeps(Stabilise(e, seeds, ch.explicitRun), Egraph);
    }
  }

  lemma QueueThenDrain(e: EngineState, item: WorkItem, ch: Choices)
    requires Inv(e)
    ensures var e1 := e.Enqueue(item).Log(Attribute);
      e1.world.Wf() && CacheRunnable(e1) && Inv(DrainAndStabilize(e1, ch.roots, ch.auth, ch.rounds).e)
  {
    OnlyQueues(e, e.Enqueue(item));
    LogKeeps(e.Enqueue(item), Attribute);
    DrainAndStabilizeKeeps(e.Enqueue(item).Log(Attribute), ch);
  }

  lemma AdditionKeeps(e: EngineState, op: IsaOp, ch: Choices)
    requires Inv(e) && e.world.Wf() && Legal(e, op, ch) && (op.NodeCreate? || op.EdgeConnect? || op.Subscribe?)
    ensures Inv(ApplyGraph(e, op).e)
  {
    hide Inv, CreateNode, Connect, Link;
    match op {
      case NodeCreate(id, _, kind, _) =>
        CreateNodeKeeps(e, id, kind);
        TakenKeeps(CreateNode(e, id, kind), TimeDim.Identity);
      case EdgeConnect(id, _, src, tgt, dep) =>
        if src in e.world.nodes && tgt in e.world.nodes {
          ConnectKeeps(e, id, src, tgt, dep);
          TakenKeeps(Connect(e, id, src, tgt, dep), Dependency);
        }
      case Subscribe(source, subscriber) =>
        SubscribeInv(e, source, subscriber);
        TakenKeeps(e.(world := Link(e.world, source, subscriber)), Dependency);
    }
  }

  lemma DeletionKeeps(e: EngineState, op: IsaOp)
    requires Inv(e) && e.world.Wf() && (op.DelNode? || op.DelEdge?)
    ensures Inv(ApplyGraph(e, op).e)
  {
    assert ClockAhead(e.world.reg, e.now);
    OnlyQueues(e, TakeEvents(e).e);
    hide Inv, DeleteNode, DeleteEdge, ClockAhead;
    if op.DelNode? {
      DeleteNodeKeeps(e, op.id);
      TakenKeeps(DeleteNode(e, op.id), TimeDim.Identity);
    } else if op.id in e.edges {
      DeleteEdgeKeeps(e, op.id);
      TakenKeeps(DeleteEdge(e, op.id), Dependency);
    }
  }

  /** The instructions that change the graph. */
  lemma ApplyGraphKeeps(e: EngineState, op: IsaOp, ch: Choices)
    requires Inv(e) && e.world.Wf() && Legal(e, op, ch) && ChangesGraph(op)
    ensures Inv(ApplyGraph(e, op).e)
  {
    hide Inv, ApplyGraph, Legal;
    if op.DelNode? || op.DelEdge? { DeletionKeeps(e, op); } else { AdditionKeeps(e, op, ch); }
  }

  /** The instructions that change modes, labels, bindings and artifacts. */
  lemma ApplyTablesKeeps(e: EngineState, op: IsaOp, ch: Choices)
    requires Inv(e) && Legal(e, op, ch) && !ChangesGraph(op) && !MovesValues(op)
    ensures Inv(ApplyTables(e, op, ch).e)
  {
    match op {
      case SetMode(node, mode) =>
        SideTablesInv(e, e.world.reg.SetMode(node, mode));
        TakenKeeps(e.WithReg(e.world.reg.SetMode(node, mode)), TimeDim.Identity);
      case PartitionBind(node, partition) =>
        var e1 := e.(partitions := e.partitions[node := partition]);
        OnlyQueues(e, e1);
        TakenKeeps(e1, TimeDim.Identity);
      case SetEdgeLabel(source, target, edgeLabel) =>
        SetMaskInv(e, source, target, edgeLabel.projectionMask.dims);
        TakenKeeps(e.WithReg(e.world.reg.SetMask(source, target, edgeLabel.projectionMask.dims)), TimeDim.Identity);
      case RegionDeclare(root, _, stability, compile) =>
        var e1 := e.(cache := e.cache.(contracts := e.cache.contracts[root := stability]));
        OnlyQueues(e, e1);
        if compile == CompileEager && ch.compiled.Some? {
          DeclareKeeps(e1, root, ch.compiled.value, stability);
          TakenKeeps(e1.(cache := e1.cache.Insert(root, ch.compiled.value, stability)), TimeDim.Identity);
        } else {
          TakenKeeps(e1, TimeDim.Identity);
        }
      case PartitionCreate(_, _, _, _) => TakenKeeps(e, TimeDim.Identity);
      case SetPartitionAuthority(_, _, _) => TakenKeeps(e, TimeDim.Identity);
      case SetStabilizationConfig(_, _) => TakenKeeps(e, TimeDim.Identity);
      case SetExecutionPolicy(_, _) => TakenKeeps(e, TimeDim.Identity);
    }
  }

  /** Every instruction keeps the invariant, whether it succeeds or fails. */
  lemma ApplyKeeps(e: EngineState, op: IsaOp, ch: Choices)
    requires Inv(e) && Legal(e, op, ch)
    ensures e.world.Wf() && CacheRunnable(e) && Inv(Apply(e, op, ch).e)
  {
    InvReady(e);
    var e1 := e.(events := []);
    OnlyQueues(e, e1);
    if ChangesGraph(op) {
      ApplyGraphKeeps(e1, op, ch);
    } else if MovesValues(op) {
      ApplyValuesKeeps(e1, op, ch);
    } else {
      ApplyTablesKeeps(e1, op, ch);
    }
  }

  lemma IllegalBreaks(e: EngineState, op: IsaOp, ch: Choices)
    requires Inv(e) && e.world.Wf() && CacheRunnable(e) && !Legal(e, op, ch)
    ensures !Inv(Apply(e, op, ch).e)
  {
    if op.NodeCreate? { RecreationBreaks(e, op, ch); } else { MisplacedBreaks(e, op, ch); }
    hide Inv, Apply, Legal;
  }

  lemma RecreationBreaks(e: EngineState, op: IsaOp, ch: Choices)
    requires Inv(e) && e.world.Wf() && CacheRunnable(e) && op.NodeCreate? && !InNoRegion(e.cache.regions, op.id)
    ensures !Inv(Apply(e, op, ch).e)
  {
    var root :| root in e.cache.regions && op.id in e.cache.regions[root].members;
    MemberMoves(e, op.id, op.kind, root);
    assert Apply(e, op, ch).e.cache.regions[root] == e.cache.regions[root];
    assert Apply(e, op, ch).e.world == CreateNode(e, op.id, op.kind).world;
    hide Coherent, Placed, ApplyValues;
  }

  lemma MisplacedBreaks(e: EngineState, op: IsaOp, ch: Choices)
    requires e.world.Wf() && CacheRunnable(e) && op.RegionDeclare? && op.compile == CompileEager
    requires ch.compiled.Some? && !Placed(e.world, ch.compiled.value)
    ensures !Inv(Apply(e, op, ch).e)
  {
    assert Apply(e, op, ch).e.world == e.world && Apply(e, op, ch).e.cache.regions[op.root] == ch.compiled.value;
    hide Coherent, Placed, ApplyValues;
  }

  /** The obligations are exact: an instruction keeps the invariant if and only if it is legal. */
  lemma KeepsExactlyWhenLegal(e: EngineState, op: IsaOp, ch: Choices)
    requires Inv(e)
    ensures e.world.Wf() && CacheRunnable(e) && (Inv(Apply(e, op, ch).e) <==> Legal(e, op, ch))
  {
    InvReady(e);
    hide Inv, Legal, Apply;
    if Legal(e, op, ch) { ApplyKeeps(e, op, ch); } else { IllegalBreaks(e, op, ch); }
  }

  // ---- runs ------------------------------------------------------------------------------------------

  const EMPTY_ENGINE := EngineState(World(map[], EMPTY_REGISTRY, EMPTY_STORE), map[], [], [], NO_STATS, {}, ZERO_TIME, 0, map[],
                               RegionCache(map[], map[], {}, map[]), [], [], 100_000)

  lemma EmptyInv()
    ensures Inv(EMPTY_ENGINE)
  {}

  /** One legal instruction. */
  ghost predicate Step(e: EngineState, op: IsaOp, ch: Choices, e': EngineState) {
    e.world.Wf() && CacheRunnable(e) && Legal(e, op, ch) && RootsListed(e.(events := []), op, ch) && e' == Apply(e, op, ch).e
  }

  lemma StepKeeps(e: EngineState, op: IsaOp, ch: Choices, e': EngineState)
    requires Inv(e) && Step(e, op, ch, e')
    ensures Inv(e')
  {
    ApplyKeeps(e, op, ch);
  }

  /** A run: each state follows from the one before by a legal instruction. */
  ghost predicate Run(states: seq<EngineState>, ops: seq<IsaOp>, choices: seq<Choices>) {
    && |states| == |ops| + 1 == |choices| + 1
    && forall i :: 0 <= i < |ops| ==> Step(states[i], ops[i], choices[i], states[i + 1])
  }

  /** In every state of every run from the empty engine, the store and its planes are the graph's
      values, the registry is one relation, no edge dangles and every artifact fits. */
  lemma RunsKeep(states: seq<EngineState>, ops: seq<IsaOp>, choices: seq<Choices>)
    requires Run(states, ops, choices) && states[0] == EMPTY_ENGINE
    ensures forall i :: 0 <= i < |states| ==> Inv(states[i])
  {
    EmptyInv();
    hide Inv, Step;
    for k := 0 to |ops|
      invariant forall i :: 0 <= i <= k ==> Inv(states[i])
    {
      StepKeeps(states[k], ops[k], choices[k], states[k + 1]);
    }
  }

  // ---- why ids must be fresh while artifacts are cached ----------------------------------------------

  /** A one-row region of node n. */
  ghost predicate OnlyRow(r: Region, n: Uid) { r.Shaped() && r.Rows() == 1 && r.members == [n] }

  /** What the region's run leaves in its output slot. */
  ghost function RowResult(e: EngineState, r: Region): T
    requires r.Runnable(|e.world.store.cache|) && r.Rows() == 1
  {
    IncEval(r, e.world.store.cache, e.dirtySlots)[r.outputs[0]]
  }

  /** Creating a node again while an artifact still writes its first slot breaks the mirror: the next run
      of that artifact that changes its slot to a value other than Neg gives the graph that value, and
      leaves Neg in the slot the node has now. */
  lemma RecreatedNodeDiverges(e: EngineState, root: Uid, n: Uid, kind: NodeKind)
    requires Inv(e) && root in e.cache.regions && OnlyRow(e.cache.regions[root], n)
    ensures var e', r := CreateNode(e, n, kind), e.cache.regions[root];
      e'.world.Wf() && r.Runnable(|e'.world.store.cache|)
      && (RowResult(e', r) != e'.world.store.cache[r.outputs[0]] && RowResult(e', r) != Neg ==>
          !Mirrored(RunRegion(e', root).world))
  {
    var e', r := CreateNode(e, n, kind), e.cache.regions[root];
    assert Placed(e.world, r);
    AllocValid(e.world.store, n);
    assert r.Runnable(|e'.world.store.cache|);
    var c0, d, slot := e'.world.store.cache, r.outputs[0], |e.world.store.cache|;
    var c1 := IncEval(r, c0, e'.dirtySlots);
    IncRowsFrame(r, c0, e'.dirtySlots, r.Rows());
    assert c1[slot] == c0[slot] == Neg by { assert !Driven(r, slot, 1); }
    if c1[d] != c0[d] && c1[d] != Neg {
      OneChange(e', r, n, c0, c1);
      SyncKeeps(Ran(e', r), r.members, [(n, c0[d], c1[d])]);
      SyncSets(Ran(e', r), r.members, (n, c0[d], c1[d]));
    }
  }

  lemma OneChange(e: EngineState, r: Region, n: Uid, c0: seq<T>, c1: seq<T>)
    requires OnlyRow(r, n) && r.Runnable(|e.world.store.cache|) && c0 == e.world.store.cache && c1 == IncEval(r, c0, e.dirtySlots)
    requires c1[r.outputs[0]] != c0[r.outputs[0]]
    ensures ChangedBy(e, r) == [(n, c0[r.outputs[0]], c1[r.outputs[0]])]
  {
    assert Changes(r, c0, c1, 0) == [];
  }

  lemma SyncSets(e: EngineState, members: seq<Uid>, change: (Uid, T, T))
    requires change.0 in e.world.nodes
    ensures var out := SyncChanges(e, members, [change]); change.0 in out.world.nodes && out.world.nodes[change.0].value == change.2
  {
    assert [change][..0] == [];
    assert SyncChanges(e, members, [change]) == SyncChange(SyncChanges(e, members, [change][..0]), members, change);
  }
}
