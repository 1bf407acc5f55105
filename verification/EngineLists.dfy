/** Runs that register dependencies by edges alone keep the dense lists right, with compiled regions and
    stabilisation allowed; so what is compiled in them follows the topology for as long as it is tracked. */
module EngineLists {
  import opened Base
  import opened Bits
  import opened Ternary
  import opened Isa
  import opened ValueStores
  import opened Deps
  import opened Propagation
  import opened Coherence
  import opened Regions
  import opened RegionCompile
  import opened EngineModel
  import opened EngineValues
  import opened EngineInvariant
  import opened EngineWiring
  import opened EngineRuns
  import opened Eviction

  ghost predicate AllListsRight(w: World) { forall t :: ListsRight(w, t) }

  /** Every ordered list and its dense image are right, and the edges are the relation, one per pair. */
  ghost predicate Listed(w: World, edges: map<Uid, Edge>) {
    Coherent(w) && AllListsRight(w) && EdgesAre(edges, w.reg)
  }

  // ---- the registry operations -----------------------------------------------------------------

  /** t's lists are what they were, and what they name keeps its node and slot. */
  lemma ListsStand(w: World, w': World, t: Uid)
    requires ListsRight(w, t) && w'.reg.DepsOf(t) == w.reg.DepsOf(t)
    requires w'.reg.OrderedDepsOf(t) == w.reg.OrderedDepsOf(t) && w'.reg.OrderedIdxOf(t) == w.reg.OrderedIdxOf(t)
    requires forall s :: s in w.reg.DepsOf(t) && s in w.nodes && s in w.store.idx ==>
      s in w'.nodes && s in w'.store.idx && w'.store.idx[s] == w.store.idx[s]
    ensures ListsRight(w', t)
  {
    var ids := w.reg.OrderedDepsOf(t);
    forall k | 0 <= k < |ids| ensures ids[k] in w'.nodes && ids[k] in w'.store.idx && w'.reg.OrderedIdxOf(t)[k] == w'.store.idx[ids[k]] {
      assert ids[k] in ids;
    }
  }

  lemma LinkLists(w: World, src: Uid, tgt: Uid, t: Uid)
    requires Coherent(w) && ListsRight(w, t) && src in w.nodes && src !in w.reg.DepsOf(tgt)
    ensures ListsRight(Link(w, src, tgt), t)
  {
    var w' := Link(w, src, tgt);
    if t == tgt {
      LinkAt(w, src, tgt);
      LinkStore(w, src, tgt);
      hide Link, Coherent;
      AppendLists(w, w', src, t);
    } else {
      LinkElsewhere(w, src, tgt, t);
      hide Link, Coherent;
      ListsStand(w, w', t);
    }
  }

  lemma LinkStore(w: World, src: Uid, tgt: Uid)
    requires Coherent(w) && src in w.nodes
    ensures Link(w, src, tgt).nodes == w.nodes && Link(w, src, tgt).store == w.store && src in w.store.idx
  {}

  lemma LinkElsewhere(w: World, src: Uid, tgt: Uid, t: Uid)
    requires w.store.Shaped() && t != tgt
    ensures var w' := Link(w, src, tgt);
      && w'.nodes == w.nodes && w'.store == w.store && w'.reg.DepsOf(t) == w.reg.DepsOf(t)
      && w'.reg.OrderedDepsOf(t) == w.reg.OrderedDepsOf(t) && w'.reg.OrderedIdxOf(t) == w.reg.OrderedIdxOf(t)
  {}

  lemma AppendLists(w: World, w': World, src: Uid, t: Uid)
    requires ListsRight(w, t) && w'.nodes == w.nodes && w'.store == w.store
    requires src in w.nodes && src in w.store.idx && src !in w.reg.DepsOf(t)
    requires w'.reg.OrderedDepsOf(t) == w.reg.OrderedDepsOf(t) + [src] && w'.reg.DepsOf(t) == w.reg.DepsOf(t) + {src}
    requires w'.reg.OrderedIdxOf(t) == w.reg.OrderedIdxOf(t) + [w.store.idx[src]]
    ensures ListsRight(w', t)
  {}

  lemma UnlinkLists(w: World, src: Uid, tgt: Uid, t: Uid)
    requires Coherent(w) && ListsRight(w, t) && src in w.reg.DepsOf(tgt)
    ensures ListsRight(Unlink(w, src, tgt), t)
  {
    var w' := Unlink(w, src, tgt);
    if t == tgt {
      UnlinkAt(w, src, tgt);
      UnlinkStore(w, src, tgt);
      hide Unlink, Coherent;
      RemoveLists(w, w', src, t, IndexOf(w.reg.OrderedDepsOf(tgt), src));
    } else {
      UnlinkElsewhere(w, src, tgt, t);
      hide Unlink, Coherent;
      ListsStand(w, w', t);
    }
  }

  lemma UnlinkStore(w: World, src: Uid, tgt: Uid)
    requires w.store.Shaped()
    ensures Unlink(w, src, tgt).nodes == w.nodes && Unlink(w, src, tgt).store == w.store
  {}

  lemma UnlinkElsewhere(w: World, src: Uid, tgt: Uid, t: Uid)
    requires w.store.Shaped() && t != tgt
    ensures var w' := Unlink(w, src, tgt);
      && w'.nodes == w.nodes && w'.store == w.store && w'.reg.DepsOf(t) == w.reg.DepsOf(t)
      && w'.reg.OrderedDepsOf(t) == w.reg.OrderedDepsOf(t) && w'.reg.OrderedIdxOf(t) == w.reg.OrderedIdxOf(t)
  {}

  lemma RemoveLists(w: World, w': World, src: Uid, t: Uid, i: nat)
    requires ListsRight(w, t) && w'.nodes == w.nodes && w'.store == w.store
    requires i < |w.reg.OrderedDepsOf(t)| && w.reg.OrderedDepsOf(t)[i] == src
    requires w'.reg.OrderedDepsOf(t) == RemoveAt(w.reg.OrderedDepsOf(t), i) && w'.reg.DepsOf(t) == w.reg.DepsOf(t) - {src}
    requires w'.reg.OrderedIdxOf(t) == RemoveAt(w.reg.OrderedIdxOf(t), i)
    ensures ListsRight(w', t)
  {
    RemovedElements(w.reg.OrderedDepsOf(t), i);
  }

  // ---- instructions that change the graph -----------------------------------------------------------------

  lemma CreateListed(e: EngineState, id: Uid, kind: NodeKind)
    requires Listed(e.world, e.edges) && id !in e.world.store.idx && Coherent(CreateNode(e, id, kind).world)
    ensures Listed(CreateNode(e, id, kind).world, e.edges)
  {
    var w, w' := e.world, CreateNode(e, id, kind).world;
    forall t ensures ListsRight(w', t) {
      assert ListsRight(w, t);
      ListsStand(w, w', t);
    }
    EdgesSame(e.edges, w.reg, w'.reg);
    hide ListsRight, EdgesAre;
  }

  lemma LinkListed(w: World, edges: map<Uid, Edge>, id: Uid, edge: Edge)
    requires Listed(w, edges) && id !in edges && edge.src in w.nodes && edge.src !in w.reg.DepsOf(edge.tgt)
    requires w.store.Shaped() && Coherent(Link(w, edge.src, edge.tgt))
    ensures Listed(Link(w, edge.src, edge.tgt), edges[id := edge])
  {
    forall t ensures ListsRight(Link(w, edge.src, edge.tgt), t) {
      assert ListsRight(w, t);
      LinkLists(w, edge.src, edge.tgt, t);
    }
    LinkDeps(w, edge.src, edge.tgt);
    EdgesMore(edges, w.reg, Link(w, edge.src, edge.tgt).reg, id, edge);
    hide Link, ListsRight, EdgesAre, Coherent;
  }

  lemma InferredListed(w: World, edges: map<Uid, Edge>, tgt: Uid, dep: DepKind)
    requires Listed(w, edges)
    ensures Listed(w.(reg := InferMode(w.reg, tgt, dep)), edges) && InferMode(w.reg, tgt, dep).deps == w.reg.deps
  {
    var w1 := w.(reg := InferMode(w.reg, tgt, dep));
    InferredLists(w, tgt, dep);
    forall t ensures ListsRight(w1, t) && w1.reg.DepsOf(t) == w.reg.DepsOf(t) {
      assert ListsRight(w, t);
      ListsStand(w, w1, t);
    }
    EdgesSame(edges, w.reg, w1.reg);
    hide InferMode, ListsRight, EdgesAre, Coherent;
  }

  lemma ConnectListed(e: EngineState, id: Uid, src: Uid, tgt: Uid, dep: DepKind)
    requires Inv(e) && Listed(e.world, e.edges) && src in e.world.nodes && tgt in e.world.nodes
    requires id !in e.edges && src !in e.world.reg.DepsOf(tgt)
    ensures Listed(Connect(e, id, src, tgt, dep).world, Connect(e, id, src, tgt, dep).edges)
  {
    ConnectKeeps(e, id, src, tgt, dep);
    CoherentPart(Connect(e, id, src, tgt, dep));
    InferredListed(e.world, e.edges, tgt, dep);
    ConnectTables(e, id, src, tgt, dep);
    ConnectEdges(e, id, src, tgt, dep);
    hide Inv, Listed, Link, Connect, InferMode, Coherent;
    LinkListed(e.world.(reg := InferMode(e.world.reg, tgt, dep)), e.edges, id, Edge(src, tgt, dep.Remote?));
  }

  lemma ConnectEdges(e: EngineState, id: Uid, src: Uid, tgt: Uid, dep: DepKind)
    requires e.world.store.Shaped()
    ensures Connect(e, id, src, tgt, dep).edges == e.edges[id := Edge(src, tgt, dep.Remote?)]
  {
    hide InferMode, Link;
  }

  lemma InferredLists(w: World, tgt: Uid, dep: DepKind)
    requires Coherent(w)
    ensures var reg := InferMode(w.reg, tgt, dep);
      && reg.deps == w.reg.deps && reg.orderedDeps == w.reg.orderedDeps && reg.orderedIdx == w.reg.orderedIdx
      && Coherent(w.(reg := reg))
  {
    SameShapeRelated(w.reg, InferMode(w.reg, tgt, dep));
  }

  lemma RemoveEdgeListed(e: EngineState, id: Uid)
    requires Listed(e.world, e.edges) && id in e.edges && Coherent(RemoveEdge(e, id).world)
    ensures Listed(RemoveEdge(e, id).world, RemoveEdge(e, id).edges)
  {
    var src, tgt := e.edges[id].src, e.edges[id].tgt;
    assert HasEdge(e.edges, src, tgt);
    assert src in e.world.reg.DepsOf(tgt);
    forall t ensures ListsRight(Unlink(e.world, src, tgt), t) {
      assert ListsRight(e.world, t);
      UnlinkLists(e.world, src, tgt, t);
    }
    UnlinkDeps(e.world, src, tgt);
    EdgesLess(e.edges, e.world.reg, RemoveEdge(e, id).world.reg, id);
    hide Unlink, ListsRight, EdgesAre, Coherent;
  }

  lemma {:induction false} RemoveEdgesListed(e: EngineState, ids: seq<Uid>)
    requires Inv(e) && Listed(e.world, e.edges)
    ensures Listed(RemoveEdges(e, ids).world, RemoveEdges(e, ids).edges)
    decreases |ids|
  {
    if ids != [] {
      var before, last := RemoveEdges(e, ids[..|ids| - 1]), ids[|ids| - 1];
      RemoveEdgesListed(e, ids[..|ids| - 1]);
      RemoveEdgesKeep(e, ids[..|ids| - 1]);
      if last in before.edges {
        RemoveEdgeKeeps(before, last);
        CoherentPart(RemoveEdge(before, last));
        RemoveEdgeListed(before, last);
      }
    }
    hide Inv, Listed, RemoveEdge;
  }

  lemma CoherentPart(e: EngineState)
    requires Inv(e)
    ensures Coherent(e.world) && e.world.Wf()
  {}

  lemma DropListed(w: World, w': World, edges: map<Uid, Edge>, id: Uid)
    requires Listed(w, edges) && w.reg.DepsOf(id) == {} && w.reg.SubsOf(id) == {} && Coherent(w')
    requires w' == World(w.nodes - {id}, w.reg.RemoveNode(id), w.store.Set(id, Neg))
    ensures Listed(w', edges)
  {
    RemoveQuietNode(w.reg, id);
    forall t ensures ListsRight(w', t) {
      assert ListsRight(w, t);
      if t != id { DropLists(w, w', id, t); }
    }
    EdgesSame(edges, w.reg, w'.reg);
    hide Registry.RemoveNode, EdgesAre;
  }

  lemma DropLists(w: World, w': World, id: Uid, t: Uid)
    requires Related(w.reg) && ListsRight(w, t) && t != id && w.reg.SubsOf(id) == {}
    requires w'.nodes == w.nodes - {id} && w'.store.idx == w.store.idx
    requires w'.reg.deps == w.reg.deps - {id} && w'.reg.orderedDeps == w.reg.orderedDeps - {id} && w'.reg.orderedIdx == w.reg.orderedIdx - {id}
    ensures ListsRight(w', t)
  {
    forall s | s in w.reg.DepsOf(t) ensures s != id { assert t in w.reg.SubsOf(s); }
    hide Related;
    ListsStand(w, w', t);
  }

  lemma NoneAt(edges: map<Uid, Edge>, reg: Registry, id: Uid)
    requires EdgesAre(edges, reg) && Related(reg) && forall i :: i in edges ==> edges[i].src != id && edges[i].tgt != id
    ensures reg.DepsOf(id) == {} && reg.SubsOf(id) == {}
  {
    forall s ensures s !in reg.DepsOf(id) { assert !HasEdge(edges, s, id); }
    forall t ensures t !in reg.SubsOf(id) { assert !HasEdge(edges, id, t); }
  }

  lemma DeletedWorld(e: EngineState, id: Uid)
    requires e.world.Wf()
    ensures var e1, e' := RemoveEdges(e, Ascending(Incident(e, id))), DeleteNode(e, id);
      && e1.world.store == e.world.store && e'.edges == e1.edges
      && e'.world == World(e1.world.nodes - {id}, e1.world.reg.RemoveNode(id), e1.world.store.Set(id, Neg))
      && forall i :: i in e1.edges ==> e1.edges[i].src != id && e1.edges[i].tgt != id
  {
    AscendingElements(Incident(e, id));
    var e1 := RemoveEdges(e, Ascending(Incident(e, id)));
    forall i | i in e1.edges ensures e1.edges[i].src != id && e1.edges[i].tgt != id { assert i !in Incident(e, id); }
    hide RemoveEdges, Registry.RemoveNode, RegionCache.Invalidate;
  }

  lemma DeleteNodeListed(e: EngineState, id: Uid)
    requires Inv(e) && Listed(e.world, e.edges)
    ensures e.world.Wf() && Listed(DeleteNode(e, id).world, DeleteNode(e, id).edges)
  {
    CoherentPart(e);
    var e1 := RemoveEdges(e, Ascending(Incident(e, id)));
    RemoveEdgesListed(e, Ascending(Incident(e, id)));
    DeletedWorld(e, id);
    DeleteNodeKeeps(e, id);
    CoherentPart(DeleteNode(e, id));
    ListedParts(e1.world, e1.edges);
    NoneAt(e1.edges, e1.world.reg, id);
    hide Inv, Listed, DeleteNode, RemoveEdges, Incident, Registry.RemoveNode, Coherent, EdgesAre;
    DropListed(e1.world, DeleteNode(e, id).world, e1.edges, id);
  }

  lemma ListedParts(w: World, edges: map<Uid, Edge>)
    requires Listed(w, edges)
    ensures Coherent(w) && EdgesAre(edges, w.reg) && Related(w.reg)
  {}

  // ---- instructions and runs ------------------------------------------------------------------------------------

  /** The invariant of tidy runs. */
  ghost predicate TidyInv(e: EngineState) { Inv(e) && Listed(e.world, e.edges) }

  /** Fresh node and edge ids, at most one edge per pair, no bare subscription. */
  ghost predicate Tidy(e: EngineState, op: IsaOp) {
    && (op.NodeCreate? ==> op.id !in e.world.store.idx)
    && (op.EdgeConnect? ==> op.id !in e.edges && op.src !in e.world.reg.DepsOf(op.tgt))
    && !op.Subscribe?
  }

  lemma SameListed(w: World, w': World, edges: map<Uid, Edge>)
    requires Listed(w, edges) && Coherent(w') && w'.nodes.Keys == w.nodes.Keys && w'.store.idx == w.store.idx
    requires w'.reg.deps == w.reg.deps && w'.reg.orderedDeps == w.reg.orderedDeps && w'.reg.orderedIdx == w.reg.orderedIdx
    ensures Listed(w', edges)
  {
    forall t ensures ListsRight(w', t) {
      assert ListsRight(w, t);
      ListsStand(w, w', t);
    }
    EdgesSame(edges, w.reg, w'.reg);
    hide ListsRight, EdgesAre, Coherent;
  }

  lemma GraphListed(e: EngineState, op: IsaOp, ch: Choices)
    requires TidyInv(e) && e.world.Wf() && ChangesGraph(op) && Tidy(e, op) && Legal(e, op, ch)
    ensures Listed(ApplyGraph(e, op).e.world, ApplyGraph(e, op).e.edges)
  {
    match op {
      case NodeCreate(id, _, kind, _) =>
        CreateNodeKeeps(e, id, kind);
        CoherentPart(CreateNode(e, id, kind));
        CreateListed(e, id, kind);
      case EdgeConnect(id, _, src, tgt, dep) =>
        if src in e.world.nodes && tgt in e.world.nodes { ConnectListed(e, id, src, tgt, dep); }
      case _ => DeletionListed(e, op);
    }
    hide Inv, Listed, CreateNode, Connect, Link, DeleteNode, DeleteEdge;
  }

  lemma DeletionListed(e: EngineState, op: IsaOp)
    requires TidyInv(e) && e.world.Wf() && (op.DelNode? || op.DelEdge?)
    ensures Listed(ApplyGraph(e, op).e.world, ApplyGraph(e, op).e.edges)
  {
    DeletionReply(e, op);
    hide Inv, Listed, DeleteNode, DeleteEdge, ApplyGraph;
    if op.DelNode? {
      DeleteNodeListed(e, op.id);
    } else if op.id in e.edges {
      DeleteEdgeListed(e, op.id);
    }
  }

  lemma DeleteEdgeListed(e: EngineState, id: Uid)
    requires Inv(e) && Listed(e.world, e.edges) && id in e.edges
    ensures e.world.Wf() && Listed(DeleteEdge(e, id).world, DeleteEdge(e, id).edges)
  {
    CoherentPart(e);
    RemoveEdgeKeeps(e, id);
    CoherentPart(RemoveEdge(e, id));
    RemoveEdgeListed(e, id);
    assert DeleteEdge(e, id).world == RemoveEdge(e, id).world && DeleteEdge(e, id).edges == RemoveEdge(e, id).edges by {
      hide Unlink, RegionCache.Invalidate;
    }
    hide Inv, Listed, DeleteEdge, RemoveEdge;
  }

  lemma TablesListed(e: EngineState, op: IsaOp, ch: Choices)
    requires Listed(e.world, e.edges) && !ChangesGraph(op) && !MovesValues(op) && Coherent(ApplyTables(e, op, ch).e.world)
    ensures Listed(ApplyTables(e, op, ch).e.world, ApplyTables(e, op, ch).e.edges)
  {
    var e' := ApplyTables(e, op, ch).e;
    assert e'.edges == e.edges && e'.world == e.world.(reg := e'.world.reg);
    assert e'.world.reg.deps == e.world.reg.deps && e'.world.reg.orderedDeps == e.world.reg.orderedDeps;
    assert e'.world.reg.orderedIdx == e.world.reg.orderedIdx;
    hide ApplyTables, Listed, Coherent;
    SameListed(e.world, e'.world, e.edges);
  }

  lemma ValuesListed(e: EngineState, op: IsaOp, ch: Choices)
    requires TidyInv(e) && e.world.Wf() && CacheRunnable(e) && MovesValues(op) && Coherent(ApplyValues(e, op, ch).e.world)
    ensures Listed(ApplyValues(e, op, ch).e.world, ApplyValues(e, op, ch).e.edges)
  {
    ValuesMove(e, op, ch);
    var e' := ApplyValues(e, op, ch).e;
    assert SameGraph(e.world, e'.world) && e'.edges == e.edges by { hide ApplyValues; }
    hide ApplyValues, Listed, Coherent, Inv;
    SameListed(e.world, e'.world, e.edges);
  }

  /** A tidy instruction keeps the lists right, whether it succeeds or fails. */
  lemma TidyKeeps(e: EngineState, op: IsaOp, ch: Choices)
    requires TidyInv(e) && Tidy(e, op) && Legal(e, op, ch)
    ensures TidyInv(Call(e, op, ch).e)
  {
    var e0 := e.(events := []);
    InvReady(e);
    OnlyQueues(e, e0);
    ApplyKeeps(e, op, ch);
    CoherentPart(Call(e, op, ch).e);
    assert Tidy(e0, op) && Legal(e0, op, ch) && Call(e, op, ch) ==
      (if ChangesGraph(op) then ApplyGraph(e0, op) else if MovesValues(op) then ApplyValues(e0, op, ch) else ApplyTables(e0, op, ch))
    by { hide Inv, Listed, ApplyGraph, ApplyValues, ApplyTables; }
    hide Inv, Listed, ApplyGraph, ApplyValues, ApplyTables, Tidy, Legal, Call, Coherent;
    if ChangesGraph(op) { GraphListed(e0, op, ch); } else if MovesValues(op) { ValuesListed(e0, op, ch); } else { TablesListed(e0, op, ch); }
  }

  /** A source is deleted only where the tracked artifacts that read it cover it, and a root is declared tracked
      with what `compile_region` delivers, or keeps the tracked artifact it has. */
  ghost predicate Follows(e: EngineState, op: IsaOp, ch: Choices) {
    match op
    case DelNode(id) => RemoteAt(e, id) || !ReadFromOutside(e, id)
    case RegionDeclare(root, _, stability, compile) =>
      stability == EpochTracked ==>
        if compile == CompileEager && ch.compiled.Some? then exists members: seq<Uid> :: CompiledFrom(e.world, members, ch.compiled.value)
        else root in e.cache.regions ==> Tracked(e.cache, root)
    case _ => true
  }

  lemma ReadHasSlot(w: World, d: Uid, m: Uid)
    requires ListsRight(w, m) && d in w.reg.DepsOf(m)
    ensures d in w.store.idx && d in w.nodes
  {
    assert d in w.reg.OrderedDepsOf(m);
  }

  lemma FreshUnread(e: EngineState, id: Uid)
    requires AllListsRight(e.world) && id !in e.world.store.idx
    ensures !ReadByTracked(e, id)
  {
    forall root, m | TrackedReader(e, root, m, id) ensures false {
      assert ListsRight(e.world, m);
      ReadHasSlot(e.world, id, m);
    }
  }

  lemma DeclaredFollows(e: EngineState, op: IsaOp, ch: Choices)
    requires AllListsRight(e.world) && Current(e) && op.RegionDeclare? && Follows(e, op, ch)
    ensures KeepsColumns(e, op, ch)
  {
    if op.stability == EpochTracked && op.compile == CompileEager && ch.compiled.Some? {
      var members: seq<Uid> :| CompiledFrom(e.world, members, ch.compiled.value);
      CompiledIsExact(e.world, members, ch.compiled.value);
    }
    hide ListsRight, Exact, CompiledFrom;
  }

  lemma TidyFollows(e: EngineState, op: IsaOp, ch: Choices)
    requires TidyInv(e) && Current(e) && Tidy(e, op) && Follows(e, op, ch)
    ensures KeepsColumns(e, op, ch)
  {
    match op {
      case NodeCreate(id, _, _, _) => FreshUnread(e, id);
      case RegionDeclare(_, _, _, _) => DeclaredFollows(e, op, ch);
      case _ =>
    }
    hide Inv, Current, AllListsRight, ReadByTracked, ReadFromOutside, RemoteAt, Exact;
  }

  /** What holds in every state of such a run. */
  ghost predicate Following(e: EngineState) { TidyInv(e) && Current(e) }

  lemma FollowingStep(e: EngineState, op: IsaOp, ch: Choices, e': EngineState)
    requires Following(e) && Tidy(e, op) && Follows(e, op, ch) && Step(e, op, ch, e')
    ensures Following(e')
  {
    TidyFollows(e, op, ch);
    StepIsCall(e, op, ch, e');
    hide Inv, Listed, Current, Follows, KeepsColumns, Tidy, Legal, Call;
    TidyKeeps(e, op, ch);
    KeepsCurrentExactly(e, op, ch);
  }

  lemma StepIsCall(e: EngineState, op: IsaOp, ch: Choices, e': EngineState)
    requires Inv(e) && Step(e, op, ch, e')
    ensures Legal(e, op, ch) && e' == Call(e, op, ch).e
  {
    hide Inv, Apply, Legal;
  }

  lemma EmptyFollowing()
    ensures Following(EMPTY_ENGINE)
  {}

  /** In every state of every tidy run from the empty engine, with compiled regions and stabilisation, every node's
      dense list is the image of its dependencies and every tracked artifact reads exactly what its members do. */
  lemma TidyRunsFollow(states: seq<EngineState>, ops: seq<IsaOp>, choices: seq<Choices>)
    requires Run(states, ops, choices) && states[0] == EMPTY_ENGINE
    requires forall i :: 0 <= i < |ops| ==> Tidy(states[i], ops[i]) && Follows(states[i], ops[i], choices[i])
    ensures forall i :: 0 <= i < |states| ==> Inv(states[i]) && AllListsRight(states[i].world) && Current(states[i])
  {
    EmptyFollowing();
    hide Following, Step, Tidy, Follows;
    for k := 0 to |ops|
      invariant forall i :: 0 <= i <= k ==> Following(states[i])
    {
      FollowingStep(states[k], ops[k], choices[k], states[k + 1]);
    }
    forall i | 0 <= i < |states| ensures Inv(states[i]) && AllListsRight(states[i].world) && Current(states[i]) {
      FollowingParts(states[i]);
    }
    hide *;
  }

  lemma FollowingParts(e: EngineState)
    requires Following(e)
    ensures Inv(e) && AllListsRight(e.world) && Current(e)
  {}
}
