/** What every instruction does to the graph, node by node, edge by edge and pair by pair; and why an edge to another
    partition cannot be deleted from this side. */
module GraphEffects {
  import opened Base
  import opened Bits
  import opened Ternary
  import opened Isa
  import opened Deps
  import opened Propagation
  import opened Coherence
  import opened EngineModel
  import opened EngineValues
  import opened EngineInvariant
  import opened EngineRuns
  import opened Eviction

  ghost predicate EndsThere(e: EngineState, op: IsaOp)
    requires op.EdgeConnect?
  {
    op.src in e.world.nodes && op.tgt in e.world.nodes
  }

  ghost predicate NodeAfter(e: EngineState, op: IsaOp, n: Uid) {
    match op
    case NodeCreate(id, _, _, _) => n == id || n in e.world.nodes
    case DelNode(id) => n in e.world.nodes && (n != id || RemoteAt(e, id))
    case _ => n in e.world.nodes
  }

  /** The edge under an identifier. */
  ghost function EdgeAfter(e: EngineState, op: IsaOp, id: Uid): Option<Edge> {
    var now := if id in e.edges then Some(e.edges[id]) else None;
    match op
    case EdgeConnect(i, _, src, tgt, dep) => if id == i && EndsThere(e, op) then Some(Edge(src, tgt, dep.Remote?)) else now
    case DelEdge(i) => if id == i && now.Some? && !now.value.remote then None else now
    case DelNode(i) => if now.Some? && (now.value.src == i || now.value.tgt == i) && !RemoteAt(e, i) then None else now
    case _ => now
  }

  /** t reads s: registration adds a pair, deleting an edge takes its pair away, deleting a node every pair at it. */
  ghost predicate ReadsAfter(e: EngineState, op: IsaOp, s: Uid, t: Uid) {
    var now := s in e.world.reg.DepsOf(t);
    match op
    case EdgeConnect(_, _, src, tgt, _) => now || (s == src && t == tgt && EndsThere(e, op))
    case Subscribe(source, subscriber) => now || (s == source && t == subscriber)
    case DelEdge(i) => now && !(i in e.edges && !e.edges[i].remote && e.edges[i].src == s && e.edges[i].tgt == t)
    case DelNode(i) => now && (RemoteAt(e, i) || (s != i && t != i))
    case _ => now
  }

  ghost predicate NodesFollow(e: EngineState, op: IsaOp, e': EngineState) {
    forall n :: n in e'.world.nodes <==> NodeAfter(e, op, n)
  }

  ghost predicate EdgesFollow(e: EngineState, op: IsaOp, e': EngineState) {
    forall id :: EdgeAfter(e, op, id) == if id in e'.edges then Some(e'.edges[id]) else None
  }

  ghost predicate PairsFollow(e: EngineState, op: IsaOp, e': EngineState) {
    forall s: Uid, t: Uid :: s in e'.world.reg.DepsOf(t) <==> ReadsAfter(e, op, s, t)
  }

  ghost predicate GraphFollows(e: EngineState, op: IsaOp, e': EngineState) {
    NodesFollow(e, op, e') && EdgesFollow(e, op, e') && PairsFollow(e, op, e')
  }

  // ---- the instructions that change the graph ------------------------------------------------------

  lemma AdditionFollows(e: EngineState, op: IsaOp)
    requires e.world.Wf() && (op.NodeCreate? || op.EdgeConnect?)
    ensures var e' := ApplyGraph(e, op).e; NodesFollow(e, op, e') && EdgesFollow(e, op, e')
  {
    hide RegionCache.Invalidate, Registry.Subscribe, InferMode;
  }

  lemma AdditionPairs(e: EngineState, op: IsaOp)
    requires e.world.Wf() && (op.NodeCreate? || op.EdgeConnect?)
    ensures PairsFollow(e, op, ApplyGraph(e, op).e)
  {
    hide RegionCache.Invalidate;
  }

  lemma SubscribeFollows(e: EngineState, op: IsaOp)
    requires e.world.Wf() && op.Subscribe?
    ensures var e' := ApplyGraph(e, op).e; NodesFollow(e, op, e') && EdgesFollow(e, op, e') && PairsFollow(e, op, e')
  {}

  lemma DelEdgeIs(e: EngineState, op: IsaOp)
    requires e.world.Wf() && op.DelEdge?
    ensures var e' := ApplyGraph(e, op).e;
      if op.id in e.edges && !e.edges[op.id].remote then
        e'.world == Unlink(e.world, e.edges[op.id].src, e.edges[op.id].tgt) && e'.edges == e.edges - {op.id}
      else e'.world == e.world && e'.edges == e.edges
  {
    hide RegionCache.Invalidate, Unlink;
  }

  lemma DelEdgeFollows(e: EngineState, op: IsaOp)
    requires e.world.Wf() && op.DelEdge?
    ensures var e' := ApplyGraph(e, op).e; NodesFollow(e, op, e') && EdgesFollow(e, op, e') && PairsFollow(e, op, e')
  {
    DelEdgeIs(e, op);
    var e' := ApplyGraph(e, op).e;
    if op.id in e.edges && !e.edges[op.id].remote {
      var src, tgt := e.edges[op.id].src, e.edges[op.id].tgt;
      forall s: Uid, t: Uid ensures s in e'.world.reg.DepsOf(t) <==> ReadsAfter(e, op, s, t) { UnlinkReads(e.world, src, tgt, t); }
      UnlinkNodes(e.world, src, tgt);
    }
    hide ApplyGraph, Unlink;
  }

  lemma UnlinkNodes(w: World, src: Uid, tgt: Uid)
    requires w.store.Shaped()
    ensures Unlink(w, src, tgt).nodes == w.nodes
  {}

  lemma DeletedGraph(e: EngineState, id: Uid)
    requires e.world.Wf()
    ensures var e' := DeleteNode(e, id);
      && e'.world.nodes == e.world.nodes - {id}
      && (forall i :: i in e'.edges <==> i in e.edges && e.edges[i].src != id && e.edges[i].tgt != id)
      && forall i :: i in e'.edges ==> e'.edges[i] == e.edges[i]
  {
    AscendingElements(Incident(e, id));
    hide Registry.RemoveNode, RegionCache.Invalidate, RemoveEdges, Ascending;
  }

  lemma DelNodeGraph(e: EngineState, op: IsaOp)
    requires e.world.Wf() && op.DelNode?
    ensures var e' := ApplyGraph(e, op).e;
      if RemoteAt(e, op.id) then e' == e
      else e'.world == DeleteNode(e, op.id).world && e'.edges == DeleteNode(e, op.id).edges
  {
    RemoteIs(e, op.id);
    hide DeleteNode, RemoteAt, Incident;
  }

  lemma DeletedFollows(e: EngineState, op: IsaOp, e': EngineState)
    requires op.DelNode? && !RemoteAt(e, op.id) && e'.world.nodes == e.world.nodes - {op.id}
    requires forall i :: i in e'.edges <==> i in e.edges && e.edges[i].src != op.id && e.edges[i].tgt != op.id
    requires forall i :: i in e'.edges ==> e'.edges[i] == e.edges[i]
    requires forall t :: e'.world.reg.DepsOf(t) == if t == op.id then {} else e.world.reg.DepsOf(t) - {op.id}
    ensures GraphFollows(e, op, e')
  {
    hide RemoteAt, Registry.DepsOf;
  }

  lemma UntouchedFollows(e: EngineState, op: IsaOp)
    requires op.DelNode? && RemoteAt(e, op.id)
    ensures GraphFollows(e, op, e)
  {
    hide RemoteAt;
  }

  lemma DelNodeFollows(e: EngineState, op: IsaOp)
    requires Inv(e) && e.world.Wf() && op.DelNode?
    ensures GraphFollows(e, op, ApplyGraph(e, op).e)
  {
    DelNodeGraph(e, op);
    var e' := ApplyGraph(e, op).e;
    hide ApplyGraph, DeleteNode, Inv, RemoteAt, GraphFollows;
    if RemoteAt(e, op.id) {
      UntouchedFollows(e, op);
    } else {
      DeletedGraph(e, op.id);
      forall t ensures e'.world.reg.DepsOf(t) == if t == op.id then {} else e.world.reg.DepsOf(t) - {op.id} { DeleteNodeReads(e, op.id, t); }
      DeletedFollows(e, op, e');
    }
  }

  // ---- every instruction -------------------------------------------------------------------------------

  lemma GraphOpFollows(e: EngineState, op: IsaOp)
    requires Inv(e) && e.world.Wf() && ChangesGraph(op)
    ensures GraphFollows(e, op, ApplyGraph(e, op).e)
  {
    match op {
      case Subscribe(_, _) => SubscribeFollows(e, op);
      case DelEdge(_) => DelEdgeFollows(e, op);
      case DelNode(_) => DelNodeFollows(e, op);
      case _ =>
        AdditionFollows(e, op);
        AdditionPairs(e, op);
    }
    hide Inv, ApplyGraph, NodesFollow, EdgesFollow, PairsFollow;
  }

  /** An instruction that is not one of the graph's leaves it. */
  lemma SameFollows(e: EngineState, op: IsaOp, e': EngineState)
    requires !ChangesGraph(op) && e'.world.nodes.Keys == e.world.nodes.Keys && e'.edges == e.edges && e'.world.reg.deps == e.world.reg.deps
    ensures GraphFollows(e, op, e')
  {
    forall n ensures n in e'.world.nodes <==> n in e.world.nodes { assert n in e'.world.nodes.Keys <==> n in e.world.nodes.Keys; }
  }

  lemma FollowsFrom(e: EngineState, op: IsaOp, e': EngineState)
    ensures GraphFollows(e.(events := []), op, e') <==> GraphFollows(e, op, e')
  {
    var e0 := e.(events := []);
    forall id ensures RemoteAt(e0, id) == RemoteAt(e, id) {}
    forall n ensures NodeAfter(e0, op, n) == NodeAfter(e, op, n) {}
    forall id ensures EdgeAfter(e0, op, id) == EdgeAfter(e, op, id) {}
    forall s, t ensures ReadsAfter(e0, op, s, t) == ReadsAfter(e, op, s, t) {}
    hide RemoteAt, NodeAfter, EdgeAfter, ReadsAfter;
  }

  /** Every instruction, whether it succeeds or is refused, leaves exactly these nodes, edges and dependencies. */
  lemma CallFollows(e: EngineState, op: IsaOp, ch: Choices)
    requires Inv(e)
    ensures GraphFollows(e, op, Call(e, op, ch).e)
  {
    var e0 := e.(events := []);
    InvReady(e);
    OnlyQueues(e, e0);
    if ChangesGraph(op) {
      GraphOpFollows(e0, op);
    } else if MovesValues(op) {
      ValuesMove(e0, op, ch);
      MovedParts(e0, ApplyValues(e0, op, ch).e);
      SameFollows(e0, op, ApplyValues(e0, op, ch).e);
    } else {
      TablesGraph(e0, op, ch);
      SameFollows(e0, op, ApplyTables(e0, op, ch).e);
    }
    FollowsFrom(e, op, Call(e, op, ch).e);
    hide Inv, GraphFollows, ApplyGraph, ApplyValues, ApplyTables, Moved;
  }

  lemma MovedParts(e: EngineState, e': EngineState)
    requires Moved(e, e')
    ensures e'.world.nodes.Keys == e.world.nodes.Keys && e'.edges == e.edges && e'.world.reg.deps == e.world.reg.deps
  {}

  lemma TablesGraph(e: EngineState, op: IsaOp, ch: Choices)
    requires !ChangesGraph(op) && !MovesValues(op)
    ensures var e' := ApplyTables(e, op, ch).e; e'.world.nodes == e.world.nodes && e'.edges == e.edges && e'.world.reg.deps == e.world.reg.deps
  {}

  // ---- edges to other partitions --------------------------------------------------------------------------

  /** A remote edge with both its ends. */
  ghost predicate Interface(e: EngineState, id: Uid, edge: Edge) {
    id in e.edges && e.edges[id] == edge && edge.remote && edge.src in e.world.nodes && edge.tgt in e.world.nodes
  }

  lemma InterfaceFollows(e: EngineState, op: IsaOp, e': EngineState, id: Uid, edge: Edge)
    requires GraphFollows(e, op, e') && Interface(e, id, edge) && !(op.EdgeConnect? && op.id == id)
    ensures Interface(e', id, edge)
  {
    assert EdgeAfter(e, op, id) == Some(edge);
    assert NodeAfter(e, op, edge.src) && NodeAfter(e, op, edge.tgt);
    hide PairsFollow, ReadsAfter;
  }

  lemma InterfaceStands(e: EngineState, op: IsaOp, ch: Choices, id: Uid, edge: Edge)
    requires Inv(e) && Interface(e, id, edge) && !(op.EdgeConnect? && op.id == id)
    ensures Interface(Call(e, op, ch).e, id, edge)
  {
    CallFollows(e, op, ch);
    hide *;
    InterfaceFollows(e, op, Call(e, op, ch).e, id, edge);
  }

  /** Over any run, a remote edge and the nodes it joins stand until an edge is connected under the same identifier:
      neither the edge nor either of its ends can be deleted locally. */
  lemma InterfacesStand(states: seq<EngineState>, ops: seq<IsaOp>, choices: seq<Choices>, id: Uid, edge: Edge)
    requires |states| == |ops| + 1 == |choices| + 1 && Interface(states[0], id, edge)
    requires forall i :: 0 <= i < |ops| ==> Inv(states[i]) && states[i + 1] == Call(states[i], ops[i], choices[i]).e
    requires forall i :: 0 <= i < |ops| ==> !(ops[i].EdgeConnect? && ops[i].id == id)
    ensures Interface(states[|ops|], id, edge)
  {
    hide Inv, Call, Interface;
    for k := 0 to |ops|
      invariant Interface(states[k], id, edge)
    {
      InterfaceStands(states[k], ops[k], choices[k], id, edge);
    }
  }
}
