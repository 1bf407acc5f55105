/** What single instructions leave behind: execution modes and reflected values. */
module EngineEffects {
  import opened Base
  import opened Bits
  import opened Ternary
  import opened Rules
  import opened Time
  import opened Isa
  import opened ValueStores
  import opened Deps
  import opened Propagation
  import opened StepFacts
  import opened Draining
  import opened Coherence
  import opened Writes
  import opened EngineModel
  import opened EngineValues
  import opened EngineInvariant
  import opened EngineRuns
  import opened Eviction
  import opened StabilisationRounds

  // ---- modes -----------------------------------------------------------------------------------

  /** The kind of the port an edge reads through. */
  function PortOf(dep: DepKind): Option<PortKind> {
    match dep
    case Local(p) => if p.Some? then Some(p.value.kind) else None
    case Remote(r) => Some(r.portKind)
  }

  /** The mode of n after the instruction. An edge decides only for a target that is still Eager: an effort port makes it
      Lazy, a bond port Stabilizing; flow, signal and portless edges leave it Eager. */
  ghost function ModeAfter(e: EngineState, op: IsaOp, n: Uid): ExecMode {
    var mode := e.world.reg.ModeOf(n);
    match op
    case NodeCreate(id, _, _, _) => if n == id then Eager else mode
    case EdgeConnect(_, _, src, tgt, dep) =>
      if n != tgt || src !in e.world.nodes || tgt !in e.world.nodes || mode != Eager then mode
      else if PortOf(dep) == Some(Effort) then Lazy
      else if PortOf(dep) == Some(Bond) then Stabilizing
      else Eager
    case DelNode(id) => if n == id && !RemoteAt(e, id) then Eager else mode
    case SetMode(node, m) => if n == node && node in e.world.nodes then m else mode
    case _ => mode
  }

  lemma LinkModes(w: World, src: Uid, tgt: Uid)
    requires w.store.Shaped()
    ensures Link(w, src, tgt).reg.modes == w.reg.modes && Unlink(w, src, tgt).reg.modes == w.reg.modes
  {}

  lemma ConnectedModes(e: EngineState, op: IsaOp)
    requires e.world.Wf() && op.EdgeConnect?
    ensures ApplyGraph(e, op).e.world.reg.modes ==
      if op.src in e.world.nodes && op.tgt in e.world.nodes then InferMode(e.world.reg, op.tgt, op.dep).modes else e.world.reg.modes
  {
    if op.src in e.world.nodes && op.tgt in e.world.nodes {
      LinkModes(e.world.(reg := InferMode(e.world.reg, op.tgt, op.dep)), op.src, op.tgt);
    }
    hide Link, RegionCache.Invalidate, InferMode;
  }

  lemma InferredMode(reg: Registry, tgt: Uid, dep: DepKind, n: Uid)
    ensures InferMode(reg, tgt, dep).ModeOf(n) ==
      if n != tgt || reg.ModeOf(tgt) != Eager then reg.ModeOf(n)
      else if PortOf(dep) == Some(Effort) then Lazy
      else if PortOf(dep) == Some(Bond) then Stabilizing
      else Eager
  {}

  lemma ConnectMode(e: EngineState, op: IsaOp, n: Uid)
    requires e.world.Wf() && op.EdgeConnect?
    ensures ApplyGraph(e, op).e.world.reg.ModeOf(n) == ModeAfter(e, op, n)
  {
    ConnectedModes(e, op);
    InferredMode(e.world.reg, op.tgt, op.dep, n);
    hide ApplyGraph, InferMode, PortOf;
  }

  lemma {:induction false} RemoveEdgesModes(e: EngineState, ids: seq<Uid>)
    requires e.world.store.Shaped()
    ensures RemoveEdges(e, ids).world.reg.modes == e.world.reg.modes
    decreases |ids|
  {
    if ids != [] { RemoveEdgesModes(e, ids[..|ids| - 1]); }
  }

  lemma {:induction false} UnsubscribeAllModes(reg: Registry, srcs: seq<Uid>, sub: Uid)
    ensures reg.UnsubscribeAll(srcs, sub).modes == reg.modes
    decreases |srcs|
  {
    if srcs != [] { UnsubscribeAllModes(reg, srcs[..|srcs| - 1], sub); }
  }

  lemma {:induction false} DetachAllModes(reg: Registry, id: Uid, subList: seq<Uid>)
    ensures reg.DetachAll(id, subList).modes == reg.modes
    decreases |subList|
  {
    if subList != [] { DetachAllModes(reg, id, subList[..|subList| - 1]); }
  }

  lemma RemoveNodeModes(reg: Registry, id: Uid)
    ensures reg.RemoveNode(id).modes == reg.modes - {id}
  {
    var up := reg.UnsubscribeAll(Ascending(reg.DepsOf(id)), id);
    UnsubscribeAllModes(reg, Ascending(reg.DepsOf(id)), id);
    DetachAllModes(up, id, Ascending(up.SubsOf(id)));
  }

  lemma DelNodeMode(e: EngineState, op: IsaOp, n: Uid)
    requires e.world.Wf() && op.DelNode?
    ensures ApplyGraph(e, op).e.world.reg.ModeOf(n) == ModeAfter(e, op, n)
  {
    DelNodeIs(e, op);
    DeletedModes(e, op.id);
    hide ApplyGraph, DeleteNode, RemoteAt;
  }

  lemma DeletedModes(e: EngineState, id: Uid)
    requires e.world.Wf()
    ensures DeleteNode(e, id).world.reg.modes == e.world.reg.modes - {id}
  {
    var e1 := RemoveEdges(e, Ascending(Incident(e, id)));
    RemoveEdgesModes(e, Ascending(Incident(e, id)));
    RemoveNodeModes(e1.world.reg, id);
    assert DeleteNode(e, id).world.reg == e1.world.reg.RemoveNode(id) by { hide RemoveEdges, Registry.RemoveNode, RegionCache.Invalidate; }
    hide DeleteNode, RemoveEdges, Registry.RemoveNode, Incident;
  }

  lemma CreateMode(e: EngineState, op: IsaOp, n: Uid)
    requires e.world.Wf() && op.NodeCreate?
    ensures ApplyGraph(e, op).e.world.reg.ModeOf(n) == ModeAfter(e, op, n)
  {
    hide Store.Alloc;
  }

  lemma SubscribeMode(e: EngineState, op: IsaOp, n: Uid)
    requires e.world.Wf() && op.Subscribe?
    ensures ApplyGraph(e, op).e.world.reg.ModeOf(n) == ModeAfter(e, op, n)
  {
    LinkModes(e.world, op.source, op.subscriber);
    hide Link;
  }

  lemma DelEdgeMode(e: EngineState, op: IsaOp, n: Uid)
    requires e.world.Wf() && op.DelEdge?
    ensures ApplyGraph(e, op).e.world.reg.ModeOf(n) == ModeAfter(e, op, n)
  {
    if op.id in e.edges { LinkModes(e.world, e.edges[op.id].src, e.edges[op.id].tgt); }
    hide Unlink, RegionCache.Invalidate;
  }

  lemma GraphMode(e: EngineState, op: IsaOp, n: Uid)
    requires e.world.Wf() && ChangesGraph(op)
    ensures ApplyGraph(e, op).e.world.reg.ModeOf(n) == ModeAfter(e, op, n)
  {
    hide ApplyGraph, ModeAfter, Registry.ModeOf;
    match op {
      case NodeCreate(_, _, _, _) => CreateMode(e, op, n);
      case EdgeConnect(_, _, _, _, _) => ConnectMode(e, op, n);
      case Subscribe(_, _) => SubscribeMode(e, op, n);
      case DelNode(_) => DelNodeMode(e, op, n);
      case DelEdge(_) => DelEdgeMode(e, op, n);
    }
  }

  lemma SameModeAfter(e: EngineState, op: IsaOp, n: Uid)
    ensures ModeAfter(e.(events := []), op, n) == ModeAfter(e, op, n)
  {
    if op.DelNode? { assert RemoteAt(e.(events := []), op.id) == RemoteAt(e, op.id); }
    hide RemoteAt;
  }

  lemma ValuesMode(e: EngineState, op: IsaOp, ch: Choices, n: Uid)
    requires Inv(e) && e.world.Wf() && CacheRunnable(e) && MovesValues(op)
    ensures ApplyValues(e, op, ch).e.world.reg.ModeOf(n) == ModeAfter(e, op, n)
  {
    ValuesMove(e, op, ch);
    MovedGraph(e, ApplyValues(e, op, ch).e);
    hide Inv, Moved, ApplyValues;
  }

  /** Whatever the instruction, every node's mode afterwards is the one above; so once an edge has made a node Lazy or
      Stabilizing, only `SetMode` or the node's deletion or re-creation changes that. */
  lemma ModesFollow(e: EngineState, op: IsaOp, ch: Choices, n: Uid)
    requires Inv(e)
    ensures Call(e, op, ch).e.world.reg.ModeOf(n) == ModeAfter(e, op, n)
  {
    var e0 := e.(events := []);
    OnlyQueues(e, e0);
    InvReady(e);
    SameModeAfter(e, op, n);
    hide Inv, ApplyGraph, ApplyValues, ApplyTables, ModeAfter, Registry.ModeOf;
    if ChangesGraph(op) { GraphMode(e0, op, n); } else if MovesValues(op) { ValuesMode(e0, op, ch, n); } else { TablesMode(e0, op, ch, n); }
  }

  lemma TablesMode(e: EngineState, op: IsaOp, ch: Choices, n: Uid)
    requires !ChangesGraph(op) && !MovesValues(op)
    ensures ApplyTables(e, op, ch).e.world.reg.ModeOf(n) == ModeAfter(e, op, n)
  {}

  // ---- reflection --------------------------------------------------------------------------------

  /** The drain leaves an Input node as it is. */
  lemma InputStands(q: Queue, n: Uid, node: Node, now: ProductTime, auth: map<(Uid, Uid), Verdict>, handled: seq<Word>, budget: nat)
    requires q.world.Wf() && n in q.world.nodes && q.world.nodes[n] == node && node.kind == Input
    ensures var w := Drain(q, now, auth, handled, budget).q.world; n in w.nodes && w.nodes[n] == node
  {
    var inv := (p: Queue) => n in p.world.nodes && p.world.nodes[n] == node;
    forall p: Queue | p.world.Wf() && p.items != [] && inv(p) ensures inv(DrainStep(p, now, auth, handled)) {
      InputStep(p, n, node, now, auth, handled);
    }
    hide DrainStep;
    var last := DrainInductionAny(q, now, auth, handled, budget, inv);
  }

  lemma InputStep(q: Queue, n: Uid, node: Node, now: ProductTime, auth: map<(Uid, Uid), Verdict>, handled: seq<Word>)
    requires q.world.Wf() && q.items != [] && n in q.world.nodes && q.world.nodes[n] == node && node.kind == Input
    ensures var w := DrainStep(q, now, auth, handled).world; n in w.nodes && w.nodes[n] == node
  {
    if q.items[0].Push? && !Handled(q.world, handled, q.items[0].id) {
      var id, ctx, stats := q.items[0].id, Ctx(now, auth, q.demanded), q.stats.(maxDepth := Larger(q.stats.maxDepth, |q.items|));
      PushStep(q, id, now, auth, handled);
      if id in q.world.nodes && q.world.nodes[id].kind.Computed? { StepEffect(q.world, id, ctx, stats); }
      hide DrainStep, StepTo, StepExtra, StepNext, Stamped, Bumped, ChangesIn, Pushes, Registry.Open;
    }
  }

  /** Without regions and requests the world of a call's reply is that of its one drain, however it ends. */
  lemma RestDrain(e: EngineState, roots: seq<Uid>, auth: map<(Uid, Uid), Verdict>, rounds: seq<seq<Stabilized>>)
    requires e.world.Wf() && CacheRunnable(e) && e.cache.regions == map[] && Calm(QueueOf(e))
    ensures DrainAndStabilize(e, roots, auth, rounds).e.world == Drain(QueueOf(e), e.now, auth, e.handled, e.maxSteps).q.world
  {
    var e0 := e.(cache := e.cache.(dirty := {}));
    NoRegions(e0, roots);
    var e1 := e0.(dirtySlots := Cleared(|e0.dirtySlots|));
    assert QueueOf(e1) == QueueOf(e);
    DrainCalm(QueueOf(e), e.now, auth, e.handled, e.maxSteps);
    UnaskedRequests(Drain(QueueOf(e), e.now, auth, e.handled, e.maxSteps).q.events);
    hide Drain, Coherent;
  }

  lemma PutReflectedIs(e: EngineState, n: Uid)
    requires e.world.Wf() && n in e.world.nodes
    ensures var out, prior := PutReflected(e, n), e.world.nodes[n].value;
      && out.world.nodes == e.world.nodes[n := Reflected(e.world.nodes[n])] && out.world.reg == e.world.reg
      && out.cache.regions == e.cache.regions && out.now == e.now && out.items == e.items
      && out.events == e.events + ReportOf(n, prior, MvNeg(prior))
  {
    assert e.events + [] == e.events;
    hide Store.Set;
  }

  lemma NotifiedIs(e: EngineState, n: Uid, subs: seq<Uid>, prior: T, next: T)
    ensures var out, a := Notified(e, n, subs, prior, next), BumpAndPush(Acc(e.world.reg, [], [], NO_STATS), n, subs, prior, next, WriteCtx(e.now));
      out.world.nodes == e.world.nodes && out.cache == e.cache && out.events == e.events && out.items == e.items + a.work
  {
    hide BumpAndPush;
  }

  lemma ReflectedParts(e: EngineState, n: Uid)
    requires e.world.Wf() && n in e.world.nodes
    ensures var out, prior := ReflectValue(e, n), e.world.nodes[n].value;
      && out.world.nodes == e.world.nodes[n := Reflected(e.world.nodes[n])] && out.cache.regions == e.cache.regions
      && out.events == e.events + ReportOf(n, prior, MvNeg(prior))
      && out.items == e.items + BumpAndPush(Acc(e.world.reg, [], [], NO_STATS), n, Ascending(e.world.reg.SubsOf(n)), prior, MvNeg(prior), WriteCtx(e.now)).work
  {
    var prior := e.world.nodes[n].value;
    PutReflectedIs(e, n);
    NotifiedIs(PutReflected(e, n), n, Ascending(e.world.reg.SubsOf(n)), prior, MvNeg(prior));
    hide BumpAndPush, Ascending, PutReflected, Notified, Reflected, MvNeg;
  }

  lemma CalmFrom(q: Queue, e: EngineState)
    requires q.world == e.world && q.events == e.events && q.items == e.items
    requires Coherent(e.world) && NoneStabilizing(e.world.reg) && Unasked(e.events) && AllPushes(e.items)
    ensures Calm(q)
  {
    hide Coherent;
  }

  lemma ReportUnasked(n: Uid, prior: T, next: T)
    ensures Unasked([] + ReportOf(n, prior, next))
  {}

  lemma ReflectedCalm(e: EngineState, n: Uid)
    requires Inv(e) && NoneStabilizing(e.world.reg) && e.items == [] && e.events == [] && n in e.world.nodes
    ensures e.world.Wf() && Calm(QueueOf(ReflectValue(e, n)))
  {
    InvReady(e);
    var out, prior := ReflectValue(e, n), e.world.nodes[n].value;
    hide Inv, Coherent, Moved, ReflectValue, BumpAndPush, PushSubs, Ascending, NoneStabilizing, Calm, Unasked, AllPushes, QueueOf, MvNeg, ReportOf;
    ReflectValueKeeps(e, n);
    ReflectedParts(e, n);
    LoopsCalm(Acc(e.world.reg, [], [], NO_STATS), n, Ascending(e.world.reg.SubsOf(n)), prior, MvNeg(prior), WriteCtx(e.now));
    ReportUnasked(n, prior, MvNeg(prior));
    CoherentMoved(e, out);
    ModesCalm(e.world.reg, out.world.reg);
    QueueIs(out);
    CalmFrom(QueueOf(out), out);
  }

  lemma ModesCalm(reg: Registry, reg': Registry)
    requires NoneStabilizing(reg) && reg'.modes == reg.modes
    ensures NoneStabilizing(reg')
  {}

  lemma QueueIs(e: EngineState)
    ensures QueueOf(e).world == e.world && QueueOf(e).events == e.events && QueueOf(e).items == e.items
  {}

  lemma CoherentMoved(e: EngineState, e': EngineState)
    requires Inv(e') && Moved(e, e')
    ensures Coherent(e'.world) && e'.world.reg.modes == e.world.reg.modes
  {}

  lemma ReflectTurnsIn(e: EngineState, n: Uid, ch: Choices)
    requires Inv(e) && NoneStabilizing(e.world.reg) && e.items == [] && e.events == [] && e.cache.regions == map[]
    requires n in e.world.nodes && e.world.nodes[n].kind == Input && e.world.Wf()
    ensures var e1 := ReflectValue(e, n); e1.world.Wf() && CacheRunnable(e1)
    ensures var w := DrainAndStabilize(ReflectValue(e, n), ch.roots, ch.auth, ch.rounds).e.world;
      n in w.nodes && w.nodes[n] == Reflected(e.world.nodes[n])
  {
    ReflectValueKeeps(e, n);
    var e1 := ReflectValue(e, n);
    InvReady(e1);
    ReflectedParts(e, n);
    ReflectedCalm(e, n);
    hide *;
    RestDrain(e1, ch.roots, ch.auth, ch.rounds);
    QueueIs(e1);
    InputStands(QueueOf(e1), n, Reflected(e.world.nodes[n]), e1.now, ch.auth, e1.handled, e1.maxSteps);
  }

  /** Reflecting an Input node turns its rank over the middle and moves its version by one, even where the value
      stays; nothing the call drains moves the node again. */
  lemma ReflectTurns(e: EngineState, n: Uid, ch: Choices)
    requires AtRest(e) && n in e.world.nodes && e.world.nodes[n].kind == Input
    ensures var r := Call(e, Reflect(n), ch);
      && n in r.e.world.nodes && Rank(r.e.world.nodes[n].value) == 2 - Rank(e.world.nodes[n].value)
      && r.e.world.nodes[n].version == e.world.nodes[n].version + 1
  {
    var e1 := e.(events := []).Log(Attribute);
    RestParts(e, n);
    ReflectTurnsIn(e1, n, ch);
    ReflectCall(e, n, ch);
    hide AtRest, ReflectValue, DrainAndStabilize, Call;
  }

  lemma RestParts(e: EngineState, n: Uid)
    requires AtRest(e)
    ensures var e1 := e.(events := []).Log(Attribute);
      && Inv(e) && Inv(e1) && e1.world == e.world && e1.world.Wf() && NoneStabilizing(e1.world.reg)
      && e1.items == [] && e1.events == [] && e1.cache.regions == map[]
  {
    OnlyQueues(e, e.(events := []));
    LogKeeps(e.(events := []), Attribute);
    InvReady(e);
    hide Inv;
  }

  lemma ReflectDrains(e: EngineState, n: Uid)
    requires e.world.Wf() && n in e.world.nodes
    ensures var e0 := e.(events := []); Drains(e0, Reflect(n)) && e0.world.Wf() && Loaded(e0, Reflect(n)) == ReflectValue(e0.Log(Attribute), n)
  {
    hide ReflectValue;
  }

  lemma ReflectCall(e: EngineState, n: Uid, ch: Choices)
    requires Inv(e) && n in e.world.nodes && e.world.Wf()
    ensures var e1 := e.(events := []).Log(Attribute);
      ReflectValue(e1, n).world.Wf() && CacheRunnable(ReflectValue(e1, n))
      && Call(e, Reflect(n), ch) == DrainAndStabilize(ReflectValue(e1, n), ch.roots, ch.auth, ch.rounds)
  {
    hide Inv, ReflectValue, DrainAndStabilize, Call, CacheRunnable, Loaded, Drains;
    ReflectDrains(e, n);
    LoadedCall(e, Reflect(n), ch);
  }
}
