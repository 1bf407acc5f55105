/** The causal clock: in which dimension each instruction ticks, and that the arrival counter counts the ticks. */
module CausalClock {
  import opened Base
  import opened Bits
  import opened Ternary
  import opened Time
  import opened Isa
  import opened Deps
  import opened Propagation
  import opened Draining
  import opened Regions
  import opened RegionRun
  import opened EngineModel
  import opened EngineValues
  import opened EngineInvariant
  import opened EngineRuns
  import opened Eviction
  import opened StabilisationRounds

  function Ticks(t: ProductTime): int {
    t.Get(TimeDim.Identity) + t.Get(Attribute) + t.Get(Dependency) + t.Get(Egraph) + t.Get(TimeDim.Boundary)
  }

  /** The clock ticked once in the dimension, if any, and else at most in the dimension of resolved sections; the arrival
      counter moved by as many ticks. */
  ghost predicate Ticked(e: EngineState, e': EngineState, dim: Option<TimeDim>) {
    && (forall d :: d != Egraph ==> e'.now.Get(d) == e.now.Get(d) + if dim == Some(d) then 1 else 0)
    && e'.now.Get(Egraph) >= e.now.Get(Egraph) + (if dim == Some(Egraph) then 1 else 0)
    && e'.arrival + Ticks(e.now) == e.arrival + Ticks(e'.now)
  }

  lemma TickedNext(a: EngineState, b: EngineState, c: EngineState, dim: Option<TimeDim>)
    requires Ticked(a, b, dim) && Ticked(b, c, None)
    ensures Ticked(a, c, dim)
  {}

  lemma Stopped(e: EngineState, e': EngineState)
    requires e'.now == e.now && e'.arrival == e.arrival
    ensures Ticked(e, e', None)
  {}

  lemma LogTicks(e: EngineState, dim: TimeDim)
    ensures Ticked(e, e.Log(dim), Some(dim)) && (dim == Egraph ==> Ticked(e, e.Log(dim), None))
  {}

  ghost predicate SameClock(e: EngineState, e': EngineState) { e'.now == e.now && e'.arrival == e.arrival }

  // ---- draining and stabilising ---------------------------------------------------------------

  lemma {:induction false} ResolvedClock(e: EngineState, ids: seq<Uid>, v: T)
    requires e.world.Wf()
    ensures SameClock(e, ResolveAll(e, ids, v))
    decreases |ids|
  {
    if ids != [] { ResolvedClock(e, ids[..|ids| - 1], v); }
    hide PushSubs;
  }

  lemma StabilisedTicks(e: EngineState, seeds: seq<Uid>, s: Stabilized)
    requires e.world.Wf()
    ensures Ticked(e, Stabilise(e, seeds, s), None)
  {
    Stopped(e, e);
    DemandNegWf(e, Ascending(s.members));
    match s.verdict {
      case Settled(v) =>
        if v.Some? {
          ResolvedClock(e, Ascending(s.members), v.value);
          LogTicks(ResolveAll(e, Ascending(s.members), v.value), Egraph);
        }
      case _ =>
    }
    hide ResolveAll, DemandNeg;
  }

  lemma {:induction false} EachTicks(e: EngineState, requests: seq<seq<Uid>>, answers: seq<Stabilized>)
    requires e.world.Wf()
    ensures Ticked(e, StabiliseEach(e, requests, answers), None)
    decreases |requests|
  {
    if requests == [] || answers == [] {
      Stopped(e, e);
    } else {
      var e1 := Stabilise(e, requests[0], answers[0]);
      StabilisedTicks(e, requests[0], answers[0]);
      EachTicks(e1, requests[1..], answers[1..]);
      EachFirst(e, requests, answers);
      TickedNext(e, e1, StabiliseEach(e1, requests[1..], answers[1..]), None);
    }
    hide Stabilise, Ticked;
  }

  lemma {:induction false} SettledTicks(e: EngineState, auth: map<(Uid, Uid), Verdict>, rounds: seq<seq<Stabilized>>)
    requires e.world.Wf()
    ensures Ticked(e, Settle(e, auth, rounds).e, None)
    decreases |rounds|
  {
    DrainWf(QueueOf(e), e.now, auth, e.handled, e.maxSteps);
    var d := Drain(QueueOf(e), e.now, auth, e.handled, e.maxSteps);
    var e1 := WithQueue(e, d.q);
    if d.Idle? && Requests(e1.events) != [] && rounds != [] {
      var e2 := e1.(events := WithoutRequests(e1.events));
      var e3 := StabiliseEach(e2, Requests(e1.events), rounds[0]);
      EachTicks(e2, Requests(e1.events), rounds[0]);
      SettledTicks(e3, auth, rounds[1..]);
      Stopped(e, e2);
      TickedNext(e, e2, e3, None);
      TickedNext(e, e3, Settle(e3, auth, rounds[1..]).e, None);
    } else {
      Stopped(e, Settle(e, auth, rounds).e);
    }
    hide Drain, StabiliseEach, Requests, WithoutRequests, Ticked;
  }

  lemma NotifiedClock(e: EngineState, n: Uid, subs: seq<Uid>, prior: T, next: T)
    ensures SameClock(e, Notified(e, n, subs, prior, next))
  {
    hide BumpAndPush;
  }

  lemma {:induction false} SyncClock(e: EngineState, members: seq<Uid>, changed: seq<(Uid, T, T)>)
    ensures SameClock(e, SyncChanges(e, members, changed))
    decreases |changed|
  {
    if changed != [] {
      var before, change := SyncChanges(e, members, changed[..|changed| - 1]), changed[|changed| - 1];
      SyncClock(e, members, changed[..|changed| - 1]);
      var e1 := SyncWrite(before, change.0, change.1, change.2);
      NotifiedClock(e1, change.0, OutsideOf(Ascending(e1.world.reg.SubsOf(change.0)), members), change.1, change.2);
      assert SyncChanges(e, members, changed) == Notified(e1, change.0, OutsideOf(Ascending(e1.world.reg.SubsOf(change.0)), members), change.1, change.2)
      by { hide Notified, OutsideOf, Ascending; }
    }
    hide Notified, OutsideOf, Ascending, SyncChanges, SyncChange;
  }

  lemma {:induction false} RunClock(e: EngineState, roots: seq<Uid>)
    requires e.world.Wf() && CacheRunnable(e)
    ensures SameClock(e, RunRegions(e, roots))
    decreases |roots|
  {
    if roots != [] {
      var before, root := RunRegions(e, roots[..|roots| - 1]), roots[|roots| - 1];
      RunClock(e, roots[..|roots| - 1]);
      RunRegionKeeps(before, root);
      if root in before.cache.regions {
        SyncClock(Ran(before, before.cache.regions[root]), before.cache.regions[root].members, ChangedBy(before, before.cache.regions[root]));
      }
    }
    hide SyncChanges, IncEval, Redirtied, MarkHandled;
  }

  lemma DrainedTicks(e: EngineState, ch: Choices)
    requires e.world.Wf() && CacheRunnable(e)
    ensures Ticked(e, DrainAndStabilize(e, ch.roots, ch.auth, ch.rounds).e, None)
  {
    var e1 := e.(cache := e.cache.(dirty := {}));
    RunClock(e1, ch.roots);
    var e2 := RunRegions(e1, ch.roots);
    var e3 := e2.(dirtySlots := Cleared(|e2.dirtySlots|));
    SettledTicks(e3, ch.auth, ch.rounds);
    Stopped(e, e3);
    TickedNext(e, e3, Settle(e3, ch.auth, ch.rounds).e, None);
    hide RunRegions, Settle, Ticked;
  }

  // ---- every instruction ------------------------------------------------------------------------

  /** The dimension an instruction ticks in; a refused one ticks only when it is a reflection, and a write of the value a node
      has does not. */
  ghost function TickOf(e: EngineState, op: IsaOp): Option<TimeDim> {
    match op
    case NodeCreate(_, _, _, _) => Some(TimeDim.Identity)
    case EdgeConnect(_, _, src, tgt, _) => if src in e.world.nodes && tgt in e.world.nodes then Some(Dependency) else None
    case Subscribe(_, _) => Some(Dependency)
    case DelNode(id) => if RemoteAt(e, id) then None else Some(TimeDim.Identity)
    case DelEdge(id) => if id in e.edges && !e.edges[id].remote then Some(Dependency) else None
    case SetValue(node, v) => if node in e.world.nodes && v != e.world.nodes[node].value then Some(Attribute) else None
    case Propagate(_) => Some(Attribute)
    case Demand(_) => Some(Attribute)
    case Reflect(_) => Some(Attribute)
    case Stabilize(_) => Some(Egraph)
    case SetMode(node, _) => if node in e.world.nodes then Some(TimeDim.Identity) else None
    case _ => Some(TimeDim.Identity)
  }

  lemma {:induction false} RemovedClock(e: EngineState, ids: seq<Uid>)
    requires e.world.store.Shaped()
    ensures SameClock(e, RemoveEdges(e, ids))
    decreases |ids|
  {
    if ids != [] { RemovedClock(e, ids[..|ids| - 1]); }
    hide Unlink;
  }

  lemma DeletedClock(e: EngineState, id: Uid)
    requires e.world.Wf()
    ensures SameClock(e, DeleteNode(e, id)) && (id in e.edges ==> SameClock(e, DeleteEdge(e, id)))
  {
    RemovedClock(e, Ascending(Incident(e, id)));
    hide RemoveEdges, Unlink, Incident, Registry.RemoveNode, RegionCache.Invalidate;
  }

  lemma DelNodeTicks(e: EngineState, op: IsaOp)
    requires e.world.Wf() && op.DelNode?
    ensures Ticked(e, ApplyGraph(e, op).e, TickOf(e, op))
  {
    RemoteIs(e, op.id);
    DeletedClock(e, op.id);
    hide DeleteNode, RemoteAt, Incident;
  }

  lemma DelEdgeTicks(e: EngineState, op: IsaOp)
    requires e.world.Wf() && op.DelEdge?
    ensures Ticked(e, ApplyGraph(e, op).e, TickOf(e, op))
  {
    DeletedClock(e, op.id);
    hide DeleteEdge;
  }

  lemma AdditionTicks(e: EngineState, op: IsaOp)
    requires e.world.Wf() && (op.NodeCreate? || op.EdgeConnect? || op.Subscribe?)
    ensures Ticked(e, ApplyGraph(e, op).e, TickOf(e, op))
  {
    hide RegionCache.Invalidate, Link, InferMode;
  }

  lemma GraphTicks(e: EngineState, op: IsaOp)
    requires e.world.Wf() && ChangesGraph(op)
    ensures Ticked(e, ApplyGraph(e, op).e, TickOf(e, op))
  {
    hide Ticked, ApplyGraph, TickOf;
    if op.DelNode? { DelNodeTicks(e, op); } else if op.DelEdge? { DelEdgeTicks(e, op); } else { AdditionTicks(e, op); }
  }

  lemma TablesTick(e: EngineState, op: IsaOp, ch: Choices)
    requires !ChangesGraph(op) && !MovesValues(op)
    ensures Ticked(e, ApplyTables(e, op, ch).e, TickOf(e, op))
  {}

  lemma WrittenTicks(e: EngineState, n: Uid, v: T)
    requires e.world.Wf() && n in e.world.nodes
    ensures Ticked(e, WriteValue(e, n, v), Some(Attribute))
  {
    var e2 := PutValue(e, n, v);
    NotifiedClock(e2, n, Ascending(e2.world.reg.SubsOf(n)), e.world.nodes[n].value, v);
    hide Notified, Ascending;
  }

  lemma ReflectedClock(e: EngineState, n: Uid)
    requires e.world.Wf() && n in e.world.nodes
    ensures SameClock(e, ReflectValue(e, n))
  {
    var e2 := PutReflected(e, n);
    NotifiedClock(e2, n, Ascending(e2.world.reg.SubsOf(n)), e.world.nodes[n].value, MvNeg(e.world.nodes[n].value));
    hide Notified, Ascending;
  }

  lemma ValuesTick(e: EngineState, op: IsaOp, ch: Choices)
    requires e.world.Wf() && CacheRunnable(e) && MovesValues(op)
    ensures Ticked(e, ApplyValues(e, op, ch).e, TickOf(e, op))
  {
    match op {
      case SetValue(node, v) =>
        Stopped(e, e);
        if node in e.world.nodes && v != e.world.nodes[node].value {
          WriteValueReady(e, node, v);
          WrittenTicks(e, node, v);
          DrainedTicks(WriteValue(e, node, v), ch);
          TickedNext(e, WriteValue(e, node, v), DrainAndStabilize(WriteValue(e, node, v), ch.roots, ch.auth, ch.rounds).e, Some(Attribute));
        }
      case Propagate(node) => EnqueuedTicks(e, Push(node), ch);
      case Demand(node) => EnqueuedTicks(e, DemandItem(node), ch);
      case Reflect(node) =>
        var e1 := e.Log(Attribute);
        LogTicks(e, Attribute);
        if node in e.world.nodes {
          ReflectValueReady(e1, node);
          ReflectedClock(e1, node);
          Stopped(e1, ReflectValue(e1, node));
          DrainedTicks(ReflectValue(e1, node), ch);
          TickedNext(e, e1, ReflectValue(e1, node), Some(Attribute));
          TickedNext(e, ReflectValue(e1, node), DrainAndStabilize(ReflectValue(e1, node), ch.roots, ch.auth, ch.rounds).e, Some(Attribute));
        }
      case Stabilize(region) => ExplicitTicks(e, if region.Some? then region.value else Ascending(ZeroNodes(e.world)), ch.explicitRun);
    }
    hide WriteValue, ReflectValue, DrainAndStabilize, Stabilise, Ticked;
  }

  lemma EnqueuedTicks(e: EngineState, item: WorkItem, ch: Choices)
    requires e.world.Wf() && CacheRunnable(e)
    ensures var e1 := e.Enqueue(item).Log(Attribute);
      e1.world.Wf() && CacheRunnable(e1) && Ticked(e, DrainAndStabilize(e1, ch.roots, ch.auth, ch.rounds).e, Some(Attribute))
  {
    var e1 := e.Enqueue(item).Log(Attribute);
    DrainedTicks(e1, ch);
    assert Ticked(e, e1, Some(Attribute));
    TickedNext(e, e1, DrainAndStabilize(e1, ch.roots, ch.auth, ch.rounds).e, Some(Attribute));
    hide DrainAndStabilize;
  }

  lemma ExplicitTicks(e: EngineState, seeds: seq<Uid>, s: Stabilized)
    requires e.world.Wf()
    ensures Ticked(e, TakeEvents(Stabilise(e, seeds, s).Log(Egraph)).e, Some(Egraph))
  {
    StabilisedTicks(e, seeds, s);
    hide Stabilise;
  }

  /** Every instruction ticks in its dimension and no other, but for one tick of the e-graph dimension per resolved section; the
      arrival counter counts all ticks. */
  lemma CallTicks(e: EngineState, op: IsaOp, ch: Choices)
    requires Inv(e)
    ensures Ticked(e, Call(e, op, ch).e, TickOf(e, op))
  {
    InvReady(e);
    var e0 := e.(events := []);
    SameTick(e, op);
    SameStart(e, e0, Call(e, op, ch).e, TickOf(e, op));
    hide Ticked;
    if ChangesGraph(op) { GraphTicks(e0, op); } else if MovesValues(op) { ValuesTick(e0, op, ch); } else { TablesTick(e0, op, ch); }
    hide Inv, TickOf, ApplyGraph, ApplyValues, ApplyTables;
  }

  lemma SameStart(e: EngineState, e0: EngineState, e': EngineState, dim: Option<TimeDim>)
    requires SameClock(e, e0)
    ensures Ticked(e0, e', dim) <==> Ticked(e, e', dim)
  {}

  lemma SameTick(e: EngineState, op: IsaOp)
    ensures TickOf(e.(events := []), op) == TickOf(e, op)
  {
    if op.DelNode? { assert RemoteAt(e.(events := []), op.id) == RemoteAt(e, op.id); }
  }

  /** Over every run the arrival counter is the number of ticks of the clock. */
  lemma ArrivalsAreTicks(states: seq<EngineState>, ops: seq<IsaOp>, choices: seq<Choices>)
    requires Run(states, ops, choices) && states[0] == EMPTY_ENGINE
    ensures forall i :: 0 <= i < |states| ==> states[i].arrival == Ticks(states[i].now)
  {
    EmptyClock();
    hide Inv, Step, Ticks, EMPTY_ENGINE;
    RunsKeep(states, ops, choices);
    for k := 0 to |ops|
      invariant forall i :: 0 <= i <= k ==> states[i].arrival == Ticks(states[i].now)
    {
      ArrivalStep(states[k], ops[k], choices[k], states[k + 1]);
    }
  }

  lemma EmptyClock()
    ensures EMPTY_ENGINE.arrival == Ticks(EMPTY_ENGINE.now)
  {}

  lemma ArrivalStep(e: EngineState, op: IsaOp, ch: Choices, e': EngineState)
    requires Inv(e) && Step(e, op, ch, e') && e.arrival == Ticks(e.now)
    ensures e'.arrival == Ticks(e'.now)
  {
    CallTicks(e, op, ch);
    hide Inv, Ticks, Apply, TickOf;
  }
}
