/** What every registered pair observes: all dimensions from its registration on, until a label says otherwise. */
module Masks {
  import opened Base
  import opened Bits
  import opened Ternary
  import opened Rules
  import opened Time
  import opened Isa
  import opened Deps
  import opened Propagation
  import opened StepFacts
  import opened Draining
  import opened Coherence
  import opened Regions
  import opened RegionRun
  import opened Writes
  import opened EngineModel
  import opened EngineValues
  import opened EngineInvariant
  import opened EngineRuns
  import opened Eviction
  import opened StabilisationRounds

  /** No pair is new, and none observes anything else than before. */
  ghost predicate MasksKept(reg: Registry, reg': Registry) {
    forall p :: p in reg'.meta ==> p in reg.meta && reg'.meta[p].mask == reg.meta[p].mask
  }

  lemma KeptTwice(a: Registry, b: Registry, c: Registry)
    requires MasksKept(a, b) && MasksKept(b, c)
    ensures MasksKept(a, c)
  {}

  lemma StampedMasks(reg: Registry, reg': Registry, n: Uid, to: seq<Uid>, now: ProductTime)
    requires reg'.meta == Stamped(reg.meta, n, to, now)
    ensures MasksKept(reg, reg')
  {}

  lemma LoopedMasks(reg: Registry, reg': Registry, n: Uid, now: ProductTime)
    requires Looped(reg, reg', n, now)
    ensures MasksKept(reg, reg')
  {
    var to: seq<Uid> :| reg' == reg.(counters := reg'.counters, meta := Stamped(reg.meta, n, to, now));
    StampedMasks(reg, reg', n, to, now);
  }

  // ---- moving values -----------------------------------------------------------------------------

  lemma NotifiedMasks(e: EngineState, n: Uid, subs: seq<Uid>, prior: T, next: T)
    requires Distinct(subs)
    ensures MasksKept(e.world.reg, Notified(e, n, subs, prior, next).world.reg)
  {
    var a := Acc(e.world.reg, [], [], NO_STATS);
    LoopIs(a, n, subs, prior, next, WriteCtx(e.now));
    LoopedMasks(e.world.reg, BumpAndPush(a, n, subs, prior, next, WriteCtx(e.now)).reg, n, e.now);
    hide BumpAndPush, MasksKept, Looped;
  }

  lemma PushMasks(w: World, n: Uid, ctx: Ctx, stats: Stats)
    requires w.Wf()
    ensures MasksKept(w.reg, StepPush(w, n, ctx, stats).world.reg)
  {
    if n in w.nodes && w.nodes[n].kind.Computed? {
      StepEffect(w, n, ctx, stats);
      EffectMasks(w, n, ctx, StepPush(w, n, ctx, stats), StepNext(w, n), StepTo(w, n, ctx), StepExtra(w, n));
      hide StepPush, Effect, MasksKept;
    }
  }

  lemma EffectMasks(w: World, n: Uid, ctx: Ctx, o: Outcome, next: T, to: seq<Uid>, extra: seq<WorkItem>)
    requires w.Wf() && n in w.nodes && Effect(w, n, ctx, o, next, to, extra)
    ensures MasksKept(w.reg, o.world.reg)
  {
    StampedMasks(w.reg, o.world.reg, n, to, ctx.now);
    hide Bumped, ChangesIn, Pushes, Stamped, MasksKept;
  }

  lemma DrainStepMasks(reg: Registry, q: Queue, now: ProductTime, auth: map<(Uid, Uid), Verdict>, handled: seq<Word>)
    requires q.world.Wf() && q.items != [] && MasksKept(reg, q.world.reg)
    ensures MasksKept(reg, DrainStep(q, now, auth, handled).world.reg)
  {
    if q.items[0].Push? && !Handled(q.world, handled, q.items[0].id) {
      var id, ctx, stats := q.items[0].id, Ctx(now, auth, q.demanded), q.stats.(maxDepth := Larger(q.stats.maxDepth, |q.items|));
      PushMasks(q.world, id, ctx, stats);
      KeptTwice(reg, q.world.reg, StepPush(q.world, id, ctx, stats).world.reg);
      PushStep(q, id, now, auth, handled);
      hide StepPush, DrainStep, MasksKept;
    }
    hide StepPush, MasksKept;
  }

  lemma DrainMasks(q: Queue, now: ProductTime, auth: map<(Uid, Uid), Verdict>, handled: seq<Word>, budget: nat)
    requires q.world.Wf()
    ensures MasksKept(q.world.reg, Drain(q, now, auth, handled, budget).q.world.reg)
  {
    var reg := q.world.reg;
    var inv := (p: Queue) => MasksKept(reg, p.world.reg);
    forall p: Queue | p.world.Wf() && p.items != [] && inv(p) ensures inv(DrainStep(p, now, auth, handled)) {
      DrainStepMasks(reg, p, now, auth, handled);
    }
    hide DrainStep;
    var last := DrainInductionAny(q, now, auth, handled, budget, inv);
  }

  ghost predicate MasksStand(e: EngineState, e': EngineState) { MasksKept(e.world.reg, e'.world.reg) }

  lemma StandTwice(a: EngineState, b: EngineState, c: EngineState)
    requires MasksStand(a, b) && MasksStand(b, c)
    ensures MasksStand(a, c)
  {}

  lemma ResolveOneMasks(e: EngineState, id: Uid, v: T)
    requires e.world.Wf()
    ensures MasksStand(e, ResolveOne(e, id, v))
  {
    if id in e.world.nodes && e.world.nodes[id].value == Zero {
      var w := e.world.Put(id, v);
      var a := Acc(w.reg, [], [], NO_STATS);
      AscendingDistinct(w.reg.SubsOf(id));
      PushLoopIs(a, id, Ascending(w.reg.SubsOf(id)), WriteCtx(e.now));
      LoopedMasks(w.reg, PushSubs(a, id, Ascending(w.reg.SubsOf(id)), WriteCtx(e.now)).reg, id, e.now);
      hide PushSubs, Looped, MasksKept;
    }
  }

  lemma {:induction false} ResolveAllMasks(e: EngineState, ids: seq<Uid>, v: T)
    requires e.world.Wf()
    ensures MasksStand(e, ResolveAll(e, ids, v))
    decreases |ids|
  {
    if ids != [] {
      var before := ResolveAll(e, ids[..|ids| - 1], v);
      ResolveAllMasks(e, ids[..|ids| - 1], v);
      ResolveOneMasks(before, ids[|ids| - 1], v);
      assert ResolveAll(e, ids, v) == ResolveOne(before, ids[|ids| - 1], v);
      hide *;
      StandTwice(e, before, ResolveAll(e, ids, v));
    }
  }

  lemma StabiliseMasks(e: EngineState, seeds: seq<Uid>, s: Stabilized)
    requires e.world.Wf()
    ensures MasksStand(e, Stabilise(e, seeds, s))
  {
    DemandNegWf(e, Ascending(s.members));
    match s.verdict {
      case Settled(v) => if v.Some? { ResolveAllMasks(e, Ascending(s.members), v.value); }
      case _ =>
    }
    hide ResolveAll, DemandNeg;
  }

  lemma {:induction false} EachMasks(e: EngineState, requests: seq<seq<Uid>>, answers: seq<Stabilized>)
    requires e.world.Wf()
    ensures MasksStand(e, StabiliseEach(e, requests, answers))
    decreases |requests|
  {
    if requests != [] && answers != [] {
      var e1 := Stabilise(e, requests[0], answers[0]);
      StabiliseMasks(e, requests[0], answers[0]);
      EachMasks(e1, requests[1..], answers[1..]);
      StandTwice(e, e1, StabiliseEach(e1, requests[1..], answers[1..]));
      EachFirst(e, requests, answers);
    }
    hide Stabilise, MasksKept;
  }

  lemma {:induction false} SettleMasks(e: EngineState, auth: map<(Uid, Uid), Verdict>, rounds: seq<seq<Stabilized>>)
    requires e.world.Wf()
    ensures MasksStand(e, Settle(e, auth, rounds).e)
    decreases |rounds|
  {
    DrainWf(QueueOf(e), e.now, auth, e.handled, e.maxSteps);
    DrainMasks(QueueOf(e), e.now, auth, e.handled, e.maxSteps);
    var d := Drain(QueueOf(e), e.now, auth, e.handled, e.maxSteps);
    var e1 := WithQueue(e, d.q);
    if d.Idle? && Requests(e1.events) != [] && rounds != [] {
      var e2 := e1.(events := WithoutRequests(e1.events));
      var e3 := StabiliseEach(e2, Requests(e1.events), rounds[0]);
      EachMasks(e2, Requests(e1.events), rounds[0]);
      SettleMasks(e3, auth, rounds[1..]);
      StandTwice(e, e2, e3);
      StandTwice(e, e3, Settle(e3, auth, rounds[1..]).e);
    }
    hide Drain, StabiliseEach, Requests, WithoutRequests, MasksKept;
  }

  // ---- the compiled tier

  lemma {:induction false} SyncMasks(e: EngineState, members: seq<Uid>, changed: seq<(Uid, T, T)>)
    ensures MasksStand(e, SyncChanges(e, members, changed))
    decreases |changed|
  {
    if changed != [] {
      var before, change := SyncChanges(e, members, changed[..|changed| - 1]), changed[|changed| - 1];
      SyncMasks(e, members, changed[..|changed| - 1]);
      SyncChangeMasks(before, members, change);
      assert SyncChanges(e, members, changed) == SyncChange(before, members, change);
      StandTwice(e, before, SyncChanges(e, members, changed));
    }
    hide SyncChange, SyncChanges, MasksKept;
  }

  lemma SyncChangeMasks(e: EngineState, members: seq<Uid>, change: (Uid, T, T))
    ensures MasksStand(e, SyncChange(e, members, change))
  {
    var e1 := SyncWrite(e, change.0, change.1, change.2);
    var subs := OutsideOf(Ascending(e1.world.reg.SubsOf(change.0)), members);
    AscendingDistinct(e1.world.reg.SubsOf(change.0));
    OutsideDistinct(Ascending(e1.world.reg.SubsOf(change.0)), members);
    NotifiedMasks(e1, change.0, subs, change.1, change.2);
    hide Notified, OutsideOf, Ascending, MasksKept;
  }

  lemma {:induction false} RunMasks(e: EngineState, roots: seq<Uid>)
    requires e.world.Wf() && CacheRunnable(e)
    ensures MasksStand(e, RunRegions(e, roots))
    decreases |roots|
  {
    if roots != [] {
      var before, root := RunRegions(e, roots[..|roots| - 1]), roots[|roots| - 1];
      RunMasks(e, roots[..|roots| - 1]);
      RunRegionKeeps(before, root);
      if root in before.cache.regions {
        var r := before.cache.regions[root];
        SyncMasks(Ran(before, r), r.members, ChangedBy(before, r));
        StandTwice(e, before, RunRegion(before, root));
      }
    }
    hide SyncChanges, MasksKept, IncEval, Redirtied, MarkHandled;
  }

  lemma DrainAndStabilizeMasks(e: EngineState, ch: Choices)
    requires e.world.Wf() && CacheRunnable(e)
    ensures MasksStand(e, DrainAndStabilize(e, ch.roots, ch.auth, ch.rounds).e)
  {
    var e1 := e.(cache := e.cache.(dirty := {}));
    RunMasks(e1, ch.roots);
    var e2 := RunRegions(e1, ch.roots);
    var e3 := e2.(dirtySlots := Cleared(|e2.dirtySlots|));
    SettleMasks(e3, ch.auth, ch.rounds);
    StandTwice(e, e3, Settle(e3, ch.auth, ch.rounds).e);
    hide RunRegions, Settle, MasksKept;
  }

  lemma ValuesMasks(e: EngineState, op: IsaOp, ch: Choices)
    requires e.world.Wf() && CacheRunnable(e) && MovesValues(op)
    ensures MasksStand(e, ApplyValues(e, op, ch).e)
  {
    match op {
      case SetValue(node, v) =>
        if node in e.world.nodes && v != e.world.nodes[node].value {
          WriteValueReady(e, node, v);
          DrainAndStabilizeMasks(WriteValue(e, node, v), ch);
          WrittenMasks(e, node, v);
          StandTwice(e, WriteValue(e, node, v), DrainAndStabilize(WriteValue(e, node, v), ch.roots, ch.auth, ch.rounds).e);
        }
      case Propagate(node) => DrainAndStabilizeMasks(e.Enqueue(Push(node)).Log(Attribute), ch);
      case Demand(node) => DrainAndStabilizeMasks(e.Enqueue(DemandItem(node)).Log(Attribute), ch);
      case Reflect(node) =>
        var e1 := e.Log(Attribute);
        if node in e.world.nodes {
          ReflectValueReady(e1, node);
          DrainAndStabilizeMasks(ReflectValue(e1, node), ch);
          ReflectedMasks(e1, node);
          StandTwice(e, ReflectValue(e1, node), DrainAndStabilize(ReflectValue(e1, node), ch.roots, ch.auth, ch.rounds).e);
        }
      case Stabilize(region) =>
        StabiliseMasks(e, if region.Some? then region.value else Ascending(ZeroNodes(e.world)), ch.explicitRun);
    }
    hide WriteValue, ReflectValue, DrainAndStabilize, Stabilise, MasksKept;
  }

  lemma WrittenMasks(e: EngineState, n: Uid, v: T)
    requires e.world.Wf() && n in e.world.nodes
    ensures MasksStand(e, WriteValue(e, n, v))
  {
    var e2 := PutValue(e, n, v);
    AscendingDistinct(e2.world.reg.SubsOf(n));
    NotifiedMasks(e2, n, Ascending(e2.world.reg.SubsOf(n)), e.world.nodes[n].value, v);
    assert e2.world.reg == e.world.reg by { hide Notified; }
    hide Notified, MasksKept, PutValue, Ascending;
  }

  lemma ReflectedMasks(e: EngineState, n: Uid)
    requires e.world.Wf() && n in e.world.nodes
    ensures MasksStand(e, ReflectValue(e, n))
  {
    var e2 := PutReflected(e, n);
    AscendingDistinct(e2.world.reg.SubsOf(n));
    NotifiedMasks(e2, n, Ascending(e2.world.reg.SubsOf(n)), e.world.nodes[n].value, MvNeg(e.world.nodes[n].value));
    assert e2.world.reg == e.world.reg by { hide Notified; }
    hide Notified, MasksKept, PutReflected, Ascending;
  }

  // ---- every instruction -----------------------------------------------------------------------------

  /** A pair as registration makes it: it observes every dimension and has never been stamped. */
  ghost predicate FreshPair(m: DepMeta) { forall d: TimeDim :: d in m.mask && m.lastSeen.Get(d) == 0 }

  ghost predicate SameMask(reg: Registry, reg': Registry, p: (Uid, Uid))
    requires p in reg'.meta
  {
    p in reg.meta && reg'.meta[p].mask == reg.meta[p].mask
  }

  /** The pairs an instruction registers are fresh, a labelled one observes what its label says, and no other pair is new
      or observes anything else than before. */
  ghost predicate MasksFollow(e: EngineState, op: IsaOp, e': EngineState) {
    forall p :: p in e'.world.reg.meta ==> MaskFollows(e, op, e', p)
  }

  ghost predicate MaskFollows(e: EngineState, op: IsaOp, e': EngineState, p: (Uid, Uid))
    requires p in e'.world.reg.meta
  {
    match op
    case EdgeConnect(_, _, src, tgt, _) =>
      if p == (src, tgt) && src in e.world.nodes && tgt in e.world.nodes then FreshPair(e'.world.reg.meta[p])
      else SameMask(e.world.reg, e'.world.reg, p)
    case Subscribe(source, subscriber) =>
      if p == (source, subscriber) then FreshPair(e'.world.reg.meta[p]) else SameMask(e.world.reg, e'.world.reg, p)
    case SetEdgeLabel(source, target, edgeLabel) =>
      if p == (source, target) then p in e.world.reg.meta && e'.world.reg.meta[p].mask == edgeLabel.projectionMask.dims
      else SameMask(e.world.reg, e'.world.reg, p)
    case _ => SameMask(e.world.reg, e'.world.reg, p)
  }

  lemma DefaultIsFresh()
    ensures FreshPair(DEFAULT_META)
  {
    forall d: TimeDim ensures d in ALL_DIMS && ZERO_TIME.Get(d) == 0 {
      match d { case Identity => case Attribute => case Dependency => case Egraph => case Boundary => }
    }
  }

  lemma AdditionMasks(e: EngineState, op: IsaOp)
    requires e.world.Wf() && (op.NodeCreate? || op.EdgeConnect? || op.Subscribe?)
    ensures MasksFollow(e, op, ApplyGraph(e, op).e)
  {
    DefaultIsFresh();
    hide FreshPair, RegionCache.Invalidate, DEFAULT_META;
  }

  lemma StandFollows(e: EngineState, op: IsaOp, e': EngineState)
    requires MasksStand(e, e') && !op.EdgeConnect? && !op.Subscribe? && !op.SetEdgeLabel?
    ensures MasksFollow(e, op, e')
  {}

  lemma {:induction false} RemoveEdgesMasks(e: EngineState, ids: seq<Uid>)
    requires e.world.store.Shaped()
    ensures MetaWithin(e.world.reg, RemoveEdges(e, ids).world.reg)
    decreases |ids|
  {
    if ids != [] {
      var before := RemoveEdges(e, ids[..|ids| - 1]);
      RemoveEdgesMasks(e, ids[..|ids| - 1]);
      if ids[|ids| - 1] in before.edges {
        UnlinkWithin(before.world, before.edges[ids[|ids| - 1]].src, before.edges[ids[|ids| - 1]].tgt);
      }
      hide Unlink;
    }
  }

  lemma UnlinkWithin(w: World, src: Uid, tgt: Uid)
    requires w.store.Shaped()
    ensures MetaWithin(w.reg, Unlink(w, src, tgt).reg)
  {}

  lemma DeletionMasks(e: EngineState, op: IsaOp)
    requires e.world.Wf() && (op.DelNode? || op.DelEdge?)
    ensures MasksStand(e, ApplyGraph(e, op).e)
  {
    if op.DelNode? {
      var e1 := RemoveEdges(e, Ascending(Incident(e, op.id)));
      DelNodeIs(e, op);
      RemoveEdgesMasks(e, Ascending(Incident(e, op.id)));
      RemoveNodeMeta(e1.world.reg, op.id);
      assert DeleteNode(e, op.id).world.reg == e1.world.reg.RemoveNode(op.id) by { hide RemoveEdges, Registry.RemoveNode, RegionCache.Invalidate; }
    } else if op.id in e.edges {
      UnlinkWithin(e.world, e.edges[op.id].src, e.edges[op.id].tgt);
    }
    hide DeleteNode, RemoveEdges, Registry.RemoveNode, RegionCache.Invalidate, Unlink, RemoteAt, Incident, Ascending;
  }

  lemma TablesMasks(e: EngineState, op: IsaOp, ch: Choices)
    requires !ChangesGraph(op) && !MovesValues(op)
    ensures MasksFollow(e, op, ApplyTables(e, op, ch).e)
  {}

  lemma SameFollows(e: EngineState, op: IsaOp, e': EngineState)
    ensures MasksFollow(e.(events := []), op, e') <==> MasksFollow(e, op, e')
  {
    hide FreshPair;
  }

  /** What every instruction does to what the pairs observe, whether it succeeds or is refused. */
  lemma CallMasks(e: EngineState, op: IsaOp, ch: Choices)
    requires Inv(e)
    ensures MasksFollow(e, op, Call(e, op, ch).e)
  {
    InvReady(e);
    var e0 := e.(events := []);
    SameFollows(e, op, Call(e, op, ch).e);
    if op.DelNode? || op.DelEdge? {
      DeletionMasks(e0, op);
      StandFollows(e0, op, ApplyGraph(e0, op).e);
    } else if ChangesGraph(op) {
      AdditionMasks(e0, op);
    } else if MovesValues(op) {
      ValuesMasks(e0, op, ch);
      StandFollows(e0, op, ApplyValues(e0, op, ch).e);
    } else {
      TablesMasks(e0, op, ch);
    }
    hide Inv, MasksFollow, MasksStand, ApplyGraph, ApplyValues, ApplyTables;
  }

  // ---- runs ---------------------------------------------------------------------------------------------

  ghost predicate ObserveAll(reg: Registry) { forall p, d: TimeDim :: p in reg.meta ==> d in reg.meta[p].mask }

  lemma StillObserve(e: EngineState, op: IsaOp, e': EngineState)
    requires ObserveAll(e.world.reg) && MasksFollow(e, op, e') && !op.SetEdgeLabel?
    ensures ObserveAll(e'.world.reg)
  {
    forall p, d: TimeDim | p in e'.world.reg.meta ensures d in e'.world.reg.meta[p].mask { assert MaskFollows(e, op, e', p); }
  }

  /** In every state of every run from the empty engine without labels, every pair observes every dimension: the hypothesis
      of the convergence and consistency theorems holds of itself. */
  lemma UnlabelledRuns(states: seq<EngineState>, ops: seq<IsaOp>, choices: seq<Choices>)
    requires Run(states, ops, choices) && states[0] == EMPTY_ENGINE && forall i :: 0 <= i < |ops| ==> !ops[i].SetEdgeLabel?
    ensures forall i :: 0 <= i < |states| ==> ObserveAll(states[i].world.reg)
  {
    EmptyObserves();
    hide Inv, Step, ObserveAll, EMPTY_ENGINE;
    RunsKeep(states, ops, choices);
    for k := 0 to |ops|
      invariant forall i :: 0 <= i <= k ==> ObserveAll(states[i].world.reg)
    {
      UnlabelledStep(states[k], ops[k], choices[k], states[k + 1]);
    }
  }

  lemma EmptyObserves()
    ensures ObserveAll(EMPTY_ENGINE.world.reg)
  {}

  lemma UnlabelledStep(e: EngineState, op: IsaOp, ch: Choices, e': EngineState)
    requires Inv(e) && ObserveAll(e.world.reg) && Step(e, op, ch, e') && !op.SetEdgeLabel?
    ensures ObserveAll(e'.world.reg)
  {
    CallMasks(e, op, ch);
    StillObserve(e, op, Call(e, op, ch).e);
    hide Inv, ObserveAll, MasksFollow, Apply;
  }
}
