/** What the drain theorems mean for the engine: writes and demands through `Engine::apply` on an
    engine at rest, without compiled regions and Stabilizing nodes. */
module EngineRuns {
  import opened Base
  import opened Bits
  import opened Ternary
  import opened Rules
  import opened Time
  import opened Isa
  import opened Deps
  import opened Propagation
  import opened StepFacts
  import opened Draining
  import opened Coherence
  import opened Writes
  import opened EngineModel
  import opened EngineValues
  import opened EngineInvariant
  import opened Convergence
  import opened PullEval
  import opened LocalConsistency

  // ---- drains that ask for no stabilisation ----------------------------------------------

  predicate Unasked(events: seq<PropEvent>) {
    forall k :: 0 <= k < |events| ==> !events[k].StabilizeQueued?
  }

  predicate NoneStabilizing(reg: Registry) { forall n :: n in reg.modes ==> reg.modes[n] != Stabilizing }

  predicate NoStabilizeItems(items: seq<WorkItem>) { forall k :: 0 <= k < |items| ==> !items[k].StabilizeItem? }

  lemma {:induction false} UnaskedRequests(events: seq<PropEvent>)
    requires Unasked(events)
    ensures Requests(events) == [] && WithoutRequests(events) == events
    decreases |events|
  {
    if events != [] {
      UnaskedRequests(events[..|events| - 1]);
      assert events == events[..|events| - 1] + [events[|events| - 1]];
    }
  }

  lemma {:induction false} PushSubsUnasked(a: Acc, n: Uid, subs: seq<Uid>, ctx: Ctx)
    requires Unasked(a.events)
    ensures Unasked(PushSubs(a, n, subs, ctx).events)
    decreases |subs|
  {
    if subs != [] { PushSubsUnasked(a, n, subs[..|subs| - 1], ctx); }
  }

  lemma {:induction false} BumpAndPushUnasked(a: Acc, n: Uid, subs: seq<Uid>, prior: T, next: T, ctx: Ctx)
    requires Unasked(a.events)
    ensures Unasked(BumpAndPush(a, n, subs, prior, next, ctx).events)
    decreases |subs|
  {
    if subs != [] { BumpAndPushUnasked(a, n, subs[..|subs| - 1], prior, next, ctx); }
  }

  predicate AllPushes(items: seq<WorkItem>) { forall k :: 0 <= k < |items| ==> items[k].Push? }

  lemma {:induction false} PushSubsItems(a: Acc, n: Uid, subs: seq<Uid>, ctx: Ctx)
    requires AllPushes(a.work)
    ensures AllPushes(PushSubs(a, n, subs, ctx).work)
    decreases |subs|
  {
    if subs != [] { PushSubsItems(a, n, subs[..|subs| - 1], ctx); }
  }

  lemma {:induction false} BumpAndPushItems(a: Acc, n: Uid, subs: seq<Uid>, prior: T, next: T, ctx: Ctx)
    requires AllPushes(a.work)
    ensures AllPushes(BumpAndPush(a, n, subs, prior, next, ctx).work)
    decreases |subs|
  {
    if subs != [] { BumpAndPushItems(a, n, subs[..|subs| - 1], prior, next, ctx); }
  }

  /** The subscriber loops from an accumulator that holds no request. */
  lemma LoopsCalm(a: Acc, n: Uid, subs: seq<Uid>, prior: T, next: T, ctx: Ctx)
    requires Unasked(a.events) && a.work == []
    ensures Unasked(PushSubs(a, n, subs, ctx).events) && AllPushes(PushSubs(a, n, subs, ctx).work)
    ensures Unasked(BumpAndPush(a, n, subs, prior, next, ctx).events) && AllPushes(BumpAndPush(a, n, subs, prior, next, ctx).work)
  {
    PushSubsUnasked(a, n, subs, ctx);
    PushSubsItems(a, n, subs, ctx);
    BumpAndPushUnasked(a, n, subs, prior, next, ctx);
    BumpAndPushItems(a, n, subs, prior, next, ctx);
  }

  lemma FastCalm(w: World, n: Uid, ctx: Ctx, stats: Stats)
    requires w.Wf() && n in w.nodes && w.nodes[n].kind.Computed? && FastPath(w, n)
    ensures var o := StepFast(w, n, ctx, stats); Unasked(o.events) && AllPushes(o.work)
  {
    var next, prior, subs := w.reg.counters[n].Aggregate(), w.nodes[n].value, Ascending(w.reg.SubsOf(n));
    if next != Neg {
      var w1 := if next != prior then w.Put(n, next) else w;
      var s1 := if next != prior then stats.(materialized := stats.materialized + 1) else stats;
      var change := if next != prior then [ValueChanged(n, prior, next)] else [];
      LoopsCalm(Acc(w1.reg, [BochvarInfected(n, None)] + change, [], s1), n, subs, prior, next, ctx);
      LoopsCalm(Acc(w1.reg, change, [], s1), n, subs, prior, next, ctx);
    }
  }

  lemma ScanReadyCalm(w: World, n: Uid, ctx: Ctx, stats: Stats)
    requires w.Wf() && n in w.nodes && w.nodes[n].kind.Computed? && StateOf(w.DepVals(n)) != Conflicted
    ensures var o := StepScan(w, n, ctx, stats); Unasked(o.events) && AllPushes(o.work)
  {
    var next, prior, subs := EvalOrNeg(w.nodes[n].kind.rule, w.DepVals(n)), w.nodes[n].value, Ascending(w.reg.SubsOf(n));
    var a := Acc(w.Put(n, next).reg, [ValueChanged(n, prior, next)], [], stats.(materialized := stats.materialized + 1));
    LoopsCalm(a, n, subs, prior, next, ctx);
  }

  lemma ScanConflictCalm(w: World, n: Uid, ctx: Ctx, stats: Stats)
    requires w.Wf() && n in w.nodes && w.nodes[n].kind.Computed? && StateOf(w.DepVals(n)) == Conflicted
    requires w.reg.ModeOf(n) != Stabilizing
    ensures var o := StepScan(w, n, ctx, stats); Unasked(o.events) && AllPushes(o.work)
  {
    var prior, subs := w.nodes[n].value, Ascending(w.reg.SubsOf(n));
    var changed := Zero != prior;
    var w1 := if changed then w.Put(n, Zero) else w;
    var a := Acc(if changed then BumpAll(w1.reg, subs, prior, Zero) else w1.reg,
                 [BochvarInfected(n, None)] + (if changed then [ValueChanged(n, prior, Zero)] else []), [],
                 if changed then stats.(materialized := stats.materialized + 1) else stats);
    LoopsCalm(a, n, subs, prior, Zero, ctx);
  }

  /** A queue without requests on a graph without Stabilizing nodes. */
  ghost predicate Calm(q: Queue) {
    Coherent(q.world) && NoneStabilizing(q.world.reg) && Unasked(q.events) && NoStabilizeItems(q.items)
  }

  lemma StepPushCalm(w: World, n: Uid, ctx: Ctx, stats: Stats)
    requires Coherent(w) && NoneStabilizing(w.reg)
    ensures var o := StepPush(w, n, ctx, stats);
      Unasked(o.events) && AllPushes(o.work) && Coherent(o.world) && o.world.reg.modes == w.reg.modes
  {
    StepPushKeeps(w, n, ctx, stats);
    if n in w.nodes && w.nodes[n].kind.Computed? {
      hide Coherent, StepFast, StepScan;
      if FastPath(w, n) {
        FastCalm(w, n, ctx, stats);
      } else if StateOf(w.DepVals(n)) == Conflicted {
        ScanConflictCalm(w, n, ctx, stats);
      } else {
        ScanReadyCalm(w, n, ctx, stats);
      }
    }
  }

  lemma DrainStepCalm(q: Queue, now: ProductTime, auth: map<(Uid, Uid), Verdict>, handled: seq<Word>)
    requires Calm(q) && q.items != []
    ensures Calm(DrainStep(q, now, auth, handled))
  {
    if q.items[0].Push? && !Handled(q.world, handled, q.items[0].id) {
      var s0 := q.stats.(maxDepth := Larger(q.stats.maxDepth, |q.items|));
      StepPushCalm(q.world, q.items[0].id, Ctx(now, auth, q.demanded), s0);
      hide StepPush, Coherent;
    } else {
      hide Coherent;
    }
  }

  lemma DrainCalm(q: Queue, now: ProductTime, auth: map<(Uid, Uid), Verdict>, handled: seq<Word>, budget: nat)
    requires Calm(q)
    ensures Calm(Drain(q, now, auth, handled, budget).q)
  {
    var inv := (p: Queue) => Calm(p);
    forall p: Queue | p.world.Wf() && p.items != [] && inv(p) ensures inv(DrainStep(p, now, auth, handled)) {
      DrainStepCalm(p, now, auth, handled);
    }
    var last := DrainInductionAny(q, now, auth, handled, budget, inv);
  }

  // ---- cleared bits, no regions ------------------------------------------------------------

  /** With every handled bit clear no push is skipped. */
  lemma {:induction false} ClearedDrain(q: Queue, now: ProductTime, auth: map<(Uid, Uid), Verdict>, n: nat, budget: nat)
    requires q.world.Wf()
    ensures Drain(q, now, auth, Cleared(n), budget) == Drain(q, now, auth, [], budget)
    decreases budget
  {
    if q.items != [] && budget > 0 {
      assert DrainStep(q, now, auth, Cleared(n)) == DrainStep(q, now, auth, []) by {
        forall d: nat ensures !Test(Cleared(n), d) && !Test([], d) {}
      }
      DrainStepWf(q, now, auth, []);
      ClearedDrain(DrainStep(q, now, auth, []), now, auth, n, budget - 1);
    }
  }

  lemma {:induction false} NoRegions(e: EngineState, roots: seq<Uid>)
    requires e.world.Wf() && CacheRunnable(e) && e.cache.regions == map[]
    ensures RunRegions(e, roots) == e
    decreases |roots|
  {
    if roots != [] { NoRegions(e, roots[..|roots| - 1]); }
  }

  /** The engine after an idle drain: queues empty, dirty and handled bits clear. */
  function Rested(e: EngineState, q: Queue): EngineState {
    e.(world := q.world, items := q.items, events := [], stats := q.stats, demanded := q.demanded,
       cache := e.cache.(dirty := {}), dirtySlots := Cleared(|e.dirtySlots|), handled := Cleared(|e.handled|))
  }

  /** Without regions and requests, `drain_and_stabilize` is one drain. */
  lemma OneDrain(e: EngineState, roots: seq<Uid>, auth: map<(Uid, Uid), Verdict>, rounds: seq<seq<Stabilized>>)
    requires e.world.Wf() && CacheRunnable(e) && e.cache.regions == map[] && e.handled == Cleared(|e.handled|)
    requires Calm(QueueOf(e))
    ensures var d := Drain(QueueOf(e), e.now, auth, [], e.maxSteps);
      d.Idle? ==> DrainAndStabilize(e, roots, auth, rounds) == Done(Rested(e, d.q), d.q.events)
  {
    var e0 := e.(cache := e.cache.(dirty := {}));
    NoRegions(e0, roots);
    var e1 := e0.(dirtySlots := Cleared(|e0.dirtySlots|));
    assert QueueOf(e1) == QueueOf(e);
    ClearedDrain(QueueOf(e), e.now, auth, |e.handled|, e.maxSteps);
    DrainCalm(QueueOf(e), e.now, auth, [], e.maxSteps);
    UnaskedRequests(Drain(QueueOf(e), e.now, auth, [], e.maxSteps).q.events);
    hide Drain, Coherent;
  }

  // ---- an engine at rest ----------------------------------------------------------------------

  /** Between two calls: the invariant, empty queues, clear handled bits, no region and no
      Stabilizing node, and a step limit above twice the registered pairs. */
  ghost predicate AtRest(e: EngineState) {
    && Inv(e) && e.items == [] && e.demanded == {} && e.handled == Cleared(|e.handled|)
    && e.cache.regions == map[] && NoneStabilizing(e.world.reg) && e.maxSteps >= 2 * |e.world.reg.meta|
  }

  lemma {:induction false} PushesNoDemands(items: seq<WorkItem>)
    requires AllPushes(items)
    ensures CountDemands(items) == 0
    decreases |items|
  {
    if items != [] { PushesNoDemands(items[..|items| - 1]); }
  }

  /** `Engine::apply` on an engine that meets the invariant. */
  ghost function Call(e: EngineState, op: IsaOp, ch: Choices): Reply
    requires Inv(e)
  {
    InvReady(e);
    Apply(e, op, ch)
  }

  /** The drain of the queue a write leaves, one tick later. */
  ghost function WriteDrain(e: EngineState, n: Uid, v: T, auth: map<(Uid, Uid), Verdict>): DrainResult
    requires Inv(e) && n in e.world.nodes && v != e.world.nodes[n].value
  {
    WriteKeeps(e.world, n, v, e.now.Advance(Attribute));
    Drain(WriteQueue(e.world, n, v, e.now.Advance(Attribute), e.stats), e.now.Advance(Attribute), auth, [], e.maxSteps)
  }

  /** The call succeeded with the drained queue's world and events, and the engine is at rest again. */
  ghost predicate Served(e: EngineState, r: Reply, q: Queue) {
    && r.Done? && r.events == q.events && r.e.world == q.world && r.e.stats == q.stats
    && r.e.now == e.now.Advance(Attribute) && r.e.maxSteps == e.maxSteps
    && AtRest(r.e) && SameGraph(e.world, r.e.world)
  }

  /** The queue `SetValue` hands to the drain is the write queue. */
  lemma WriteGivesQueue(e: EngineState, n: Uid, v: T)
    requires e.world.Wf() && n in e.world.nodes && e.items == [] && e.demanded == {} && e.events == []
    ensures var now := e.now.Advance(Attribute);
      QueueOf(WriteValue(e, n, v)) == WriteQueue(e.world, n, v, now, e.stats) && WriteValue(e, n, v).now == now
  {
    var now := e.now.Advance(Attribute);
    var work := WriteItems(e.world, n, v, now);
    BumpAndPushItems(Acc(e.world.reg, [], [], NO_STATS), n, Ascending(e.world.reg.SubsOf(n)), e.world.nodes[n].value, v, WriteCtx(now));
    PushesNoDemands(work);
    assert [] + work == work;
    assert [] + [ValueChanged(n, e.world.nodes[n].value, v)] == [ValueChanged(n, e.world.nodes[n].value, v)];
    hide BumpAndPush;
  }

  lemma WriteQueueCalm(w: World, n: Uid, v: T, now: ProductTime, stats: Stats)
    requires Coherent(w) && NoneStabilizing(w.reg) && n in w.nodes && v != w.nodes[n].value
    ensures Calm(WriteQueue(w, n, v, now, stats))
  {
    WriteKeeps(w, n, v, now);
    LoopsCalm(Acc(w.reg, [], [], NO_STATS), n, Ascending(w.reg.SubsOf(n)), w.nodes[n].value, v, WriteCtx(now));
  }

  /** What an idle drain leaves of an engine at rest. */
  lemma RestedAgain(e: EngineState, e1: EngineState, q0: Queue, d: DrainResult, now: ProductTime, auth: map<(Uid, Uid), Verdict>)
    requires AtRest(e) && Coherent(q0.world) && SameGraph(e.world, q0.world) && ClockAhead(q0.world.reg, now) && now == e1.now
    requires d == Drain(q0, now, auth, [], e.maxSteps) && d.Idle?
    requires |e1.dirtySlots| == |e1.handled| == |e.handled| && e1.edges == e.edges && e1.cache.regions == map[] && e1.maxSteps == e.maxSteps
    ensures AtRest(Rested(e1, d.q)) && SameGraph(e.world, d.q.world)
  {
    DrainKeeps(q0, now, auth, [], e.maxSteps);
    DrainClock(q0, now, auth, [], e.maxSteps);
    IdleQueue(q0, now, auth, e.maxSteps);
    SameGraphTransitive(e.world, q0.world, d.q.world);
    hide *;
    RestedIsAtRest(e, e1, d.q);
  }

  lemma RestedIsAtRest(e: EngineState, e1: EngineState, q: Queue)
    requires AtRest(e) && Coherent(q.world) && SameGraph(e.world, q.world) && ClockAhead(q.world.reg, e1.now)
    requires q.items == [] && q.demanded == {}
    requires |e1.dirtySlots| == |e1.handled| == |e.handled| && e1.edges == e.edges && e1.cache.regions == map[] && e1.maxSteps == e.maxSteps
    ensures AtRest(Rested(e1, q))
  {
    hide Coherent, ClockAhead;
    assert AllPlaced(q.world, map[]);
    assert |q.world.reg.meta| == |q.world.reg.meta.Keys| == |e.world.reg.meta.Keys| == |e.world.reg.meta|;
  }

  lemma IdleQueue(q: Queue, now: ProductTime, auth: map<(Uid, Uid), Verdict>, budget: nat)
    requires q.world.Wf() && Drain(q, now, auth, [], budget).Idle?
    ensures var d := Drain(q, now, auth, [], budget); d.q.items == [] && d.q.demanded == {}
  {
    var last := DrainInduction(q, now, auth, [], budget, (p: Queue) => true);
  }

  /** What the write touches besides the world. */
  lemma WriteFrame(e: EngineState, n: Uid, v: T)
    requires e.world.Wf() && n in e.world.nodes
    ensures var e1 := WriteValue(e, n, v);
      && |e1.dirtySlots| == |e.dirtySlots| && e1.handled == e.handled && e1.edges == e.edges
      && e1.cache.regions == e.cache.regions && e1.maxSteps == e.maxSteps
  {}

  /** `SetValue` of a new value on an engine at rest is the write and one drain; it always ends idle. */
  lemma WriteIsOneDrain(e: EngineState, n: Uid, v: T, ch: Choices)
    requires AtRest(e) && n in e.world.nodes && v != e.world.nodes[n].value
    ensures WriteDrain(e, n, v, ch.auth).Idle? && Served(e, Call(e, SetValue(n, v), ch), WriteDrain(e, n, v, ch.auth).q)
  {
    InvReady(e);
    var e1, now := e.(events := []), e.now.Advance(Attribute);
    var e2 := WriteValue(e1, n, v);
    WriteValueReady(e1, n, v);
    WriteGivesQueue(e1, n, v);
    WriteFrame(e1, n, v);
    var q0 := WriteStarts(e.world, n, v, now, e.stats, ch.auth, e.maxSteps);
    WriteQueueCalm(e.world, n, v, now, e.stats);
    hide Drain, WriteQueue, Calm, Coherent, ClockAhead, SameGraph, DrainAndStabilize, WriteValue, Rested;
    OneDrain(e2, ch.roots, ch.auth, ch.rounds);
    RestedAgain(e, e2, q0, WriteDrain(e, n, v, ch.auth), now, ch.auth);
    hide *;
    WriteCall(e, n, v, ch, WriteDrain(e, n, v, ch.auth).q);
  }

  lemma WriteCall(e: EngineState, n: Uid, v: T, ch: Choices, q: Queue)
    requires AtRest(e) && n in e.world.nodes && v != e.world.nodes[n].value && e.world.Wf() && CacheRunnable(e)
    requires var e2 := WriteValue(e.(events := []), n, v);
      e2.world.Wf() && CacheRunnable(e2) && DrainAndStabilize(e2, ch.roots, ch.auth, ch.rounds) == Done(Rested(e2, q), q.events)
      && AtRest(Rested(e2, q)) && SameGraph(e.world, q.world) && e2.now == e.now.Advance(Attribute) && e2.maxSteps == e.maxSteps
    ensures Served(e, Call(e, SetValue(n, v), ch), q)
  {
    hide AtRest, SameGraph, DrainAndStabilize, WriteValue;
  }

  // ---- the theorems, through `apply` -------------------------------------------------------------

  /** Writing the value a node already has changes nothing and reports nothing. */
  lemma SameValueCall(e: EngineState, n: Uid, v: T, ch: Choices)
    requires Inv(e) && n in e.world.nodes && v == e.world.nodes[n].value
    ensures Call(e, SetValue(n, v), ch) == Done(e.(events := []), [])
    ensures AtRest(e) ==> AtRest(e.(events := []))
  {
    hide DrainAndStabilize, WriteValue;
  }

  /** Every Eager computed node other than n whose equation held still satisfies it. */
  ghost predicate KeepsEquations(w: World, w': World, n: Uid) {
    && w.Wf() && w'.Wf() && SameGraph(w, w')
    && forall m :: m in w.nodes && m != n && w.nodes[m].kind.Computed? && w.reg.ModeOf(m) == Eager && Consistent(w, m)
         ==> Consistent(w', m)
  }

  /** Whatever is written: if no node is reached from n by two paths and every pair observes the
      attribute dimension, `SetValue` succeeds and leaves every Eager computed node other than n
      whose equation held before with its equation satisfied. */
  lemma SetValueStaysConsistent(e: EngineState, n: Uid, v: T, ch: Choices)
    requires AtRest(e) && Wired(e.world) && n in e.world.nodes && UniquePaths(e.world.reg, n) && ch.auth == map[]
    requires forall p :: p in e.world.reg.meta ==> Attribute in e.world.reg.meta[p].mask
    ensures var r := Call(e, SetValue(n, v), ch);
      r.Done? && AtRest(r.e) && KeepsEquations(e.world, r.e.world, n)
  {
    if v == e.world.nodes[n].value {
      SameValueCall(e, n, v, ch);
    } else {
      WriteIsOneDrain(e, n, v, ch);
      WriteStaysConsistent(e.world, n, v, e.now, e.stats, e.maxSteps);
      hide AtRest, Apply, Drain, UniquePaths, Wired, WriteQueue, StepScan, ScanNext;
    }
  }

  // ---- convergence -----------------------------------------------------------------------------

  /** The engine's world, clock and statistics, with the events reported so far. */
  function Progressed(e: EngineState, events: seq<PropEvent>): RunState { RunState(e.world, e.now, events, e.stats) }

  /** A call sequence of Pos writes: each state and reply follows from the state before. */
  ghost predicate PosWrites(states: seq<EngineState>, writes: seq<Uid>, choices: seq<Choices>, replies: seq<Reply>) {
    && |states| == |writes| + 1 && |choices| == |replies| == |writes|
    && (forall i :: 0 <= i < |states| ==> Inv(states[i]))
    && forall i :: 0 <= i < |writes| ==>
         choices[i].auth == map[] && replies[i] == Call(states[i], SetValue(writes[i], Pos), choices[i]) && states[i + 1] == replies[i].e
  }

  function Reported(replies: seq<Reply>): seq<PropEvent> {
    if replies == [] then []
    else
      var last := replies[|replies| - 1];
      Reported(replies[..|replies| - 1]) + (if last.Done? then last.events else [])
  }

  /** One Pos write through the engine is one write of the model run. */
  lemma WritePosCall(e: EngineState, n: Uid, ch: Choices, events: seq<PropEvent>)
    requires AtRest(e) && n in e.world.nodes && ch.auth == map[]
    ensures var r := Call(e, SetValue(n, Pos), ch);
      r.Done? && AtRest(r.e) && r.e.maxSteps == e.maxSteps && SameGraph(e.world, r.e.world)
      && Progressed(r.e, events + r.events) == WritePos(Progressed(e, events), n, e.maxSteps)
  {
    if e.world.nodes[n].value == Pos {
      SameValueCall(e, n, Pos, ch);
      assert events + [] == events;
    } else {
      WriteIsOneDrain(e, n, Pos, ch);
      hide AtRest, Apply, Drain, WriteQueue;
    }
  }

  /** The run so far, as the model run sees it. */
  ghost predicate MatchesRun(e0: EngineState, e: EngineState, writes: seq<Uid>, events: seq<PropEvent>)
    requires Coherent(e0.world)
  {
    && AtRest(e) && e.maxSteps == e0.maxSteps && SameGraph(e0.world, e.world)
    && Progressed(e, events) == WriteAllPos(Progressed(e0, []), writes, e0.maxSteps)
  }

  lemma MatchesNext(e0: EngineState, e: EngineState, writes: seq<Uid>, events: seq<PropEvent>, n: Uid, ch: Choices)
    requires Coherent(e0.world) && MatchesRun(e0, e, writes, events) && n in e0.world.nodes && ch.auth == map[]
    ensures Inv(e) && var r := Call(e, SetValue(n, Pos), ch); r.Done? && MatchesRun(e0, r.e, writes + [n], events + r.events)
  {
    AtRestInv(e);
    hide AtRest, Call, WritePos, Coherent, Inv;
    WritePosCall(e, n, ch, events);
    SameGraphTransitive(e0.world, e.world, Call(e, SetValue(n, Pos), ch).e.world);
    WriteAllNext(Progressed(e0, []), writes, n, e0.maxSteps);
    hide SameGraph, WriteAllPos;
  }

  lemma AtRestInv(e: EngineState)
    requires AtRest(e)
    ensures Inv(e)
  {}

  lemma WriteAllNext(r: RunState, writes: seq<Uid>, n: Uid, budget: nat)
    requires Coherent(r.world)
    ensures WriteAllPos(r, writes + [n], budget) == WritePos(WriteAllPos(r, writes, budget), n, budget)
  {
    assert (writes + [n])[..|writes|] == writes;
  }

  /** The setting: an engine at rest whose nodes are all Eager and Neg, whose rules map all-Pos
      dependencies to Pos and whose pairs observe the attribute dimension; cycles are allowed. */
  ghost predicate AllNeg(e: EngineState) { AtRest(e) && Quiescent(Progressed(e, [])) }

  /** Any sequence of Pos writes to existing nodes, each a call of `apply`, succeeds throughout and
      ends with exactly the least fixpoint of the written set Pos; over all the replies each node
      that rose is reported once and no other node at all. */
  lemma SetValuesConverge(states: seq<EngineState>, writes: seq<Uid>, choices: seq<Choices>, replies: seq<Reply>)
    requires PosWrites(states, writes, choices, replies) && AllNeg(states[0])
    requires forall n :: n in writes ==> n in states[0].world.nodes
    ensures forall i :: 0 <= i < |replies| ==> replies[i].Done?
    ensures LeastFixpoint(states[0].world, WrittenIn(states[0].world, writes), PosSet(states[|writes|].world))
    ensures Reports(ChangesIn(Reported(replies)), states[0].world, states[|writes|].world)
  {
    assert |states| == |writes| + 1;
    hide *;
    var e0 := states[0];
    MatchesStart(e0);
    WritesMatch(states, writes, choices, replies);
    WritesConvergeTo(e0, states[|writes|], writes, Reported(replies));
  }

  lemma MatchesStart(e: EngineState)
    requires AllNeg(e)
    ensures Coherent(e.world) && MatchesRun(e, e, [], [])
  {
    hide Coherent, Quiescent;
  }

  lemma WritesConvergeTo(e0: EngineState, e: EngineState, writes: seq<Uid>, events: seq<PropEvent>)
    requires Coherent(e0.world) && AllNeg(e0) && MatchesRun(e0, e, writes, events)
    ensures LeastFixpoint(e0.world, WrittenIn(e0.world, writes), PosSet(e.world))
    ensures Reports(ChangesIn(events), e0.world, e.world)
  {
    WritesConverge(Progressed(e0, []), writes, e0.maxSteps);
    hide Coherent, Quiescent, LeastFixpoint, Reports, Inv, SameGraph;
  }

  lemma ReportedNone()
    ensures Reported([]) == []
  {}

  lemma ReportedNext(replies: seq<Reply>, k: nat)
    requires k < |replies|
    ensures Reported(replies[..k + 1]) == Reported(replies[..k]) + (if replies[k].Done? then replies[k].events else [])
  {
    assert replies[..k + 1][..k] == replies[..k];
  }

  lemma WritesMatch(states: seq<EngineState>, writes: seq<Uid>, choices: seq<Choices>, replies: seq<Reply>)
    requires PosWrites(states, writes, choices, replies) && Coherent(states[0].world) && MatchesRun(states[0], states[0], [], [])
    requires forall n :: n in writes ==> n in states[0].world.nodes
    ensures forall i :: 0 <= i < |replies| ==> replies[i].Done?
    ensures MatchesRun(states[0], states[|writes|], writes, Reported(replies))
  {
    hide Coherent, MatchesRun, Inv, Call, Reported;
    assert writes[..0] == [] && replies[..0] == [];
    ReportedNone();
    for k := 0 to |writes|
      invariant forall i :: 0 <= i < k ==> replies[i].Done?
      invariant MatchesRun(states[0], states[k], writes[..k], Reported(replies[..k]))
    {
      assert writes[k] in writes;
      MatchesNext(states[0], states[k], writes[..k], Reported(replies[..k]), writes[k], choices[k]);
      ReportedNext(replies, k);
      assert writes[..k + 1] == writes[..k] + [writes[k]];
    }
    assert writes[..|writes|] == writes && replies[..|replies|] == replies;
  }

  // ---- demands --------------------------------------------------------------------------------

  /** The drain of the queue a demand makes. */
  ghost function DemandDrain(e: EngineState, n: Uid, auth: map<(Uid, Uid), Verdict>, stats: Stats): DrainResult
    requires Inv(e)
  {
    Drain(DemandQueue(e.world, n, stats), e.now.Advance(Attribute), auth, [], e.maxSteps)
  }

  /** `Demand` on an engine at rest is one drain of the demand, when that ends idle. */
  lemma DemandIsOneDrain(e: EngineState, n: Uid, ch: Choices) returns (stats: Stats)
    requires AtRest(e)
    ensures DemandDrain(e, n, ch.auth, stats).Idle? ==> Served(e, Call(e, Demand(n), ch), DemandDrain(e, n, ch.auth, stats).q)
  {
    InvReady(e);
    var e2 := e.(events := []).Enqueue(DemandItem(n)).Log(Attribute);
    stats := QueueOf(e2).stats;
    DemandGivesQueue(e, n);
    OneDrain(e2, ch.roots, ch.auth, ch.rounds);
    if DemandDrain(e, n, ch.auth, stats).Idle? {
      LogKeeps(e, Attribute);
      RestedAgain(e, e2, QueueOf(e2), DemandDrain(e, n, ch.auth, stats), e2.now, ch.auth);
      hide *;
      DemandCall(e, n, ch, DemandDrain(e, n, ch.auth, stats).q);
    }
  }

  lemma DemandGivesQueue(e: EngineState, n: Uid)
    requires AtRest(e)
    ensures var e2 := e.(events := []).Enqueue(DemandItem(n)).Log(Attribute);
      QueueOf(e2) == DemandQueue(e.world, n, QueueOf(e2).stats) && Calm(QueueOf(e2))
  {
    assert [] + [DemandItem(n)] == [DemandItem(n)];
    assert CountDemands([DemandItem(n)]) == CountDemands([DemandItem(n)][..0]) + 1;
  }

  lemma DemandCall(e: EngineState, n: Uid, ch: Choices, q: Queue)
    requires AtRest(e) && e.world.Wf() && CacheRunnable(e)
    requires var e2 := e.(events := []).Enqueue(DemandItem(n)).Log(Attribute);
      DrainAndStabilize(e2, ch.roots, ch.auth, ch.rounds) == Done(Rested(e2, q), q.events)
      && AtRest(Rested(e2, q)) && SameGraph(e.world, q.world)
    ensures Served(e, Call(e, Demand(n), ch), q)
  {
    hide AtRest, SameGraph, DrainAndStabilize;
  }

  /** On an acyclic graph of Neg nodes over Pos inputs, whatever their modes, `Demand(n)` succeeds
      within a step limit of the rank weight of n plus twice the pairs, and makes n and everything
      it reads, directly or not, Pos. */
  lemma DemandMakesPos(e: EngineState, n: Uid, rank: map<Uid, nat>, ch: Choices)
    requires AtRest(e) && Wired(e.world) && n in e.world.nodes && Unevaluated(e.world, n) && ch.auth == map[]
    requires Ranked(e.world.reg, rank) && Ancestors(e.world, n) <= rank.Keys && n in rank
    requires e.maxSteps >= Weights(e.world.reg, rank)[n] + 2 * |e.world.reg.meta|
    ensures var r := Call(e, Demand(n), ch);
      r.Done? && AtRest(r.e) && forall m :: m in Ancestors(e.world, n) ==> m in r.e.world.nodes && r.e.world.nodes[m].value == Pos
  {
    var stats := DemandIsOneDrain(e, n, ch);
    DemandEvaluates(e.world, n, e.now, stats, rank, e.maxSteps);
    hide Inv, Wired, Drain, Apply, Unevaluated, Ranked, Weights;
  }
}
