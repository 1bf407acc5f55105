/** Stabilisation within one call of `apply`: which requests a drain hands over, what serving an accepted
    one leaves for the next drain, and that no request is left in a reply. */
module StabilisationRounds {
  import opened Base
  import opened Bits
  import opened Ternary
  import opened Rules
  import opened Time
  import opened Isa
  import opened Deps
  import opened Propagation
  import opened StepFacts
  import opened Draining
  import opened EngineModel
  import opened EngineValues
  import opened EngineInvariant
  import opened EngineRuns
  import opened EGraphs
  import opened Section
  import opened SectionExpr
  import opened PortCompliance
  import opened StabilisedValues

  // ---- requests among the events ---------------------------------------------------------------

  /** at lists, in order, exactly the places of the requests, or exactly those of the other events. */
  ghost predicate Places(events: seq<PropEvent>, at: seq<nat>, asked: bool) {
    && (forall i, j :: 0 <= i < j < |at| ==> at[i] < at[j])
    && (forall i :: 0 <= i < |at| ==> at[i] < |events| && events[at[i]].StabilizeQueued? == asked)
    && forall j :: 0 <= j < |events| && events[j].StabilizeQueued? == asked ==> j in at
  }

  ghost predicate Picks(events: seq<PropEvent>, at: seq<nat>, out: seq<PropEvent>) {
    |at| == |out| && forall i :: 0 <= i < |at| ==> at[i] < |events| && out[i] == events[at[i]]
  }

  /** out is, in order, exactly the requests among the events, or exactly the others. */
  ghost predicate Sifted(events: seq<PropEvent>, out: seq<PropEvent>, asked: bool) {
    exists at: seq<nat> :: Places(events, at, asked) && Picks(events, at, out)
  }

  function Queued(regions: seq<seq<Uid>>): (out: seq<PropEvent>)
    ensures |out| == |regions| && forall i :: 0 <= i < |out| ==> out[i] == StabilizeQueued(regions[i])
  {
    seq(|regions|, i requires 0 <= i < |regions| => StabilizeQueued(regions[i]))
  }

  lemma PlacesNext(events: seq<PropEvent>, at: seq<nat>, event: PropEvent, asked: bool)
    requires Places(events, at, asked)
    ensures Places(events + [event], at + (if event.StabilizeQueued? == asked then [|events|] else []), asked)
  {
    var at' := at + (if event.StabilizeQueued? == asked then [|events|] else []);
    var events' := events + [event];
    forall j | 0 <= j < |events'| && events'[j].StabilizeQueued? == asked ensures j in at' {
      if j < |events| { assert events'[j] == events[j] && j in at; } else { assert at'[|at|] == j; }
    }
  }

  lemma PicksNext(events: seq<PropEvent>, at: seq<nat>, out: seq<PropEvent>, event: PropEvent, more: bool)
    requires Picks(events, at, out)
    ensures Picks(events + [event], at + (if more then [|events|] else []), out + (if more then [event] else []))
  {}

  lemma SiftedNext(events: seq<PropEvent>, out: seq<PropEvent>, event: PropEvent, asked: bool)
    requires Sifted(events, out, asked)
    ensures Sifted(events + [event], out + (if event.StabilizeQueued? == asked then [event] else []), asked)
  {
    var at: seq<nat> :| Places(events, at, asked) && Picks(events, at, out);
    hide Places, Picks;
    PlacesNext(events, at, event, asked);
    PicksNext(events, at, out, event, event.StabilizeQueued? == asked);
  }

  lemma SiftedNone(asked: bool)
    ensures Sifted([], [], asked)
  {
    assert Places([], [], asked) && Picks([], [], []);
  }

  lemma QueuedNext(events: seq<PropEvent>)
    requires events != []
    ensures var front, last := events[..|events| - 1], events[|events| - 1];
      && events == front + [last]
      && Queued(Requests(events)) == Queued(Requests(front)) + (if last.StabilizeQueued? == true then [last] else [])
      && WithoutRequests(events) == WithoutRequests(front) + (if last.StabilizeQueued? == false then [last] else [])
  {}

  /** The requests a drain hands over are exactly the requested regions, in order; what stays is the rest. */
  lemma {:induction false} RequestsAre(events: seq<PropEvent>)
    ensures Sifted(events, Queued(Requests(events)), true) && Sifted(events, WithoutRequests(events), false)
    decreases |events|
  {
    if events == [] {
      SiftedNone(true);
      SiftedNone(false);
    } else {
      var front, last := events[..|events| - 1], events[|events| - 1];
      RequestsAre(front);
      SiftedNext(front, Queued(Requests(front)), last, true);
      SiftedNext(front, WithoutRequests(front), last, false);
      QueuedNext(events);
    }
    hide Sifted;
  }

  lemma NoRequests(events: seq<PropEvent>)
    requires Requests(events) == []
    ensures Unasked(events)
  {
    RequestsAre(events);
    var at: seq<nat> :| Places(events, at, true) && Picks(events, at, []);
    forall k | 0 <= k < |events| ensures !events[k].StabilizeQueued? { assert k !in at; }
  }

  // ---- no request is left in a reply -------------------------------------------------------------

  lemma {:induction false} SettledUnasked(e: EngineState, auth: map<(Uid, Uid), Verdict>, rounds: seq<seq<Stabilized>>)
    requires e.world.Wf()
    ensures Settle(e, auth, rounds).Done? ==> Unasked(Settle(e, auth, rounds).events)
    decreases |rounds|
  {
    DrainWf(QueueOf(e), e.now, auth, e.handled, e.maxSteps);
    var d := Drain(QueueOf(e), e.now, auth, e.handled, e.maxSteps);
    var e1 := WithQueue(e, d.q);
    if d.Idle? && Requests(e1.events) == [] {
      NoRequests(e1.events);
    } else if d.Idle? && rounds != [] {
      SettledUnasked(StabiliseEach(e1.(events := WithoutRequests(e1.events)), Requests(e1.events), rounds[0]), auth, rounds[1..]);
    }
    hide Drain, StabiliseEach, Unasked;
  }

  lemma {:induction false} ResolvedUnasked(e: EngineState, ids: seq<Uid>, v: T)
    requires e.world.Wf() && Unasked(e.events)
    ensures Unasked(ResolveAll(e, ids, v).events)
    decreases |ids|
  {
    if ids != [] {
      var before := ResolveAll(e, ids[..|ids| - 1], v);
      ResolvedUnasked(e, ids[..|ids| - 1], v);
      assert ResolveAll(e, ids, v) == ResolveOne(before, ids[|ids| - 1], v);
      hide ResolveAll, PushSubs;
    }
  }

  lemma StabilisedUnasked(e: EngineState, seeds: seq<Uid>, s: Stabilized)
    requires e.world.Wf() && Unasked(e.events)
    ensures Unasked(Stabilise(e, seeds, s).events)
  {
    DemandNegWf(e, Ascending(s.members));
    match s.verdict {
      case Settled(v) => if v.Some? { ResolvedUnasked(e, Ascending(s.members), v.value); }
      case _ =>
    }
    hide ResolveAll, DemandNeg;
  }

  /** Whatever the instruction, a successful reply reports no request for stabilisation: all were served. */
  lemma ReplyUnasked(e: EngineState, op: IsaOp, ch: Choices)
    requires Inv(e)
    ensures Call(e, op, ch).Done? ==> Unasked(Call(e, op, ch).events)
  {
    InvReady(e);
    var e0 := e.(events := []);
    if MovesValues(op) {
      if Drains(e0, op) {
        DrainedCall(e, op, ch);
        SettledUnasked(Warm(e, op, ch), ch.auth, ch.rounds);
      } else if op.Stabilize? {
        StabilisedUnasked(e0, if op.region.Some? then op.region.value else Ascending(ZeroNodes(e0.world)), ch.explicitRun);
        hide Stabilise, Unasked;
      } else {
        QuietValues(e, op, ch);
      }
    } else {
      QuietCall(e, op, ch);
    }
  }

  lemma QuietValues(e: EngineState, op: IsaOp, ch: Choices)
    requires Inv(e) && MovesValues(op) && !op.Stabilize? && !Drains(e.(events := []), op)
    ensures Call(e, op, ch).Done? ==> Call(e, op, ch).events == []
  {}

  lemma {:induction false} RemoveEdgesEvents(e: EngineState, ids: seq<Uid>)
    requires e.world.store.Shaped()
    ensures RemoveEdges(e, ids).events == e.events
    decreases |ids|
  {
    if ids != [] { RemoveEdgesEvents(e, ids[..|ids| - 1]); }
  }

  lemma DeletedEvents(e: EngineState, id: Uid)
    requires e.world.Wf()
    ensures DeleteNode(e, id).events == e.events
    ensures id in e.edges ==> DeleteEdge(e, id).events == e.events
  {
    RemoveEdgesEvents(e, Ascending(Incident(e, id)));
    hide RemoveEdges, Unlink, Incident, Registry.RemoveNode, RegionCache.Invalidate;
  }

  lemma QuietGraph(e: EngineState, op: IsaOp)
    requires e.world.Wf() && ChangesGraph(op) && e.events == []
    ensures ApplyGraph(e, op).Done? ==> ApplyGraph(e, op).events == []
  {
    if op.DelNode? || op.DelEdge? { DeletedEvents(e, op.id); }
    hide Link, InferMode, DeleteEdge, DeleteNode, Incident, RegionCache.Invalidate;
  }

  lemma QuietTables(e: EngineState, op: IsaOp, ch: Choices)
    requires !ChangesGraph(op) && !MovesValues(op) && e.events == []
    ensures ApplyTables(e, op, ch).Done? ==> ApplyTables(e, op, ch).events == []
  {}

  lemma QuietCall(e: EngineState, op: IsaOp, ch: Choices)
    requires Inv(e) && !MovesValues(op)
    ensures Call(e, op, ch).Done? ==> Call(e, op, ch).events == []
  {
    InvReady(e);
    var e0 := e.(events := []);
    if ChangesGraph(op) { QuietGraph(e0, op); } else { QuietTables(e0, op, ch); }
    hide Inv, ApplyGraph, ApplyTables;
  }

  /** The engine when the warm drain starts: the dirty regions have run, and the dirty bits are clear. */
  ghost function Warm(e: EngineState, op: IsaOp, ch: Choices): (out: EngineState)
    requires Inv(e) && Drains(e.(events := []), op)
    ensures Inv(out)
  {
    LoadedKeeps(e, op);
    var e1 := Loaded(e.(events := []), op);
    var e2 := e1.(cache := e1.cache.(dirty := {}));
    OnlyQueues(e1, e2);
    RunRegionsKeep(e2, ch.roots);
    var e3 := RunRegions(e2, ch.roots);
    OnlyQueues(e3, e3.(dirtySlots := Cleared(|e3.dirtySlots|)));
    e3.(dirtySlots := Cleared(|e3.dirtySlots|))
  }

  lemma LoadedKeeps(e: EngineState, op: IsaOp)
    requires Inv(e) && Drains(e.(events := []), op)
    ensures e.(events := []).world.Wf() && Inv(Loaded(e.(events := []), op))
  {
    var e0 := e.(events := []);
    InvReady(e);
    OnlyQueues(e, e0);
    match op {
      case SetValue(node, v) => WriteValueKeeps(e0, node, v);
      case Propagate(node) => OnlyQueues(e0, e0.Enqueue(Push(node))); LogKeeps(e0.Enqueue(Push(node)), Attribute);
      case Demand(node) => OnlyQueues(e0, e0.Enqueue(DemandItem(node))); LogKeeps(e0.Enqueue(DemandItem(node)), Attribute);
      case Reflect(node) => LogKeeps(e0, Attribute); ReflectValueKeeps(e0.Log(Attribute), node);
    }
    hide *;
  }

  lemma LoadedCall(e: EngineState, op: IsaOp, ch: Choices)
    requires Inv(e) && Drains(e.(events := []), op)
    ensures var e1 := Loaded(e.(events := []), op);
      e1.world.Wf() && CacheRunnable(e1) && Call(e, op, ch) == DrainAndStabilize(e1, ch.roots, ch.auth, ch.rounds)
  {
    LoadedKeeps(e, op);
    InvReady(Loaded(e.(events := []), op));
    hide Inv, DrainAndStabilize, WriteValue, ReflectValue;
  }

  lemma DrainedCall(e: EngineState, op: IsaOp, ch: Choices)
    requires Inv(e) && Drains(e.(events := []), op)
    ensures Warm(e, op, ch).world.Wf() && Call(e, op, ch) == Settle(Warm(e, op, ch), ch.auth, ch.rounds)
  {
    LoadedCall(e, op, ch);
    InvReady(Warm(e, op, ch));
    hide Inv, Settle, Loaded, RunRegions, Call, Drains;
  }

  // ---- a conflicted Stabilizing node asks -----------------------------------------------------------

  /** What a Stabilizing node asks to have stabilised: its dependencies in order, then itself. */
  function RegionOf(reg: Registry, n: Uid): seq<Uid> { reg.OrderedDepsOf(n) + [n] }

  /** The node is Stabilizing and one of its dependencies is Zero. */
  ghost predicate Conflicting(w: World, n: Uid)
    requires w.Wf()
  {
    n in w.nodes && w.nodes[n].kind.Computed? && w.reg.ModeOf(n) == Stabilizing && StateOf(w.DepVals(n)) == Conflicted
  }

  lemma ConflictScan(w: World, n: Uid, ctx: Ctx, stats: Stats)
    requires w.Wf() && Conflicting(w, n)
    ensures var o, region := StepPush(w, n, ctx, stats), RegionOf(w.reg, n);
      && o.world.nodes == (if w.nodes[n].value != Zero then w.Put(n, Zero).nodes else w.nodes)
      && o.work == [] + [StabilizeItem(region)]
      && o.events == [BochvarInfected(n, None)] + ReportOf(n, w.nodes[n].value, Zero) + [StabilizeQueued(region)]
  {
    hide BumpAll, StateOf, Ascending, World.DepVals, EvalOrNeg;
  }

  lemma ConflictEvents(n: Uid, prior: T, region: seq<Uid>)
    ensures Requests([BochvarInfected(n, None)] + ReportOf(n, prior, Zero) + [StabilizeQueued(region)]) == [region]
  {
    var front := [BochvarInfected(n, None)] + ReportOf(n, prior, Zero);
    UnaskedRequests(front);
    assert (front + [StabilizeQueued(region)])[..|front|] == front;
  }

  /** Its push makes it Zero and asks for its region, once; the queued item asks again. */
  lemma ConflictAsks(w: World, n: Uid, ctx: Ctx, stats: Stats)
    requires w.Wf() && Conflicting(w, n)
    ensures var o := StepPush(w, n, ctx, stats);
      && o.world.nodes == w.nodes[n := w.nodes[n].SetValue(Zero)] && o.work == [StabilizeItem(RegionOf(w.reg, n))]
      && Requests(o.events) == [RegionOf(w.reg, n)]
  {
    ConflictScan(w, n, ctx, stats);
    ConflictEvents(n, w.nodes[n].value, RegionOf(w.reg, n));
    hide StepPush, Requests, RegionOf;
  }

  lemma {:induction false} RequestsAppend(a: seq<PropEvent>, b: seq<PropEvent>)
    ensures Requests(a + b) == Requests(a) + Requests(b)
    decreases |b|
  {
    if b == [] {
      assert a + b == a;
    } else {
      RequestsAppend(a, b[..|b| - 1]);
      assert (a + b)[..|a + b| - 1] == a + b[..|b| - 1];
    }
  }

  /** Whatever else the drain does, the request it took up stays among its requests. */
  lemma AskedInDrain(q: Queue, n: Uid, now: ProductTime, auth: map<(Uid, Uid), Verdict>, handled: seq<Word>, budget: nat)
    requires q.world.Wf() && q.items != [] && q.items[0] == Push(n) && !Handled(q.world, handled, n)
    requires Conflicting(q.world, n) && budget > 0
    ensures RegionOf(q.world.reg, n) in Requests(Drain(q, now, auth, handled, budget).q.events)
  {
    hide *;
    var ctx, stats := Ctx(now, auth, q.demanded), q.stats.(maxDepth := Larger(q.stats.maxDepth, |q.items|));
    var o, next := StepPush(q.world, n, ctx, stats), DrainStep(q, now, auth, handled);
    ConflictAsks(q.world, n, ctx, stats);
    PushStep(q, n, now, auth, handled);
    DrainNext(q, next, now, auth, handled, budget);
    var d := DrainGrows(next, now, auth, handled, budget - 1);
    RequestsAppend(q.events, o.events);
    RequestsAppend(next.events, d);
  }

  lemma PushStep(q: Queue, n: Uid, now: ProductTime, auth: map<(Uid, Uid), Verdict>, handled: seq<Word>)
    requires q.world.Wf() && q.items != [] && q.items[0] == Push(n) && !Handled(q.world, handled, n)
    ensures var o := StepPush(q.world, n, Ctx(now, auth, q.demanded), q.stats.(maxDepth := Larger(q.stats.maxDepth, |q.items|)));
      var next := DrainStep(q, now, auth, handled);
      next.world == o.world && next.items == q.items[1..] + o.work && next.events == q.events + o.events && next.demanded == q.demanded
  {
    hide StepPush;
  }

  lemma StepGrows(q: Queue, now: ProductTime, auth: map<(Uid, Uid), Verdict>, handled: seq<Word>)
    requires q.world.Wf() && q.items != []
    ensures q.events <= DrainStep(q, now, auth, handled).events
  {
    hide StepPush;
  }

  lemma DrainGrows(q: Queue, now: ProductTime, auth: map<(Uid, Uid), Verdict>, handled: seq<Word>, budget: nat) returns (more: seq<PropEvent>)
    requires q.world.Wf()
    ensures Drain(q, now, auth, handled, budget).q.events == q.events + more
  {
    var inv := (p: Queue) => q.events <= p.events;
    forall p: Queue | p.world.Wf() && p.items != [] && inv(p) ensures inv(DrainStep(p, now, auth, handled)) {
      StepGrows(p, now, auth, handled);
    }
    hide DrainStep;
    var last := DrainInductionAny(q, now, auth, handled, budget, inv);
    more := last.events[|q.events|..];
  }

  // ---- serving the requests of one drain ----------------------------------------------------------------

  /** Only nodes that were Zero may have another value. */
  ghost predicate OnlyZeroMoved(w: World, w': World) {
    && w'.nodes.Keys == w.nodes.Keys
    && forall n :: n in w.nodes && w.nodes[n].value != Zero ==> w'.nodes[n].value == w.nodes[n].value
  }

  lemma StabiliseOnlyZero(e: EngineState, seeds: seq<Uid>, s: Stabilized)
    requires e.world.Wf()
    ensures OnlyZeroMoved(e.world, Stabilise(e, seeds, s).world)
  {
    DemandNegWf(e, Ascending(s.members));
    match s.verdict {
      case Settled(v) => if v.Some? { ResolveAllValues(e, Ascending(s.members), v.value); }
      case _ =>
    }
    hide ResolveAll, DemandNeg, Ascending;
  }

  lemma {:induction false} EachOnlyZero(e: EngineState, requests: seq<seq<Uid>>, answers: seq<Stabilized>)
    requires e.world.Wf()
    ensures OnlyZeroMoved(e.world, StabiliseEach(e, requests, answers).world)
    decreases |requests|
  {
    if requests != [] && answers != [] {
      StabiliseOnlyZero(e, requests[0], answers[0]);
      EachOnlyZero(Stabilise(e, requests[0], answers[0]), requests[1..], answers[1..]);
    }
    hide Stabilise;
  }

  /** Serving requests is serving the first k, then the rest. */
  lemma {:induction false} EachSplit(e: EngineState, requests: seq<seq<Uid>>, answers: seq<Stabilized>, k: nat)
    requires e.world.Wf() && k <= |requests| && k <= |answers|
    ensures StabiliseEach(e, requests, answers)
         == StabiliseEach(StabiliseEach(e, requests[..k], answers[..k]), requests[k..], answers[k..])
    decreases k
  {
    if k > 0 {
      EachSplit(Stabilise(e, requests[0], answers[0]), requests[1..], answers[1..], k - 1);
      assert requests[..k][1..] == requests[1..][..k - 1] && answers[..k][1..] == answers[1..][..k - 1];
      assert requests[1..][k - 1..] == requests[k..] && answers[1..][k - 1..] == answers[k..];
    } else {
      assert requests[..0] == [] && requests[0..] == requests && answers[0..] == answers;
    }
    hide Stabilise;
  }

  /** The Zero members of the section have their recursive values over the pinned boundary, none of them is
      Zero, and no node that had a value other than Zero moved. */
  ghost predicate MembersResolved(w: World, w': World, r: SectionRegion, rank: map<Uid, nat>)
    requires RanksSection(w, r, rank)
  {
    && OnlyZeroMoved(w, w')
    && forall n :: n in r.members && n in w.nodes ==>
         w'.nodes[n].value != Zero && (w.nodes[n].value == Zero ==> w'.nodes[n].value == MemberValue(w, r, rank, n))
  }

  lemma ResolvedStays(w: World, w1: World, w2: World, r: SectionRegion, rank: map<Uid, nat>)
    requires RanksSection(w, r, rank) && RecursivelyResolved(w, w1, r, rank) && OnlyZeroMoved(w1, w2)
    requires forall n :: n in r.members && n in w1.nodes ==> w1.nodes[n].value != Zero
    ensures MembersResolved(w, w2, r, rank)
  {
    hide MemberValue, RanksSection;
  }

  /** The k-th request answered by an accepted section built from the state it was served in: after all the
      round's requests, its members are resolved. */
  lemma RequestResolves(e: EngineState, requests: seq<seq<Uid>>, answers: seq<Stabilized>, k: nat,
                        g: EGraph, r: SectionRegion, rank: map<Uid, nat>, ids: seq<Uid>, roots: seq<nat>, v: T)
    returns (before: World)
    requires Inv(e) && k < |requests| && k < |answers| && requests[k] != []
    requires e.world.Wf() && BuiltFrom(g, StabiliseEach(e, requests[..k], answers[..k]).world, r, rank, ids, roots)
    requires v != Zero && AllResolved(Constants(g, roots), v) && answers[k] == Stabilized(r.members, Settled(Some(v)))
    ensures before == StabiliseEach(e, requests[..k], answers[..k]).world && RanksSection(before, r, rank)
    ensures MembersResolved(before, StabiliseEach(e, requests, answers).world, r, rank)
  {
    hide *;
    var e1 := StabiliseEach(e, requests[..k], answers[..k]);
    StabiliseEachKeeps(e, requests[..k], answers[..k]);
    KeptInv(e, e1);
    StabiliseResolves(e1, requests[k], g, r, rank, ids, roots, v);
    EachSplit(e, requests, answers, k);
    var e2 := Stabilise(e1, requests[k], answers[k]);
    EachFirst(e1, requests[k..], answers[k..]);
    EachOnlyZero(e2, requests[k..][1..], answers[k..][1..]);
    before := e1.world;
    ResolvedStays(before, e2.world, StabiliseEach(e, requests, answers).world, r, rank);
  }

  lemma KeptInv(e: EngineState, e': EngineState)
    requires Kept(e, e')
    ensures Inv(e')
  {}

  lemma EachFirst(e: EngineState, requests: seq<seq<Uid>>, answers: seq<Stabilized>)
    requires e.world.Wf() && requests != [] && answers != []
    ensures StabiliseEach(e, requests, answers) == StabiliseEach(Stabilise(e, requests[0], answers[0]), requests[1..], answers[1..])
  {}

  // ---- through `apply` ---------------------------------------------------------------------------------------

  /** The first drain of a call. */
  ghost function FirstDrain(e: EngineState, op: IsaOp, ch: Choices): DrainResult
    requires Inv(e) && Drains(e.(events := []), op)
  {
    var s := Warm(e, op, ch);
    InvReady(s);
    Drain(QueueOf(s), s.now, ch.auth, s.handled, s.maxSteps)
  }

  /** The engine after that drain, its requests taken out of the events. */
  ghost function Collected(e: EngineState, op: IsaOp, ch: Choices): (out: EngineState)
    requires Inv(e) && Drains(e.(events := []), op)
    ensures Inv(out) && out.world.Wf()
  {
    var s := Warm(e, op, ch);
    DrainedKeeps(s, ch.auth);
    var e1 := WithQueue(s, FirstDrain(e, op, ch).q);
    OnlyQueues(e1, e1.(events := WithoutRequests(e1.events)));
    InvReady(e1.(events := WithoutRequests(e1.events)));
    e1.(events := WithoutRequests(e1.events))
  }

  /** The state in which the k-th of its requests is served. */
  ghost function Serving(e: EngineState, op: IsaOp, ch: Choices, k: nat): EngineState
    requires Inv(e) && Drains(e.(events := []), op) && ch.rounds != []
    requires k <= |Requests(FirstDrain(e, op, ch).q.events)| && k <= |ch.rounds[0]|
  {
    StabiliseEach(Collected(e, op, ch), Requests(FirstDrain(e, op, ch).q.events)[..k], ch.rounds[0][..k])
  }

  lemma CallSettles(e: EngineState, op: IsaOp, ch: Choices)
    requires Inv(e) && Drains(e.(events := []), op) && ch.rounds != []
    requires FirstDrain(e, op, ch).Idle? && Requests(FirstDrain(e, op, ch).q.events) != []
    ensures var next := StabiliseEach(Collected(e, op, ch), Requests(FirstDrain(e, op, ch).q.events), ch.rounds[0]);
      next.world.Wf() && Call(e, op, ch) == Settle(next, ch.auth, ch.rounds[1..])
  {
    DrainedCall(e, op, ch);
    hide Warm, Drain, StabiliseEach, Inv, WithoutRequests;
  }

  /** An instruction whose drain leaves requests goes on with a drain from next. When the k-th request is
      answered by an accepted section built from the state it is served in, next holds the recursive value of
      every member that was Zero, and no member is Zero. */
  lemma ApplyResolves(e: EngineState, op: IsaOp, ch: Choices, k: nat,
                      g: EGraph, r: SectionRegion, rank: map<Uid, nat>, ids: seq<Uid>, roots: seq<nat>, v: T)
    returns (next: EngineState)
    requires Inv(e) && Drains(e.(events := []), op) && FirstDrain(e, op, ch).Idle?
    requires var requests := Requests(FirstDrain(e, op, ch).q.events);
      && k < |requests| && requests[k] != [] && ch.rounds != [] && k < |ch.rounds[0]|
      && ch.rounds[0][k] == Stabilized(r.members, Settled(Some(v)))
    requires BuiltFrom(g, Serving(e, op, ch, k).world, r, rank, ids, roots) && v != Zero && AllResolved(Constants(g, roots), v)
    ensures Inv(next) && next.world.Wf() && Call(e, op, ch) == Settle(next, ch.auth, ch.rounds[1..])
    ensures RanksSection(Serving(e, op, ch, k).world, r, rank) && MembersResolved(Serving(e, op, ch, k).world, next.world, r, rank)
  {
    hide *;
    var requests, answers := Requests(FirstDrain(e, op, ch).q.events), ch.rounds[0];
    CallSettles(e, op, ch);
    next := StabiliseEach(Collected(e, op, ch), requests, answers);
    StabiliseEachKeeps(Collected(e, op, ch), requests, answers);
    KeptInv(Collected(e, op, ch), next);
    ServingIs(e, op, ch, k);
    var before := RequestResolves(Collected(e, op, ch), requests, answers, k, g, r, rank, ids, roots, v);
  }

  lemma ServingIs(e: EngineState, op: IsaOp, ch: Choices, k: nat)
    requires Inv(e) && Drains(e.(events := []), op) && ch.rounds != []
    requires k <= |Requests(FirstDrain(e, op, ch).q.events)| && k <= |ch.rounds[0]|
    ensures Serving(e, op, ch, k) == StabiliseEach(Collected(e, op, ch), Requests(FirstDrain(e, op, ch).q.events)[..k], ch.rounds[0][..k])
  {
    hide Collected, FirstDrain, Requests, StabiliseEach, Inv, Drains;
  }

  // ---- a push of a conflicted Stabilizing node -----------------------------------------------------------------

  /** Between two calls, without compiled regions: nothing queued, nothing demanded, no handled bit. */
  ghost predicate Resting(e: EngineState) {
    Inv(e) && e.items == [] && e.demanded == {} && e.cache.regions == map[] && e.handled == Cleared(|e.handled|)
  }

  lemma PropagateWarm(e: EngineState, n: Uid, ch: Choices)
    requires Resting(e)
    ensures var s := Warm(e, Propagate(n), ch);
      s.world == e.world && s.items == [Push(n)] && s.events == [] && s.handled == Cleared(|e.handled|) && s.maxSteps == e.maxSteps
  {
    var e1 := e.(events := []).Enqueue(Push(n)).Log(Attribute);
    assert [] + [Push(n)] == [Push(n)];
    InvReady(e);
    NoRegions(e1.(cache := e1.cache.(dirty := {})), ch.roots);
    hide Inv, RunRegions;
  }

  /** A push of a conflicted Stabilizing node drains in two steps; it makes the node Zero, moves no other
      value, and hands the node's region over twice. */
  lemma PropagateAsks(e: EngineState, n: Uid, ch: Choices)
    requires Resting(e) && e.world.Wf() && Conflicting(e.world, n) && e.maxSteps >= 2
    ensures var d := FirstDrain(e, Propagate(n), ch);
      && d.Idle? && d.q.world.nodes == e.world.nodes[n := e.world.nodes[n].SetValue(Zero)]
      && Requests(d.q.events) == [RegionOf(e.world.reg, n), RegionOf(e.world.reg, n)]
  {
    hide *;
    RestingDrains(e, n);
    PropagateWarm(e, n, ch);
    var s := Warm(e, Propagate(n), ch);
    PropagateDrains(e, s, n, ch);
    FirstDrainIs(e, Propagate(n), ch);
  }

  lemma RestingDrains(e: EngineState, n: Uid)
    requires Resting(e)
    ensures Inv(e) && Drains(e.(events := []), Propagate(n))
  {}

  lemma FirstDrainIs(e: EngineState, op: IsaOp, ch: Choices)
    requires Inv(e) && Drains(e.(events := []), op)
    ensures var s := Warm(e, op, ch);
      s.world.Wf() && FirstDrain(e, op, ch) == Drain(QueueOf(s), s.now, ch.auth, s.handled, s.maxSteps)
  {
    InvReady(Warm(e, op, ch));
    hide Warm, Inv, Drain, Drains;
  }

  lemma PropagateDrains(e: EngineState, s: EngineState, n: Uid, ch: Choices)
    requires e.world.Wf() && Conflicting(e.world, n) && e.maxSteps >= 2
    requires s.world == e.world && s.items == [Push(n)] && s.events == [] && s.handled == Cleared(|e.handled|) && s.maxSteps == e.maxSteps
    ensures var d := Drain(QueueOf(s), s.now, ch.auth, s.handled, s.maxSteps);
      && d.Idle? && d.q.world.nodes == e.world.nodes[n := e.world.nodes[n].SetValue(Zero)]
      && Requests(d.q.events) == [RegionOf(e.world.reg, n), RegionOf(e.world.reg, n)]
  {
    hide *;
    var q0 := QueueOf(s);
    TakenQueue(s);
    ClearedHandles(q0.world, |e.handled|, n);
    var region, ctx, stats := RegionOf(e.world.reg, n), Ctx(s.now, ch.auth, q0.demanded), q0.stats.(maxDepth := Larger(q0.stats.maxDepth, |q0.items|));
    var o, q1 := StepPush(e.world, n, ctx, stats), DrainStep(q0, s.now, ch.auth, s.handled);
    ConflictAsks(e.world, n, ctx, stats);
    PushStep(q0, n, s.now, ch.auth, s.handled);
    DrainNext(q0, q1, s.now, ch.auth, s.handled, s.maxSteps);
    assert q1.items == [StabilizeItem(region)] && q1.events == o.events;
    var q2 := DrainStep(q1, s.now, ch.auth, s.handled);
    ServedItem(q1, region, s.now, ch.auth, s.handled);
    DrainNext(q1, q2, s.now, ch.auth, s.handled, s.maxSteps - 1);
    DrainedQueue(q2, s.now, ch.auth, s.handled, s.maxSteps - 2);
    RequestsAppend(o.events, [StabilizeQueued(region)]);
    OneRequest(region);
  }

  lemma ClearedHandles(w: World, k: nat, n: Uid)
    ensures !Handled(w, Cleared(k), n)
  {}

  lemma TakenQueue(s: EngineState)
    ensures QueueOf(s).world == s.world && QueueOf(s).items == s.items && QueueOf(s).events == s.events
  {}

  lemma ServedItem(q: Queue, region: seq<Uid>, now: ProductTime, auth: map<(Uid, Uid), Verdict>, handled: seq<Word>)
    requires q.world.Wf() && q.items == [StabilizeItem(region)]
    ensures var next := DrainStep(q, now, auth, handled);
      next.world == q.world && next.items == [] && next.events == q.events + [StabilizeQueued(region)]
  {}

  lemma DrainedQueue(q: Queue, now: ProductTime, auth: map<(Uid, Uid), Verdict>, handled: seq<Word>, budget: nat)
    requires q.world.Wf() && q.items == []
    ensures Drain(q, now, auth, handled, budget) == Idle(q.(demanded := {}))
  {}

  lemma OneRequest(region: seq<Uid>)
    ensures Requests([StabilizeQueued(region)]) == [region]
  {
    assert Requests([]) == [];
    assert [StabilizeQueued(region)][..0] == [];
  }

  /** When the first of the two is answered by an accepted section built after the push, the call goes on from a
      state in which every member that was Zero has its recursive value, n among them. */
  lemma PropagateResolves(e: EngineState, n: Uid, ch: Choices,
                          g: EGraph, r: SectionRegion, rank: map<Uid, nat>, ids: seq<Uid>, roots: seq<nat>, v: T)
    returns (next: EngineState)
    requires Resting(e) && e.world.Wf() && Conflicting(e.world, n) && e.maxSteps >= 2
    requires ch.rounds != [] && ch.rounds[0] != [] && ch.rounds[0][0] == Stabilized(r.members, Settled(Some(v)))
    requires BuiltFrom(g, FirstDrain(e, Propagate(n), ch).q.world, r, rank, ids, roots) && v != Zero && AllResolved(Constants(g, roots), v)
    requires n in r.members
    ensures Inv(next) && next.world.Wf() && Call(e, Propagate(n), ch) == Settle(next, ch.auth, ch.rounds[1..])
    ensures var w := FirstDrain(e, Propagate(n), ch).q.world;
      && RanksSection(w, r, rank) && MembersResolved(w, next.world, r, rank)
      && n in next.world.nodes && next.world.nodes[n].value == MemberValue(w, r, rank, n)
  {
    PropagateAsks(e, n, ch);
    FirstServing(e, Propagate(n), ch);
    hide Resting, Inv, Conflicting, FirstDrain, BuiltFrom, Settle, Call, Constants, AllResolved, MemberValue, RanksSection, Serving;
    next := ApplyResolves(e, Propagate(n), ch, 0, g, r, rank, ids, roots, v);
  }

  lemma FirstServing(e: EngineState, op: IsaOp, ch: Choices)
    requires Inv(e) && Drains(e.(events := []), op) && ch.rounds != []
    ensures Serving(e, op, ch, 0).world == FirstDrain(e, op, ch).q.world
  {
    hide Warm, Drain, Inv, Drains, Requests, WithoutRequests;
  }

  // ---- the answers that resolve nothing ------------------------------------------------------------------

  /** An obstruction at the boundary moves no value and queues nothing: every member is reported as infected. */
  lemma BoundaryInfects(e: EngineState, seeds: seq<Uid>, members: set<Uid>)
    requires e.world.Wf() && seeds != []
    ensures var e' := Stabilise(e, seeds, Stabilized(members, StabVerdict.Boundary));
      && e' == e.(events := e'.events) && |e'.events| == |e.events| + |members| && e.events <= e'.events
      && forall event :: event in e'.events <==> event in e.events || exists n :: n in members && event == BochvarInfected(n, Some(Conflict))
  {
    var ids := Ascending(members);
    AscendingElements(members);
    forall event ensures event in Infections(ids) <==> exists n :: n in members && event == BochvarInfected(n, Some(Conflict)) {
      if n :| n in members && event == BochvarInfected(n, Some(Conflict)) {
        var k :| 0 <= k < |ids| && ids[k] == n;
        assert Infections(ids)[k] == event;
      }
    }
    assert forall event :: event in e.events + Infections(ids) <==> event in e.events || event in Infections(ids);
  }

  /** The dependency is Neg and some member reads it. */
  ghost predicate Awaited(w: World, members: set<Uid>, d: Uid) {
    d in w.nodes && w.nodes[d].value == Neg && exists m :: m in members && d in w.reg.DepsOf(m)
  }

  /** Missing information moves no value and reports nothing: exactly the Neg dependencies of members are demanded. */
  lemma InformationalDemands(e: EngineState, seeds: seq<Uid>, members: set<Uid>)
    requires e.world.Wf() && seeds != []
    ensures var e' := Stabilise(e, seeds, Stabilized(members, StabVerdict.Informational));
      && e' == e.(items := e'.items) && e.items <= e'.items
      && forall item :: item in e'.items[|e.items|..] <==> item.DemandItem? && Awaited(e.world, members, item.id)
  {
    DemandNegWf(e, Ascending(members));
    DemandedItems(e, Ascending(members));
    AscendingElements(members);
    forall item ensures AwaitedOf(e.world, Ascending(members), item) <==> item.DemandItem? && Awaited(e.world, members, item.id) {}
    hide DemandNeg, AwaitedOf, Awaited, Ascending;
  }

  /** The item demands a Neg dependency of one of the listed nodes. */
  ghost predicate AwaitedOf(w: World, ids: seq<Uid>, item: WorkItem) {
    item.DemandItem? && item.id in w.nodes && w.nodes[item.id].value == Neg && exists m :: m in ids && item.id in w.reg.DepsOf(m)
  }

  lemma AwaitedNext(w: World, front: seq<Uid>, last: Uid, item: WorkItem)
    ensures AwaitedOf(w, front + [last], item) <==>
      AwaitedOf(w, front, item) || item in Demands(NegNodes(w, Ascending(w.reg.DepsOf(last))))
  {
    AscendingElements(w.reg.DepsOf(last));
    NegNodesAre(w, Ascending(w.reg.DepsOf(last)));
    DemandsAre(NegNodes(w, Ascending(w.reg.DepsOf(last))));
    hide NegNodes, Ascending;
    assert last in front + [last];
    assert forall m :: m in front + [last] <==> m in front || m == last;
  }

  lemma {:induction false} DemandedItems(e: EngineState, ids: seq<Uid>)
    ensures e.items <= DemandNeg(e, ids).items
    ensures forall item :: item in DemandNeg(e, ids).items[|e.items|..] <==> AwaitedOf(e.world, ids, item)
    decreases |ids|
  {
    if ids != [] {
      var front, last := ids[..|ids| - 1], ids[|ids| - 1];
      assert ids == front + [last];
      DemandedItems(e, front);
      DemandNegWf(e, front);
      var before, more := DemandNeg(e, front).items, Demands(NegNodes(e.world, Ascending(e.world.reg.DepsOf(last))));
      assert DemandNeg(e, ids).items == before + more;
      assert (before + more)[|e.items|..] == before[|e.items|..] + more;
      hide NegNodes, Ascending, DemandNeg, AwaitedOf, Demands;
      forall item ensures AwaitedOf(e.world, ids, item) <==> item in before[|e.items|..] + more { AwaitedNext(e.world, front, last, item); }
    }
  }

  lemma DemandsAre(ids: seq<Uid>)
    ensures forall item :: item in Demands(ids) <==> item.DemandItem? && item.id in ids
  {
    forall item ensures item in Demands(ids) <==> item.DemandItem? && item.id in ids {
      if item.DemandItem? && item.id in ids {
        var k :| 0 <= k < |ids| && ids[k] == item.id;
        assert Demands(ids)[k] == item;
      }
    }
  }

  lemma {:induction false} NegNodesAre(w: World, ids: seq<Uid>)
    ensures forall d :: d in NegNodes(w, ids) <==> d in ids && d in w.nodes && w.nodes[d].value == Neg
    decreases |ids|
  {
    if ids != [] {
      assert ids == ids[..|ids| - 1] + [ids[|ids| - 1]];
      NegNodesAre(w, ids[..|ids| - 1]);
    }
  }
}
