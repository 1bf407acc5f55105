/** Order-independent convergence: Neg-to-Pos writes on an all-Eager graph, cycles allowed, end in
    the least fixpoint of the written set. */
module Convergence {
  import opened Base
  import opened Ternary
  import opened Rules
  import opened Time
  import opened Isa
  import opened ValueStores
  import opened Deps
  import opened Propagation
  import opened StepFacts
  import opened Draining
  import opened Coherence
  import opened Writes

  // ---- the fixpoint --------------------------------------------------------------------

  /** n computes from at least one dependency and all its dependencies are in the set. */
  ghost predicate Supported(w: World, n: Uid, s: set<Uid>) {
    n in w.nodes && w.nodes[n].kind.Computed? && w.reg.DepsOf(n) != {} && w.reg.DepsOf(n) <= s
  }

  ghost predicate Closed(w: World, s: set<Uid>) {
    forall n :: Supported(w, n, s) ==> n in s
  }

  /** The least closed set of nodes that contains the written ones. */
  ghost predicate LeastFixpoint(w: World, written: set<Uid>, s: set<Uid>) {
    && written <= s && Closed(w, s)
    && forall other: set<Uid> :: written <= other && Closed(w, other) ==> s <= other
  }

  function PosSet(w: World): set<Uid> { set n | n in w.nodes && w.nodes[n].value == Pos }

  // ---- the setting -----------------------------------------------------------------------

  /** A wired two-valued graph, every node Eager, every rule mapping all-Pos dependencies to Pos,
      every pair observing the attribute dimension. */
  ghost predicate Rising(w: World) { Wired(w) && Monotone(w) }

  ghost predicate Monotone(w: World) {
    && (forall n :: n in w.nodes ==> w.nodes[n].value != Zero && w.reg.ModeOf(n) == Eager)
    && (forall n :: n in w.nodes && w.nodes[n].kind.Computed? && w.reg.OrderedDepsOf(n) != [] ==>
          MapsPosToPos(w.nodes[n].kind.rule, |w.reg.OrderedDepsOf(n)|))
    && forall p :: p in w.reg.meta ==> Attribute in w.reg.meta[p].mask
  }

  /** The pairs out of a Neg node have not been pushed at this time. */
  ghost predicate GatesOpen(w: World, now: ProductTime) {
    forall p: (Uid, Uid) :: p in w.reg.meta && p.0 in w.nodes && w.nodes[p.0].value == Neg ==>
      w.reg.meta[p].lastSeen.Get(Attribute) < now.Get(Attribute)
  }

  /** m is Neg although its dependencies are all Pos. */
  ghost predicate Owed(w: World, m: Uid) {
    m in w.nodes && w.nodes[m].value == Neg && Supported(w, m, PosSet(w))
  }

  ghost predicate PushesOnly(w: World, items: seq<WorkItem>) {
    forall item :: item in items ==> item.Push? && w.reg.DepsOf(item.id) != {}
  }

  /** Every owed node is queued. */
  ghost predicate Progress(w: World, items: seq<WorkItem>, now: ProductTime) {
    Rising(w) && GatesOpen(w, now) && PushesOnly(w, items) && forall m :: Owed(w, m) ==> Push(m) in items
  }

  // ---- one node rises -----------------------------------------------------------------------

  /** n goes from Neg to Pos; no other node moves, only pairs out of n are stamped. */
  ghost predicate Lifted(w: World, n: Uid, w': World) {
    && n in w.nodes && w.nodes[n].value == Neg
    && SameGraph(w, w') && w'.nodes[n].value == Pos
    && (forall m :: m in w.nodes && m != n ==> w'.nodes[m] == w.nodes[m])
    && (forall p :: p in w.reg.meta ==> w'.reg.meta[p].mask == w.reg.meta[p].mask)
    && forall p :: p in w.reg.meta && p.0 != n ==> w'.reg.meta[p] == w.reg.meta[p]
  }

  /** The work pushes every reader of n that exists, and subscribers only. */
  ghost predicate Notified(w: World, n: Uid, work: seq<WorkItem>) {
    (forall m :: m in w.nodes && n in w.reg.DepsOf(m) ==> Push(m) in work) && PushesOnly(w, work)
  }

  ghost predicate Rose(w: World, n: Uid, w': World, work: seq<WorkItem>) {
    Lifted(w, n, w') && Notified(w, n, work)
  }

  lemma GateIsOpen(reg: Registry, n: Uid, m: Uid, now: ProductTime)
    requires (n, m) in reg.meta && Attribute in reg.meta[(n, m)].mask
    requires reg.meta[(n, m)].lastSeen.Get(Attribute) < now.Get(Attribute)
    ensures reg.Open(n, m, now)
  {}

  lemma EffectLifted(w: World, n: Uid, ctx: Ctx, o: Outcome, to: seq<Uid>)
    requires Wired(w) && n in w.nodes && w.nodes[n].value == Neg && Effect(w, n, ctx, o, Pos, to, [])
    ensures Wired(o.world) && Lifted(w, n, o.world)
  {
    EffectWrote(w, n, ctx, o, Pos, to, []);
    WroteWired(w, o.world, n, Pos);
    WroteSameGraph(w, o.world, n, Pos);
  }

  lemma AcceptedNotified(w: World, n: Uid, ctx: Ctx, work: seq<WorkItem>)
    requires Rising(w) && GatesOpen(w, ctx.now) && n in w.nodes && w.nodes[n].value == Neg && ctx.auth == map[]
    requires work == Pushes(Accepted(w.reg, n, Ascending(w.reg.SubsOf(n)), ctx))
    ensures Notified(w, n, work)
  {
    PushedItems(w.reg, n, ctx);
    forall m | m in w.nodes && n in w.reg.DepsOf(m) ensures Push(m) in work {
      assert m in w.reg.SubsOf(n) && (n, m) in w.reg.meta;
      GateIsOpen(w.reg, n, m, ctx.now);
    }
    forall item | item in work ensures item.Push? && w.reg.DepsOf(item.id) != {} {
      assert item.id in w.reg.SubsOf(n) && n in w.reg.DepsOf(item.id);
    }
  }

  /** A step that turns n Pos and pushes is a rise. */
  lemma EffectRose(w: World, n: Uid, ctx: Ctx, o: Outcome)
    requires Rising(w) && GatesOpen(w, ctx.now) && n in w.nodes && w.nodes[n].value == Neg && ctx.auth == map[]
    requires Effect(w, n, ctx, o, Pos, Accepted(w.reg, n, Ascending(w.reg.SubsOf(n)), ctx), [])
    ensures Wired(o.world) && Rose(w, n, o.world, o.work)
    ensures ChangesIn(o.events) == [ValueChanged(n, Neg, Pos)]
  {
    var to := Accepted(w.reg, n, Ascending(w.reg.SubsOf(n)), ctx);
    EffectLifted(w, n, ctx, o, to);
    assert o.work == Pushes(to) by { assert Pushes(to) + [] == Pushes(to); }
    AcceptedNotified(w, n, ctx, o.work);
  }

  lemma LiftedMonotone(w: World, n: Uid, w': World, now: ProductTime)
    requires Monotone(w) && GatesOpen(w, now) && Lifted(w, n, w')
    ensures Monotone(w') && GatesOpen(w', now)
  {
    forall m | m in w'.nodes
      ensures w'.nodes[m].value != Zero && w'.reg.ModeOf(m) == Eager
      ensures w'.nodes[m].kind == w.nodes[m].kind && w'.reg.OrderedDepsOf(m) == w.reg.OrderedDepsOf(m)
    {}
  }

  lemma RoseOwed(w: World, n: Uid, w': World, work: seq<WorkItem>, m: Uid)
    requires Rose(w, n, w', work) && Owed(w', m) && Push(m) !in work
    ensures Owed(w, m) && m != n
  {
    assert w'.reg.DepsOf(m) == w.reg.DepsOf(m);
    forall d | d in w.reg.DepsOf(m) ensures d in PosSet(w) { assert d in PosSet(w'); }
  }

  /** If every owed node but n was queued, every owed node is queued after n rises. */
  lemma RoseProgress(w: World, n: Uid, w': World, work: seq<WorkItem>, rest: seq<WorkItem>, now: ProductTime)
    requires Rising(w) && GatesOpen(w, now) && Rose(w, n, w', work) && Wired(w') && PushesOnly(w, rest)
    requires forall m :: Owed(w, m) && m != n ==> Push(m) in rest
    ensures Progress(w', rest + work, now)
  {
    LiftedMonotone(w, n, w', now);
    forall item | item in rest + work ensures item.Push? && w'.reg.DepsOf(item.id) != {} {
      assert w'.reg.DepsOf(item.id) == w.reg.DepsOf(item.id);
    }
    forall m | Owed(w', m) ensures Push(m) in rest + work {
      if Push(m) !in work { RoseOwed(w, n, w', work, m); }
    }
  }

  // ---- what a rise means for the fixpoint and the report -------------------------------------

  /** The changes are one Neg-to-Pos event for each node that rose since w0. */
  ghost predicate Reports(changes: seq<PropEvent>, w0: World, w: World) {
    && Distinct(changes)
    && (forall e :: e in changes ==> e.ValueChanged? && e.prior == Neg && e.next == Pos)
    && forall n :: ValueChanged(n, Neg, Pos) in changes <==> n in PosSet(w) && n !in PosSet(w0)
  }

  lemma LiftedPos(w: World, n: Uid, w': World)
    requires Lifted(w, n, w')
    ensures PosSet(w') == PosSet(w) + {n} && n !in PosSet(w)
  {}

  lemma LiftedReports(w0: World, w: World, n: Uid, w': World, e0: seq<PropEvent>, e1: seq<PropEvent>)
    requires Lifted(w, n, w') && Reports(ChangesIn(e0), w0, w) && PosSet(w0) <= PosSet(w)
    requires ChangesIn(e1) == [ValueChanged(n, Neg, Pos)]
    ensures Reports(ChangesIn(e0 + e1), w0, w')
  {
    LiftedPos(w, n, w');
    ChangesInAppend(e0, e1);
    var before := ChangesIn(e0);
    assert ValueChanged(n, Neg, Pos) !in before;
  }

  /** A closed superset of the Pos nodes contains a node that rises by its rule. */
  lemma LiftedBelow(w: World, n: Uid, w': World, s: set<Uid>)
    requires Lifted(w, n, w') && PosSet(w) <= s && (n in s || (Closed(w, s) && Supported(w, n, PosSet(w))))
    ensures PosSet(w') <= s
  {
    LiftedPos(w, n, w');
    if n !in s { assert Supported(w, n, s); }
  }

  lemma ClosedStable(w: World, w': World, s: set<Uid>)
    requires SameGraph(w, w')
    ensures Closed(w', s) <==> Closed(w, s)
  {
    forall n ensures Supported(w', n, s) <==> Supported(w, n, s) { assert w'.reg.DepsOf(n) == w.reg.DepsOf(n); }
  }

  // ---- steps, drains and runs -----------------------------------------------------------------

  /** What a run from w0 is measured against: a set it has reached and a closed set it stays in. */
  datatype Goal = Goal(w0: World, low: set<Uid>, high: set<Uid>)

  ghost predicate Tracked(events: seq<PropEvent>, w: World, g: Goal) {
    && Reports(ChangesIn(events), g.w0, w) && PosSet(g.w0) <= PosSet(w)
    && g.low <= PosSet(w) && (Closed(w, g.high) ==> PosSet(w) <= g.high)
  }

  /** Everything a drain keeps; `past` holds the events before this queue. */
  ghost predicate OnTrack(q: Queue, now: ProductTime, past: seq<PropEvent>, g: Goal) {
    Progress(q.world, q.items, now) && Tracked(past + q.events, q.world, g)
  }

  /** In this setting a push reads no Zero. */
  lemma NoZeroRead(w: World, n: Uid)
    requires Rising(w)
    ensures Zero !in w.DepVals(n)
    ensures StateOf(w.DepVals(n)) == Ready <==> w.reg.DepsOf(n) <= PosSet(w)
    ensures |w.DepVals(n)| == |w.reg.OrderedDepsOf(n)|
  {
    var ids := w.reg.OrderedDepsOf(n);
    assert ListsRight(w, n);
    DepValsAre(w, n);
    forall k | 0 <= k < |ids| ensures w.DepVals(n)[k] != Zero && (w.DepVals(n)[k] == Pos <==> ids[k] in PosSet(w)) {
      assert ids[k] in w.nodes;
    }
    if w.reg.DepsOf(n) <= PosSet(w) {
      forall k | 0 <= k < |ids| ensures w.DepVals(n)[k] == Pos { assert ids[k] in w.reg.DepsOf(n); }
    } else {
      var d :| d in w.reg.DepsOf(n) && d !in PosSet(w);
      var k :| 0 <= k < |ids| && ids[k] == d;
      assert w.DepVals(n)[k] == Neg;
    }
  }

  /** What a push does in this setting: lifts an owed node, or nothing. */
  ghost predicate Lifts(w: World, n: Uid, o: Outcome) {
    if Owed(w, n)
    then Wired(o.world) && Rose(w, n, o.world, o.work) && ChangesIn(o.events) == [ValueChanged(n, Neg, Pos)]
    else o.world == w && o.work == [] && o.events == []
  }

  /** A push in this setting either does nothing, or lifts a supported Neg node to Pos. */
  lemma PushLifts(w: World, n: Uid, ctx: Ctx, stats: Stats)
    requires Rising(w) && GatesOpen(w, ctx.now) && ctx.auth == map[] && w.reg.DepsOf(n) != {}
    ensures Lifts(w, n, StepPush(w, n, ctx, stats))
  {
    if n in w.nodes && w.nodes[n].kind.Computed? {
      WiredPushIsScan(w, n, ctx, stats);
      NoZeroRead(w, n);
      if StateOf(w.DepVals(n)) == Ready { ReadyLifts(w, n, ctx, stats); }
    }
  }

  lemma ReadyLifts(w: World, n: Uid, ctx: Ctx, stats: Stats)
    requires Rising(w) && GatesOpen(w, ctx.now) && ctx.auth == map[] && w.reg.DepsOf(n) != {}
    requires n in w.nodes && w.nodes[n].kind.Computed? && StateOf(w.DepVals(n)) == Ready
    requires |w.DepVals(n)| == |w.reg.OrderedDepsOf(n)|
    ensures var o := StepScan(w, n, ctx, stats);
      if w.nodes[n].value == Neg
      then Wired(o.world) && Rose(w, n, o.world, o.work) && ChangesIn(o.events) == [ValueChanged(n, Neg, Pos)]
      else o.world == w && o.work == [] && o.events == []
  {
    assert ListsRight(w, n);
    var d :| d in w.reg.DepsOf(n);
    assert d in w.reg.OrderedDepsOf(n);
    AllPosEval(w.nodes[n].kind.rule, w.DepVals(n));
    if w.nodes[n].value == Neg {
      ScanEffect(w, n, ctx, stats);
      EffectRose(w, n, ctx, StepScan(w, n, ctx, stats));
    }
  }

  lemma LiftedTracked(w: World, n: Uid, w': World, g: Goal, e0: seq<PropEvent>, e1: seq<PropEvent>)
    requires Lifted(w, n, w') && Tracked(e0, w, g) && ChangesIn(e1) == [ValueChanged(n, Neg, Pos)]
    requires n in g.high || Supported(w, n, PosSet(w))
    ensures Tracked(e0 + e1, w', g) && n in PosSet(w')
  {
    LiftedReports(g.w0, w, n, w', e0, e1);
    LiftedPos(w, n, w');
    ClosedStable(w, w', g.high);
    if Closed(w, g.high) { LiftedBelow(w, n, w', g.high); }
  }

  /** Taking an item that is not owed leaves the progress. */
  lemma TakeNothing(w: World, items: seq<WorkItem>, now: ProductTime)
    requires Progress(w, items, now) && items != [] && items[0].Push? && !Owed(w, items[0].id)
    ensures Progress(w, items[1..], now)
  {
    OtherItems(items);
  }

  lemma OtherItems(items: seq<WorkItem>)
    requires items != []
    ensures forall item :: item in items && item != items[0] ==> item in items[1..]
    ensures forall item :: item in items[1..] ==> item in items
  {
    assert items == [items[0]] + items[1..];
  }

  lemma TakeOwed(w: World, items: seq<WorkItem>, now: ProductTime, w': World, work: seq<WorkItem>)
    requires Progress(w, items, now) && items != [] && items[0].Push?
    requires Wired(w') && Rose(w, items[0].id, w', work)
    ensures Progress(w', items[1..] + work, now)
  {
    OtherItems(items);
    RoseProgress(w, items[0].id, w', work, items[1..], now);
  }

  lemma LiftsProgress(w: World, items: seq<WorkItem>, now: ProductTime, o: Outcome)
    requires Progress(w, items, now) && items != [] && items[0].Push? && Lifts(w, items[0].id, o)
    ensures Progress(o.world, items[1..] + o.work, now)
  {
    if Owed(w, items[0].id) {
      TakeOwed(w, items, now, o.world, o.work);
    } else {
      TakeNothing(w, items, now);
      assert items[1..] + [] == items[1..];
    }
  }

  lemma LiftsParts(w: World, n: Uid, o: Outcome)
    requires Lifts(w, n, o)
    ensures Owed(w, n) ==> Lifted(w, n, o.world) && Supported(w, n, PosSet(w)) && ChangesIn(o.events) == [ValueChanged(n, Neg, Pos)]
    ensures !Owed(w, n) ==> o.world == w && o.events == []
  {}

  lemma LiftsTracked(w: World, n: Uid, o: Outcome, g: Goal, past: seq<PropEvent>, events: seq<PropEvent>)
    requires Lifts(w, n, o) && Tracked(past + events, w, g)
    ensures Tracked(past + (events + o.events), o.world, g)
  {
    hide *;
    LiftsParts(w, n, o);
    assert past + (events + o.events) == past + events + o.events;
    if Owed(w, n) {
      LiftedTracked(w, n, o.world, g, past + events, o.events);
    } else {
      assert past + events + [] == past + events;
    }
  }

  lemma DrainStepOnTrack(q: Queue, now: ProductTime, past: seq<PropEvent>, g: Goal)
    requires OnTrack(q, now, past, g) && q.items != []
    ensures OnTrack(DrainStep(q, now, map[], []), now, past, g)
  {
    assert q.items[0] in q.items;
    var id := q.items[0].id;
    var ctx, s0 := Ctx(now, map[], q.demanded), q.stats.(maxDepth := Larger(q.stats.maxDepth, |q.items|));
    PushLifts(q.world, id, ctx, s0);
    var o := StepPush(q.world, id, ctx, s0);
    LiftsProgress(q.world, q.items, now, o);
    LiftsTracked(q.world, id, o, g, past, q.events);
  }

  lemma DrainOnTrack(q: Queue, now: ProductTime, past: seq<PropEvent>, g: Goal, budget: nat)
    requires OnTrack(q, now, past, g) && Drain(q, now, map[], [], budget).Idle?
    ensures OnTrack(Drain(q, now, map[], [], budget).q, now, past, g)
    ensures Drain(q, now, map[], [], budget).q.items == []
  {
    var inv := p => OnTrack(p, now, past, g);
    forall p: Queue | p.world.Wf() && p.items != [] && inv(p) ensures inv(DrainStep(p, now, map[], [])) {
      DrainStepOnTrack(p, now, past, g);
    }
    var last := DrainInduction(q, now, map[], [], budget, inv);
  }

  // ---- whole runs ---------------------------------------------------------------------------

  /** Where a run of writes stands: the world, the clock and every event so far. */
  datatype RunState = RunState(world: World, now: ProductTime, events: seq<PropEvent>, stats: Stats)

  /** One Pos write: no change if the node is missing or already Pos; otherwise the clock ticks
      and the write drains. */
  ghost function WritePos(r: RunState, n: Uid, budget: nat): RunState
    requires Coherent(r.world)
  {
    if n !in r.world.nodes || r.world.nodes[n].value == Pos then r
    else
      var now := r.now.Advance(Attribute);
      WriteKeeps(r.world, n, Pos, now);
      After(r, now, Drain(WriteQueue(r.world, n, Pos, now, r.stats), now, map[], [], budget).q)
  }

  function After(r: RunState, now: ProductTime, q: Queue): RunState { RunState(q.world, now, r.events + q.events, q.stats) }

  lemma WritePosKeeps(r: RunState, n: Uid, budget: nat)
    requires Coherent(r.world)
    ensures Coherent(WritePos(r, n, budget).world) && SameGraph(r.world, WritePos(r, n, budget).world)
  {
    if n in r.world.nodes && r.world.nodes[n].value != Pos {
      var now := r.now.Advance(Attribute);
      var q := WriteQueue(r.world, n, Pos, now, r.stats);
      WriteKeeps(r.world, n, Pos, now);
      DrainKeeps(q, now, map[], [], budget);
      SameGraphTransitive(r.world, q.world, Drain(q, now, map[], [], budget).q.world);
    }
  }

  /** The writes in order, each drained before the next. */
  ghost function WriteAllPos(r: RunState, writes: seq<Uid>, budget: nat): (out: RunState)
    requires Coherent(r.world)
    ensures Coherent(out.world)
  {
    if writes == [] then r
    else
      var before := WriteAllPos(r, writes[..|writes| - 1], budget);
      WritePosKeeps(before, writes[|writes| - 1], budget);
      WritePos(before, writes[|writes| - 1], budget)
  }

  /** What holds between two writes of a run. */
  ghost predicate Between(r: RunState, g: Goal) {
    && Progress(r.world, [], r.now.Advance(Attribute)) && ClockAhead(r.world.reg, r.now)
    && Tracked(r.events, r.world, g)
  }

  lemma ClockOpensGates(w: World, now: ProductTime)
    requires ClockAhead(w.reg, now)
    ensures GatesOpen(w, now.Advance(Attribute))
  {}

  lemma WriteRises(w: World, n: Uid, now: ProductTime)
    requires Rising(w) && GatesOpen(w, now) && n in w.nodes && w.nodes[n].value == Neg
    ensures Wired(WriteWorld(w, n, Pos, now)) && Rose(w, n, WriteWorld(w, n, Pos, now), WriteItems(w, n, Pos, now))
  {
    WriteEffect(w, n, Pos, now);
    EffectRose(w, n, WriteCtx(now), Outcome(WriteWorld(w, n, Pos, now), Some(Pos), [ValueChanged(n, Neg, Pos)],
                                            WriteItems(w, n, Pos, now), NO_STATS));
  }

  lemma WriteProgress(w: World, n: Uid, now: ProductTime)
    requires Progress(w, [], now) && n in w.nodes && w.nodes[n].value == Neg
    ensures Progress(WriteWorld(w, n, Pos, now), WriteItems(w, n, Pos, now), now)
    ensures Lifted(w, n, WriteWorld(w, n, Pos, now))
  {
    WriteRises(w, n, now);
    var w', work := WriteWorld(w, n, Pos, now), WriteItems(w, n, Pos, now);
    RoseProgress(w, n, w', work, [], now);
    assert [] + work == work;
  }

  /** The write starts the drain on track, with n reached. */
  lemma WriteOnTrack(r: RunState, n: Uid, g: Goal)
    requires Between(r, g) && n in r.world.nodes && r.world.nodes[n].value == Neg && n in g.high
    ensures var now := r.now.Advance(Attribute);
      OnTrack(WriteQueue(r.world, n, Pos, now, r.stats), now, r.events, g.(low := g.low + {n}))
  {
    var now := r.now.Advance(Attribute);
    WriteProgress(r.world, n, now);
    SingleReport(n, Neg, Pos);
    LiftedTracked(r.world, n, WriteWorld(r.world, n, Pos, now), g, r.events, [ValueChanged(n, Neg, Pos)]);
    assert OnTrack(WriteQueue(r.world, n, Pos, now, r.stats), now, r.events, g.(low := g.low + {n})) by {
      hide Progress, Lifted, Between;
    }
  }

  lemma DrainedBetween(r: RunState, q: Queue, now: ProductTime, g: Goal)
    requires OnTrack(q, now, r.events, g) && q.items == [] && ClockAhead(q.world.reg, now)
    ensures Between(After(r, now, q), g)
  {
    ClockOpensGates(q.world, now);
  }

  /** The queue a write drains starts on track and its budget suffices. */
  lemma WriteReady(r: RunState, n: Uid, budget: nat, g: Goal) returns (q: Queue)
    requires Between(r, g) && n in r.world.nodes && r.world.nodes[n].value != Pos && n in g.high
    requires budget >= 2 * |r.world.reg.meta|
    ensures var now := r.now.Advance(Attribute);
      && Coherent(q.world) && ClockAhead(q.world.reg, now) && OnTrack(q, now, r.events, g.(low := g.low + {n}))
      && Drain(q, now, map[], [], budget).Idle?
      && WritePos(r, n, budget) == After(r, now, Drain(q, now, map[], [], budget).q)
  {
    var now := r.now.Advance(Attribute);
    q := WriteStarts(r.world, n, Pos, now, r.stats, map[], budget);
    WriteOnTrack(r, n, g);
  }

  /** After each write the run is between writes again, with the node reached. */
  lemma WriteBetween(r: RunState, n: Uid, budget: nat, g: Goal)
    requires Between(r, g) && n in r.world.nodes && n in g.high && budget >= 2 * |r.world.reg.meta|
    ensures Between(WritePos(r, n, budget), g.(low := g.low + {n}))
  {
    var g' := g.(low := g.low + {n});
    if r.world.nodes[n].value != Pos {
      var now := r.now.Advance(Attribute);
      var q := WriteReady(r, n, budget, g);
      DrainOnTrack(q, now, r.events, g', budget);
      DrainClock(q, now, map[], [], budget);
      DrainedBetween(r, Drain(q, now, map[], [], budget).q, now, g');
    }
  }

  /** The written nodes that exist. */
  function WrittenIn(w: World, writes: seq<Uid>): set<Uid> { set n | n in writes && n in w.nodes }

  lemma BetweenCoherent(r: RunState, g: Goal)
    requires Between(r, g)
    ensures Coherent(r.world)
  {}

  lemma WrittenNext(w: World, writes: seq<Uid>, n: Uid)
    ensures WrittenIn(w, writes + [n]) == WrittenIn(w, writes) + (if n in w.nodes then {n} else {})
  {}

  /** What a run from w0 has established after the listed writes. */
  ghost predicate Ran(w0: World, writes: seq<Uid>, high: set<Uid>, out: RunState) {
    Between(out, Goal(w0, WrittenIn(w0, writes), high)) && SameGraph(w0, out.world)
  }

  lemma RunStep(r: RunState, n: Uid, budget: nat, w0: World, writes: seq<Uid>, high: set<Uid>)
    requires Ran(w0, writes, high, r)
    requires (n in w0.nodes ==> n in high) && budget >= 2 * |w0.reg.meta|
    ensures Coherent(r.world) && Ran(w0, writes + [n], high, WritePos(r, n, budget))
  {
    var g := Goal(w0, WrittenIn(w0, writes), high);
    BetweenCoherent(r, g);
    WrittenNext(w0, writes, n);
    assert r.world.reg.meta.Keys == w0.reg.meta.Keys && r.world.nodes.Keys == w0.nodes.Keys;
    assert |r.world.reg.meta| == |r.world.reg.meta.Keys|;
    WritePosKeeps(r, n, budget);
    SameGraphTransitive(w0, r.world, WritePos(r, n, budget).world);
    if n in r.world.nodes {
      WriteBetween(r, n, budget, g);
    }
  }

  lemma AllPosNext(r0: RunState, writes: seq<Uid>, k: nat, budget: nat)
    requires Coherent(r0.world) && k < |writes|
    ensures var before := WriteAllPos(r0, writes[..k], budget);
      Coherent(before.world) && WriteAllPos(r0, writes[..k + 1], budget) == WritePos(before, writes[k], budget)
  {
    assert writes[..k + 1][..k] == writes[..k];
  }

  lemma RunNext(r0: RunState, writes: seq<Uid>, k: nat, budget: nat, high: set<Uid>)
    requires Coherent(r0.world) && k < |writes| && budget >= 2 * |r0.world.reg.meta|
    requires Ran(r0.world, writes[..k], high, WriteAllPos(r0, writes[..k], budget))
    requires writes[k] in r0.world.nodes ==> writes[k] in high
    ensures Ran(r0.world, writes[..k + 1], high, WriteAllPos(r0, writes[..k + 1], budget))
  {
    hide *;
    assert writes[..k + 1] == writes[..k] + [writes[k]];
    AllPosNext(r0, writes, k, budget);
    RunStep(WriteAllPos(r0, writes[..k], budget), writes[k], budget, r0.world, writes[..k], high);
  }

  lemma RunBetween(r0: RunState, writes: seq<Uid>, budget: nat, high: set<Uid>)
    requires Coherent(r0.world) && Ran(r0.world, [], high, r0) && budget >= 2 * |r0.world.reg.meta|
    requires forall n :: n in writes && n in r0.world.nodes ==> n in high
    ensures Ran(r0.world, writes, high, WriteAllPos(r0, writes, budget))
  {
    assert WriteAllPos(r0, [], budget) == r0;
    hide *;
    for k := 0 to |writes|
      invariant Ran(r0.world, writes[..k], high, WriteAllPos(r0, writes[..k], budget))
    {
      assert writes[k] in writes;
      RunNext(r0, writes, k, budget, high);
    }
    assert writes[..|writes|] == writes;
  }

  /** The setting of the theorem: every node Neg, and the clock not behind any stamp. */
  ghost predicate Quiescent(r: RunState) {
    && Rising(r.world) && ClockAhead(r.world.reg, r.now) && r.events == []
    && forall n :: n in r.world.nodes ==> r.world.nodes[n].value == Neg
  }

  lemma QuiescentRan(r: RunState, high: set<Uid>)
    requires Quiescent(r)
    ensures Ran(r.world, [], high, r)
  {
    ClockOpensGates(r.world, r.now);
    assert PosSet(r.world) == {};
  }

  /** An idle world owes nothing, so its Pos nodes are closed. */
  lemma RanClosed(w0: World, writes: seq<Uid>, high: set<Uid>, out: RunState)
    requires Ran(w0, writes, high, out)
    ensures Closed(w0, PosSet(out.world)) && WrittenIn(w0, writes) <= PosSet(out.world)
    ensures Closed(w0, high) ==> PosSet(out.world) <= high
    ensures Reports(ChangesIn(out.events), w0, out.world)
  {
    ClosedStable(w0, out.world, PosSet(out.world));
    ClosedStable(w0, out.world, high);
    NothingOwed(out.world, out.now.Advance(Attribute));
    hide Closed, Reports, SameGraph, Supported, Progress;
  }

  lemma NothingOwed(w: World, now: ProductTime)
    requires Progress(w, [], now)
    ensures Closed(w, PosSet(w))
  {
    forall n | Supported(w, n, PosSet(w)) ensures n in PosSet(w) { assert !Owed(w, n); }
  }

  /** Any sequence of Pos writes, on any graph of the setting, cyclic ones included, ends with
      exactly the least fixpoint of the written set Pos, and over the whole run each node that
      rose reported one value change and no other node any. */
  lemma WritesConverge(r: RunState, writes: seq<Uid>, budget: nat)
    requires Quiescent(r) && budget >= 2 * |r.world.reg.meta|
    ensures var out := WriteAllPos(r, writes, budget);
      && LeastFixpoint(r.world, WrittenIn(r.world, writes), PosSet(out.world))
      && Reports(ChangesIn(out.events), r.world, out.world)
  {
    var w0 := r.world;
    var written := WrittenIn(w0, writes);
    RunReaches(r, writes, budget, w0.nodes.Keys);
    forall other: set<Uid> | written <= other && Closed(w0, other) ensures PosSet(WriteAllPos(r, writes, budget).world) <= other {
      RunReaches(r, writes, budget, other);
    }
  }

  lemma RunReaches(r: RunState, writes: seq<Uid>, budget: nat, high: set<Uid>)
    requires Quiescent(r) && budget >= 2 * |r.world.reg.meta| && WrittenIn(r.world, writes) <= high
    ensures var out := WriteAllPos(r, writes, budget);
      && Closed(r.world, PosSet(out.world)) && WrittenIn(r.world, writes) <= PosSet(out.world)
      && (Closed(r.world, high) ==> PosSet(out.world) <= high)
      && Reports(ChangesIn(out.events), r.world, out.world)
  {
    QuiescentRan(r, high);
    forall n | n in writes && n in r.world.nodes ensures n in high { assert n in WrittenIn(r.world, writes); }
    RunBetween(r, writes, budget, high);
    RanClosed(r.world, writes, high, WriteAllPos(r, writes, budget));
  }

  /** The order of the writes, and how often each is repeated, does not matter. */
  lemma OrderDoesNotMatter(r: RunState, writes0: seq<Uid>, writes1: seq<Uid>, budget: nat)
    requires Quiescent(r) && budget >= 2 * |r.world.reg.meta| && Elements(writes0) == Elements(writes1)
    ensures PosSet(WriteAllPos(r, writes0, budget).world) == PosSet(WriteAllPos(r, writes1, budget).world)
  {
    WritesConverge(r, writes0, budget);
    WritesConverge(r, writes1, budget);
    assert WrittenIn(r.world, writes0) == WrittenIn(r.world, writes1) by {
      assert forall n :: n in writes0 <==> n in Elements(writes0);
      assert forall n :: n in writes1 <==> n in Elements(writes1);
    }
  }
}
