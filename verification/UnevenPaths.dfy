/** Why unique paths are asked for: two paths of different lengths leave a node behind. */
module UnevenPaths {
  import opened Base
  import opened Bits
  import opened Ternary
  import opened Rules
  import opened Time
  import opened Isa
  import opened ValueStores
  import opened Deps
  import opened Propagation
  import opened StepFacts
  import opened Draining
  import opened Coherence
  import opened Writes
  import opened EngineModel
  import opened EngineValues
  import opened EngineInvariant
  import opened EngineWiring
  import opened EngineRuns
  import opened LocalConsistency
  import opened EngineLimits

  /** Node 0 feeds node 1 directly and through node 2, and node 3 reads node 1. */
  ghost predicate Kite(w: World) {
    && Coherent(w) && w.nodes.Keys == {0, 1, 2, 3}
    && w.nodes[0].kind == Input && w.nodes[1].kind == Computed(BochvarFold)
    && w.nodes[2].kind == Computed(Rules.Identity) && w.nodes[3].kind == Computed(Rules.Identity)
    && w.reg.SubsOf(0) == {1, 2} && w.reg.SubsOf(1) == {3} && w.reg.SubsOf(2) == {1} && w.reg.SubsOf(3) == {}
    && w.reg.OrderedIdxOf(1) == [w.store.idx[0], w.store.idx[2]]
    && w.reg.OrderedIdxOf(2) == [w.store.idx[0]] && w.reg.OrderedIdxOf(3) == [w.store.idx[1]]
    && w.reg.ModeOf(1) == w.reg.ModeOf(2) == w.reg.ModeOf(3) == Eager
    && Watchful(w.reg)
  }

  /** Every pair observes the attribute dimension. */
  ghost predicate Watchful(reg: Registry) { forall p :: p in reg.meta ==> Attribute in reg.meta[p].mask }

  lemma StampedWatchful(reg: Registry, reg': Registry, n: Uid, to: seq<Uid>, now: ProductTime)
    requires Watchful(reg) && reg'.meta == Stamped(reg.meta, n, to, now)
    ensures Watchful(reg')
  {}

  /** The values of the four nodes. */
  ghost predicate Holds(w: World, vals: seq<T>) {
    |vals| == 4 && w.nodes.Keys == {0, 1, 2, 3} && forall n: nat :: n < 4 ==> w.nodes[n].value == vals[n]
  }

  function Reads(vals: seq<T>, n: nat): seq<T>
    requires |vals| == 4
  {
    if n == 1 then [vals[0], vals[2]] else if n == 2 then [vals[0]] else if n == 3 then [vals[1]] else []
  }

  lemma KiteStands(w: World, w': World)
    requires Kite(w) && Coherent(w') && SameGraph(w, w') && Watchful(w'.reg)
    ensures Kite(w')
  {}

  lemma KiteReads(w: World, vals: seq<T>, n: nat)
    requires Kite(w) && Holds(w, vals) && 1 <= n <= 3
    ensures w.DepVals(n) == Reads(vals, n) && !FastPath(w, n)
  {}

  // ---- one push ------------------------------------------------------------------------------

  /** The subscriber that a node other than the source pushes to. */
  function Reader(n: nat): seq<Uid> { if n == 1 then [3] else if n == 2 then [1] else [] }

  lemma ReaderIs(w: World, n: nat)
    requires Kite(w) && 1 <= n <= 3
    ensures Ascending(w.reg.SubsOf(n)) == Reader(n)
  {
    AscendingOne(1);
    AscendingOne(3);
  }

  /** What the scan makes of these dependency values. */
  function Next(vals: seq<T>, n: nat): T
    requires |vals| == 4
  {
    match StateOf(Reads(vals, n))
    case Pending => if n < 4 then vals[n] else Neg
    case Ready => Pos
    case Conflicted => Zero
  }

  predicate Notifies(vals: seq<T>, n: nat)
    requires |vals| == 4 && n < 4
  {
    StateOf(Reads(vals, n)) == Conflicted || (StateOf(Reads(vals, n)) == Ready && vals[n] != Pos)
  }

  lemma AllReadPos(w: World, vals: seq<T>, n: nat)
    requires Kite(w) && Holds(w, vals) && 1 <= n <= 3 && StateOf(Reads(vals, n)) == Ready
    ensures EvalOrNeg(w.nodes[n].kind.rule, Reads(vals, n)) == Pos
  {
    AllPosEval(w.nodes[n].kind.rule, Reads(vals, n));
  }

  /** What a push of one of the three does. */
  ghost predicate Pushed(w: World, o: Outcome, n: nat, vals: seq<T>, to: seq<Uid>, now: ProductTime)
    requires |vals| == 4 && n < 4
  {
    && Kite(o.world) && Holds(o.world, vals[n := Next(vals, n)]) && o.work == Pushes(to)
    && o.world.reg.meta == Stamped(w.reg.meta, n, to, now)
  }

  lemma KitePush(w: World, vals: seq<T>, n: nat, ctx: Ctx, stats: Stats)
    requires Kite(w) && Holds(w, vals) && 1 <= n <= 3 && ctx.auth == map[]
    ensures Pushed(w, StepPush(w, n, ctx, stats), n, vals,
                   if Notifies(vals, n) then Accepted(w.reg, n, Reader(n), ctx) else [], ctx.now)
  {
    KiteReads(w, vals, n);
    ReaderIs(w, n);
    if StateOf(Reads(vals, n)) == Ready { AllReadPos(w, vals, n); }
    StepEffect(w, n, ctx, stats);
    StepPushKeeps(w, n, ctx, stats);
    StampedWatchful(w.reg, StepPush(w, n, ctx, stats).world.reg, n, StepTo(w, n, ctx), ctx.now);
    KiteStands(w, StepPush(w, n, ctx, stats).world);
    assert StepNext(w, n) == Next(vals, n);
    assert StepTo(w, n, ctx) == if Notifies(vals, n) then Accepted(w.reg, n, Reader(n), ctx) else [];
    assert StepExtra(w, n) == [];
    var o, to := StepPush(w, n, ctx, stats), StepTo(w, n, ctx);
    assert Pushes(to) + [] == Pushes(to);
    PushedIs(w, o, vals, n, ctx, to);
    hide StepPush, StepTo, StepNext, StepExtra;
  }

  lemma PushedIs(w: World, o: Outcome, vals: seq<T>, n: nat, ctx: Ctx, to: seq<Uid>)
    requires Kite(w) && Holds(w, vals) && 1 <= n <= 3 && Kite(o.world)
    requires Effect(w, n, ctx, o, Next(vals, n), to, []) && Pushes(to) + [] == Pushes(to)
    ensures Pushed(w, o, n, vals, to, ctx.now)
  {
    hide Coherent;
  }

  // ---- the gates --------------------------------------------------------------------------------

  lemma OneAccepted(reg: Registry, n: Uid, s: Uid, ctx: Ctx)
    requires ctx.auth == map[] && reg.ModeOf(s) == Eager
    ensures Accepted(reg, n, [s], ctx) == if reg.Open(n, s, ctx.now) then [s] else []
  {
    assert [s][..0] == [];
  }

  /** Stamping a pair closes its gate and no other's. */
  lemma StampShuts(reg: Registry, reg': Registry, n: Uid, to: seq<Uid>, now: ProductTime, a: Uid, b: Uid)
    requires reg'.meta == Stamped(reg.meta, n, to, now) && (a, b) in reg.meta
    ensures reg'.Open(a, b, now) <==> reg.Open(a, b, now) && !(a == n && b in to)
  {
    StampCloses(reg.meta, n, to, now);
    assert (a, b) in OpenPairs(reg'.meta, now) <==> (a, b) in OpenPairs(reg.meta, now) - PairsFrom(n, to);
    assert (a, b) in PairsFrom(n, to) <==> a == n && b in to;
  }

  // ---- four steps ---------------------------------------------------------------------------------

  /** The queue holds these values and items, and these gates are open. */
  ghost predicate At(q: Queue, now: ProductTime, vals: seq<T>, items: seq<WorkItem>, open13: bool, open21: bool) {
    && Kite(q.world) && Holds(q.world, vals) && q.items == items
    && q.world.reg.Open(1, 3, now) == open13 && q.world.reg.Open(2, 1, now) == open21
  }

  /** The gate between a node and its reader. */
  function Gate(n: nat, open13: bool, open21: bool): bool { if n == 1 then open13 else n == 2 && open21 }

  lemma KitePairs(w: World)
    requires Kite(w)
    ensures (1, 3) in w.reg.meta && (2, 1) in w.reg.meta
  {
    assert 3 in w.reg.SubsOf(1) && 1 in w.reg.SubsOf(2);
  }

  lemma KiteAccepts(w: World, n: nat, ctx: Ctx, open13: bool, open21: bool)
    requires Kite(w) && 1 <= n <= 3 && ctx.auth == map[]
    requires w.reg.Open(1, 3, ctx.now) == open13 && w.reg.Open(2, 1, ctx.now) == open21
    ensures Accepted(w.reg, n, Reader(n), ctx) == if Gate(n, open13, open21) then Reader(n) else []
  {
    OneAccepted(w.reg, 1, 3, ctx);
    OneAccepted(w.reg, 2, 1, ctx);
    hide Coherent;
  }

  lemma KiteStep(q: Queue, now: ProductTime, vals: seq<T>, n: nat, rest: seq<WorkItem>, open13: bool, open21: bool)
    requires At(q, now, vals, [Push(n)] + rest, open13, open21) && 1 <= n <= 3
    ensures q.world.Wf() && q.items != []
    ensures var to := if Notifies(vals, n) && Gate(n, open13, open21) then Reader(n) else [];
      At(DrainStep(q, now, map[], []), now, vals[n := Next(vals, n)], rest + Pushes(to),
         open13 && !(n == 1 && to != []), open21 && !(n == 2 && to != []))
  {
    var s0, ctx := q.stats.(maxDepth := Larger(q.stats.maxDepth, |q.items|)), Ctx(now, map[], q.demanded);
    assert q.items[0] == Push(n) && q.items[1..] == rest && !Handled(q.world, [], n);
    assert q.world.Wf();
    hide Kite, StepPush, Next, Notifies, Stamped, Holds, Gate, Reader;
    KitePushGates(q.world, vals, n, ctx, s0, open13, open21);
  }

  /** A push with the gates it leaves open. */
  lemma KitePushGates(w: World, vals: seq<T>, n: nat, ctx: Ctx, stats: Stats, open13: bool, open21: bool)
    requires Kite(w) && Holds(w, vals) && 1 <= n <= 3 && ctx.auth == map[] && w.Wf()
    requires w.reg.Open(1, 3, ctx.now) == open13 && w.reg.Open(2, 1, ctx.now) == open21
    ensures var o, to := StepPush(w, n, ctx, stats), if Notifies(vals, n) && Gate(n, open13, open21) then Reader(n) else [];
      && Kite(o.world) && Holds(o.world, vals[n := Next(vals, n)]) && o.work == Pushes(to)
      && o.world.reg.Open(1, 3, ctx.now) == (open13 && !(n == 1 && to != []))
      && o.world.reg.Open(2, 1, ctx.now) == (open21 && !(n == 2 && to != []))
  {
    var o, to := StepPush(w, n, ctx, stats), if Notifies(vals, n) && Gate(n, open13, open21) then Reader(n) else [];
    KitePush(w, vals, n, ctx, stats);
    KiteAccepts(w, n, ctx, open13, open21);
    KitePairs(w);
    hide Kite, StepPush, Next, Notifies, Stamped, Holds;
    StampShuts(w.reg, o.world.reg, n, to, ctx.now, 1, 3);
    StampShuts(w.reg, o.world.reg, n, to, ctx.now, 2, 1);
  }

  /** A drain that ends idle takes one step while there are items. */
  lemma IdleStep(q: Queue, now: ProductTime, budget: nat) returns (q': Queue, left: nat)
    requires q.world.Wf() && q.items != [] && Drain(q, now, map[], [], budget).Idle?
    ensures q' == DrainStep(q, now, map[], []) && q'.world.Wf()
    ensures Drain(q', now, map[], [], left) == Drain(q, now, map[], [], budget)
  {
    q', left := DrainStep(q, now, map[], []), budget - 1;
    DrainNext(q, q', now, map[], [], budget);
  }

  /** The values after pushing 1, 2, 3 and 1 again. */
  function Settled(vals: seq<T>): seq<T>
    requires |vals| == 4
  {
    var v1 := vals[1 := Next(vals, 1)];
    var v2 := v1[2 := Next(v1, 2)];
    var v3 := v2[3 := Next(v2, 3)];
    v3[1 := Next(v3, 1)]
  }

  /** When the first two pushes notify their readers, node 3 is pushed before node 1 settles, and not again. */
  lemma KiteDrains(q: Queue, now: ProductTime, vals: seq<T>, budget: nat)
    requires |vals| == 4 && At(q, now, vals, [Push(1), Push(2)], true, true) && q.world.Wf() && Drain(q, now, map[], [], budget).Idle?
    requires Notifies(vals, 1) && Notifies(vals[1 := Next(vals, 1)], 2)
    ensures Kite(Drain(q, now, map[], [], budget).q.world) && Holds(Drain(q, now, map[], [], budget).q.world, Settled(vals))
  {
    hide Kite, Holds, Next, Notifies, DrainStep, Drain;
    var v1 := vals[1 := Next(vals, 1)];
    var v2 := v1[2 := Next(v1, 2)];
    var v3 := v2[3 := Next(v2, 3)];
    assert [Push(1)] + [Push(2)] == [Push(1), Push(2)];
    KiteStep(q, now, vals, 1, [Push(2)], true, true);
    var q1, left1 := IdleStep(q, now, budget);
    assert [Push(2)] + Pushes([3]) == [Push(2)] + [Push(3)];
    KiteStep(q1, now, v1, 2, [Push(3)], false, true);
    var q2, left2 := IdleStep(q1, now, left1);
    assert [Push(3)] + Pushes([1]) == [Push(3)] + [Push(1)];
    KiteStep(q2, now, v2, 3, [Push(1)], false, false);
    var q3, left3 := IdleStep(q2, now, left2);
    assert [Push(1)] + Pushes([]) == [Push(1)] + [];
    KiteStep(q3, now, v3, 1, [], false, false);
    var q4, left4 := IdleStep(q3, now, left3);
    assert [] + Pushes([]) == [];
    DrainOver(q4, now, map[], [], left4);
  }

  // ---- the write ---------------------------------------------------------------------------------

  lemma WriteAccepts(w: World, ctx: Ctx, before: ProductTime)
    requires Kite(w) && ClockAhead(w.reg, before) && ctx == WriteCtx(before.Advance(Attribute))
    ensures Ascending(w.reg.SubsOf(0)) == [1, 2] && Accepted(w.reg, 0, [1, 2], ctx) == [1, 2]
  {
    AscendingTwo(1, 2);
    GateOpens(w.reg, before, 0, 1);
    GateOpens(w.reg, before, 0, 2);
    OneAccepted(w.reg, 0, 1, ctx);
    assert [1 as Uid, 2][..1] == [1];
    hide Coherent;
  }

  /** One attribute tick later every gate is open. */
  lemma GateOpens(reg: Registry, before: ProductTime, a: Uid, b: Uid)
    requires Watchful(reg) && ClockAhead(reg, before)
    ensures reg.Open(a, b, before.Advance(Attribute))
  {}

  lemma KiteIsWf(w: World)
    requires Kite(w)
    ensures Coherent(w) && w.Wf() && 0 in w.nodes
  {}

  lemma WriteParts(w: World, v: T, now: ProductTime)
    requires w.Wf() && 0 in w.nodes && v != w.nodes[0].value
    ensures var w', to := WriteWorld(w, 0, v, now), Accepted(w.reg, 0, Ascending(w.reg.SubsOf(0)), WriteCtx(now));
      && w'.nodes == w.nodes[0 := w.nodes[0].SetValue(v)] && w'.reg.meta == Stamped(w.reg.meta, 0, to, now)
      && WriteItems(w, 0, v, now) == Pushes(to) + []
  {
    WriteEffect(w, 0, v, now);
    hide WriteWorld, WriteItems, Accepted, Stamped, Ascending;
  }

  /** The write itself: value, stamps and pushes. */
  lemma WrittenIs(w: World, v: T, before: ProductTime)
    requires Kite(w) && v != w.nodes[0].value && ClockAhead(w.reg, before)
    ensures var now := before.Advance(Attribute);
      var w' := WriteWorld(w, 0, v, now);
      && w'.nodes == w.nodes[0 := w.nodes[0].SetValue(v)] && w'.reg.meta == Stamped(w.reg.meta, 0, [1, 2], now)
      && WriteItems(w, 0, v, now) == [Push(1), Push(2)]
  {
    var now := before.Advance(Attribute);
    hide *;
    KiteIsWf(w);
    WriteAccepts(w, WriteCtx(now), before);
    WriteParts(w, v, now);
    assert Pushes([1, 2]) + [] == [Push(1), Push(2)];
  }

  lemma WrittenKite(w: World, vals: seq<T>, v: T, before: ProductTime)
    requires Kite(w) && Holds(w, vals) && v != vals[0] && ClockAhead(w.reg, before)
    ensures var w' := WriteWorld(w, 0, v, before.Advance(Attribute));
      Kite(w') && Holds(w', vals[0 := v])
  {
    var now := before.Advance(Attribute);
    var w' := WriteWorld(w, 0, v, now);
    WrittenHolds(w, w', vals, v);
    hide *;
    KiteIsWf(w);
    KiteIsWatchful(w);
    WrittenIs(w, v, before);
    WriteKeeps(w, 0, v, now);
    StampedWatchful(w.reg, w'.reg, 0, [1, 2], now);
    KiteStands(w, w');
  }

  lemma KiteIsWatchful(w: World)
    requires Kite(w)
    ensures Watchful(w.reg)
  {}

  lemma WrittenHolds(w: World, w': World, vals: seq<T>, v: T)
    requires Holds(w, vals)
    ensures w'.nodes == w.nodes[0 := w.nodes[0].SetValue(v)] ==> Holds(w', vals[0 := v])
  {}

  lemma WriteStartsKite(w: World, vals: seq<T>, v: T, before: ProductTime, stats: Stats)
    requires Kite(w) && Holds(w, vals) && v != vals[0] && ClockAhead(w.reg, before)
    ensures At(WriteQueue(w, 0, v, before.Advance(Attribute), stats), before.Advance(Attribute), vals[0 := v], [Push(1), Push(2)], true, true)
  {
    var now := before.Advance(Attribute);
    var w' := WriteWorld(w, 0, v, now);
    WrittenIs(w, v, before);
    WrittenKite(w, vals, v, before);
    GateOpens(w.reg, before, 1, 3);
    GateOpens(w.reg, before, 2, 1);
    KitePairs(w);
    StampShuts(w.reg, w'.reg, 0, [1, 2], now, 1, 3);
    StampShuts(w.reg, w'.reg, 0, [1, 2], now, 2, 1);
    hide Kite, WriteWorld, WriteItems, Stamped, Holds, ClockAhead;
  }

  /** A write to the source, through `apply`, leaves the values that four pushes give. */
  lemma KiteWritten(e: EngineState, vals: seq<T>, v: T)
    requires AtRest(e) && Kite(e.world) && Holds(e.world, vals) && v != vals[0]
    requires Notifies(vals[0 := v], 1)
    requires var v0 := vals[0 := v]; Notifies(v0[1 := Next(v0, 1)], 2)
    ensures var r := Call(e, SetValue(0, v), QUIET);
      r.Done? && AtRest(r.e) && Kite(r.e.world) && Holds(r.e.world, Settled(vals[0 := v]))
  {
    var now := e.now.Advance(Attribute);
    WriteStartsKite(e.world, vals, v, e.now, e.stats);
    WriteIsOneDrain(e, 0, v, QUIET);
    KiteDrains(WriteQueue(e.world, 0, v, now, e.stats), now, vals[0 := v], e.maxSteps);
    hide Kite, Holds, AtRest, Call, Settled, Notifies, Drain, WriteQueue;
  }

  const ALL_NEG: seq<T> := [Neg, Neg, Neg, Neg]
  const ALL_ZERO: seq<T> := [Zero, Zero, Zero, Zero]

  lemma ZeroSettles()
    ensures var v0 := ALL_NEG[0 := Zero];
      Notifies(v0, 1) && Notifies(v0[1 := Next(v0, 1)], 2) && Settled(v0) == ALL_ZERO
  {
    assert [Zero, Neg][0] == Zero;
    var v0 := ALL_NEG[0 := Zero];
    var v1 := v0[1 := Next(v0, 1)];
    assert Reads(v0, 1) == [Zero, Neg] && v1 == [Zero, Zero, Neg, Neg];
    assert Reads(v1, 2) == [Zero] && [Zero][0] == Zero;
    var v2 := v1[2 := Next(v1, 2)];
    assert v2 == [Zero, Zero, Zero, Neg] && Reads(v2, 3) == [Zero];
    var v3 := v2[3 := Next(v2, 3)];
    assert v3 == ALL_ZERO && Reads(v3, 1) == [Zero, Zero] && [Zero, Zero][0] == Zero;
  }

  lemma PosSettles()
    ensures var v0 := ALL_ZERO[0 := Pos];
      Notifies(v0, 1) && Notifies(v0[1 := Next(v0, 1)], 2) && Settled(v0) == [Pos, Pos, Pos, Zero]
  {
    var v0 := ALL_ZERO[0 := Pos];
    assert Reads(v0, 1) == [Pos, Zero] && [Pos, Zero][1] == Zero;
    var v1 := v0[1 := Next(v0, 1)];
    assert v1 == [Pos, Zero, Zero, Zero] && Reads(v1, 2) == [Pos];
    var v2 := v1[2 := Next(v1, 2)];
    assert v2 == [Pos, Zero, Pos, Zero] && Reads(v2, 3) == [Zero] && [Zero][0] == Zero;
    var v3 := v2[3 := Next(v2, 3)];
    assert v3 == v2 && Reads(v3, 1) == [Pos, Pos];
  }

  lemma KiteConsistent(w: World, vals: seq<T>, n: nat)
    requires Kite(w) && Holds(w, vals) && 1 <= n <= 3
    ensures Consistent(w, n) <==> vals[n] == Next(vals, n)
  {
    KiteReads(w, vals, n);
    if StateOf(Reads(vals, n)) == Ready { AllReadPos(w, vals, n); }
    hide Coherent;
  }

  /** Every equation of the kite holds, the engine is at rest, every node is Eager: after Pos is written to
      the source the other three follow but node 3, whose equation no longer holds. Node 1 was pushed
      twice, over the short path and over the long one, and passed on the Zero it had meanwhile. */
  lemma UnevenPathsGoStale(e: EngineState)
    requires AtRest(e) && Kite(e.world) && Holds(e.world, ALL_ZERO)
    ensures forall n :: 1 <= n <= 3 ==> Consistent(e.world, n)
    ensures var r := Call(e, SetValue(0, Pos), QUIET);
      r.Done? && AtRest(r.e) && Kite(r.e.world) && Holds(r.e.world, [Pos, Pos, Pos, Zero]) && !Consistent(r.e.world, 3)
  {
    PosSettles();
    KiteWritten(e, ALL_ZERO, Pos);
    var r := Call(e, SetValue(0, Pos), QUIET);
    hide AtRest, Call, Settled;
    ZerosConsistent(e.world);
    KiteConsistent(r.e.world, [Pos, Pos, Pos, Zero], 3);
    assert Reads([Pos, Pos, Pos, Zero], 3) == [Pos];
  }

  lemma ZerosConsistent(w: World)
    requires Kite(w) && Holds(w, ALL_ZERO)
    ensures forall n :: 1 <= n <= 3 ==> Consistent(w, n)
  {
    forall n | 1 <= n <= 3 ensures Consistent(w, n) {
      assert Reads(ALL_ZERO, n)[0] == Zero;
      KiteConsistent(w, ALL_ZERO, n);
    }
  }

  // ---- the kite is reached -------------------------------------------------------------------------

  /** The four nodes. */
  lemma NodesWorld(w1: World, w2: World, w3: World, w4: World)
    requires w1 == Added(EMPTY_ENGINE.world, Create(0, Input))
    requires w1.store.Shaped() && w2 == Added(w1, Create(1, Computed(BochvarFold)))
    requires w2.store.Shaped() && w3 == Added(w2, Create(2, Computed(Rules.Identity)))
    requires w3.store.Shaped() && w4 == Added(w3, Create(3, Computed(Rules.Identity)))
    ensures w4.nodes == map[0 := Node(Input, Neg, 0), 1 := Node(Computed(BochvarFold), Neg, 0),
                            2 := Node(Computed(Rules.Identity), Neg, 0), 3 := Node(Computed(Rules.Identity), Neg, 0)]
    ensures w4.store.idx == map[0 := 0, 1 := 1, 2 := 2, 3 := 3]
    ensures w4.reg == EMPTY_REGISTRY.(modes := map[0 := Eager, 1 := Eager, 2 := Eager, 3 := Eager])
  {}

  lemma LinkIs(w: World, src: Uid, tgt: Uid)
    requires w.store.Shaped() && src in w.store.idx
    ensures var w' := Link(w, src, tgt);
      && w'.nodes == w.nodes && w'.store == w.store && w'.reg.modes == w.reg.modes
      && w'.reg.subs == w.reg.subs[src := w.reg.SubsOf(src) + {tgt}]
      && w'.reg.orderedIdx == w.reg.orderedIdx[tgt := w.reg.OrderedIdxOf(tgt) + [w.store.idx[src]]]
      && w'.reg.meta == w.reg.meta[(src, tgt) := DEFAULT_META]
  {}

  /** The links of the kite between four fresh nodes. */
  lemma LinksWorld(w4: World, w5: World, w6: World, w7: World, w8: World)
    requires w4.reg == EMPTY_REGISTRY.(modes := map[0 := Eager, 1 := Eager, 2 := Eager, 3 := Eager])
    requires w4.store.idx == map[0 := 0, 1 := 1, 2 := 2, 3 := 3]
    requires w4.store.Shaped() && w5 == Link(w4, 0, 1)
    requires w5.store.Shaped() && w6 == Link(w5, 0, 2)
    requires w6.store.Shaped() && w7 == Link(w6, 2, 1)
    requires w7.store.Shaped() && w8 == Link(w7, 1, 3)
    ensures w8.nodes == w4.nodes && w8.store == w4.store && w8.reg.modes == w4.reg.modes
    ensures w8.reg.SubsOf(0) == {1, 2} && w8.reg.SubsOf(1) == {3} && w8.reg.SubsOf(2) == {1} && w8.reg.SubsOf(3) == {}
    ensures w8.reg.OrderedIdxOf(1) == [0, 2] && w8.reg.OrderedIdxOf(2) == [0] && w8.reg.OrderedIdxOf(3) == [1]
    ensures Watchful(w8.reg) && |w8.reg.meta| <= 4
  {
    LinkIs(w4, 0, 1);
    LinkIs(w5, 0, 2);
    LinkIs(w6, 2, 1);
    LinkIs(w7, 1, 3);
    hide Link;
    hide Watchful;
    Links(w4.reg, w5.reg, w6.reg, w7.reg, w8.reg);
    LinksMeta(w4.reg, w5.reg, w6.reg, w7.reg, w8.reg);
  }

  /** The registry over the four links. */
  lemma Links(r4: Registry, r5: Registry, r6: Registry, r7: Registry, r8: Registry)
    requires r4.subs == map[] && r4.orderedIdx == map[] && r4.meta == map[]
    requires r5.subs == r4.subs[0 := r4.SubsOf(0) + {1}] && r5.orderedIdx == r4.orderedIdx[1 := r4.OrderedIdxOf(1) + [0]]
    requires r6.subs == r5.subs[0 := r5.SubsOf(0) + {2}] && r6.orderedIdx == r5.orderedIdx[2 := r5.OrderedIdxOf(2) + [0]]
    requires r7.subs == r6.subs[2 := r6.SubsOf(2) + {1}] && r7.orderedIdx == r6.orderedIdx[1 := r6.OrderedIdxOf(1) + [2]]
    requires r8.subs == r7.subs[1 := r7.SubsOf(1) + {3}] && r8.orderedIdx == r7.orderedIdx[3 := r7.OrderedIdxOf(3) + [1]]
    ensures r8.SubsOf(0) == {1, 2} && r8.SubsOf(1) == {3} && r8.SubsOf(2) == {1} && r8.SubsOf(3) == {}
    ensures r8.OrderedIdxOf(1) == [0, 2] && r8.OrderedIdxOf(2) == [0] && r8.OrderedIdxOf(3) == [1]
  {
    assert r6.OrderedIdxOf(1) == [0] && r6.OrderedIdxOf(2) == [0];
  }

  lemma LinksMeta(r4: Registry, r5: Registry, r6: Registry, r7: Registry, r8: Registry)
    requires r4.meta == map[]
    requires r5.meta == r4.meta[(0, 1) := DEFAULT_META] && r6.meta == r5.meta[(0, 2) := DEFAULT_META]
    requires r7.meta == r6.meta[(2, 1) := DEFAULT_META] && r8.meta == r7.meta[(1, 3) := DEFAULT_META]
    ensures Watchful(r8) && |r8.meta| <= 4
  {
    assert r8.meta.Keys == {(0, 1), (0, 2), (2, 1), (1, 3)};
    assert |r8.meta| == |r8.meta.Keys|;
  }

  // ---- from the empty engine ------------------------------------------------------------------------

  /** A plain run so far, with these edges and dependencies. */
  ghost predicate Plainly(e: EngineState) { Building(e) && Reachable(e) && PlainInv(e) }

  lemma PlainNode(e: EngineState, id: Uid, kind: NodeKind) returns (e': EngineState)
    requires Plainly(e) && id !in e.world.store.idx
    ensures e.world.store.Shaped() && Plainly(e') && e'.world == Added(e.world, Create(id, kind)) && e'.edges == e.edges
    ensures e'.world.store.idx.Keys == e.world.store.idx.Keys + {id}
  {
    BuildingShaped(e);
    assert Plain(e, Create(id, kind), QUIET);
    hide Building, Reachable, PlainInv, Plain;
    e' := AddStep(e, Create(id, kind));
  }

  lemma PlainEdge(e: EngineState, id: Uid, src: Uid, tgt: Uid) returns (e': EngineState)
    requires Plainly(e) && src in e.world.nodes && tgt in e.world.nodes && id !in e.edges && !HasEdge(e.edges, src, tgt)
    ensures e.world.store.Shaped() && Plainly(e') && e'.world == Link(e.world, src, tgt)
    ensures e'.edges == e.edges[id := Edge(src, tgt, false)]
  {
    BuildingShaped(e);
    assert src !in e.world.reg.DepsOf(tgt);
    assert Plain(e, Wire(id, src, tgt), QUIET);
    hide Building, Reachable, PlainInv, Plain, Link;
    e' := AddStep(e, Wire(id, src, tgt));
  }

  lemma NodesBuilt() returns (e: EngineState)
    ensures Plainly(e) && e.edges == map[]
    ensures e.world.nodes == map[0 := Node(Input, Neg, 0), 1 := Node(Computed(BochvarFold), Neg, 0),
                                 2 := Node(Computed(Rules.Identity), Neg, 0), 3 := Node(Computed(Rules.Identity), Neg, 0)]
    ensures e.world.store.idx == map[0 := 0, 1 := 1, 2 := 2, 3 := 3]
    ensures e.world.reg == EMPTY_REGISTRY.(modes := map[0 := Eager, 1 := Eager, 2 := Eager, 3 := Eager])
  {
    hide *;
    EmptyPlainly();
    var e1 := PlainNode(EMPTY_ENGINE, 0, Input);
    var e2 := PlainNode(e1, 1, Computed(BochvarFold));
    var e3 := PlainNode(e2, 2, Computed(Rules.Identity));
    e := PlainNode(e3, 3, Computed(Rules.Identity));
    NodesWorld(e1.world, e2.world, e3.world, e.world);
  }

  lemma EmptyPlainly()
    ensures Plainly(EMPTY_ENGINE) && EMPTY_ENGINE.world.store.idx == map[] && EMPTY_ENGINE.edges == map[]
  {
    EmptyBuilding();
    EmptyReachable();
    EmptyPlain();
    hide Building, Reachable, PlainInv;
  }

  lemma KiteBuilt() returns (e: EngineState)
    ensures Plainly(e) && Kite(e.world) && Holds(e.world, ALL_NEG) && |e.world.reg.meta| <= 4
  {
    hide Building, Reachable, PlainInv, Plainly, Link, Kite, Holds, Coherent, Watchful;
    var e4 := NodesBuilt();
    var e5 := PlainEdge(e4, 10, 0, 1);
    LinkIs(e4.world, 0, 1);
    var e6 := PlainEdge(e5, 11, 0, 2);
    LinkIs(e5.world, 0, 2);
    var e7 := PlainEdge(e6, 12, 2, 1);
    LinkIs(e6.world, 2, 1);
    e := PlainEdge(e7, 13, 1, 3);
    LinksWorld(e4.world, e5.world, e6.world, e7.world, e.world);
    PlainCoherent(e);
    LinkedKite(e.world);
  }

  lemma LinkedKite(w: World)
    requires Coherent(w) && Watchful(w.reg) && w.store.idx == map[0 := 0, 1 := 1, 2 := 2, 3 := 3]
    requires w.nodes == map[0 := Node(Input, Neg, 0), 1 := Node(Computed(BochvarFold), Neg, 0),
                            2 := Node(Computed(Rules.Identity), Neg, 0), 3 := Node(Computed(Rules.Identity), Neg, 0)]
    requires w.reg.SubsOf(0) == {1, 2} && w.reg.SubsOf(1) == {3} && w.reg.SubsOf(2) == {1} && w.reg.SubsOf(3) == {}
    requires w.reg.OrderedIdxOf(1) == [0, 2] && w.reg.OrderedIdxOf(2) == [0] && w.reg.OrderedIdxOf(3) == [1]
    requires w.reg.modes == map[0 := Eager, 1 := Eager, 2 := Eager, 3 := Eager]
    ensures Kite(w) && Holds(w, ALL_NEG)
  {
    hide Coherent, Watchful;
  }

  lemma PlainCoherent(e: EngineState)
    requires Plainly(e)
    ensures Coherent(e.world)
  {}

  /** The kite with every value Zero is reached: build it with edges alone, and write Zero to its source.
      It is wired and at rest, so the write of Pos meets every hypothesis of local consistency but unique paths. */
  lemma StaleKiteReached() returns (e: EngineState)
    ensures Reachable(e) && AtRest(e) && Wired(e.world) && Kite(e.world) && Holds(e.world, ALL_ZERO)
  {
    hide Kite, Holds, Wired;
    var e0 := KiteBuilt();
    KiteRests(e0);
    ZeroSettles();
    KiteWritten(e0, ALL_NEG, Zero);
    hide *;
    e := KiteZeroed(e0);
  }

  lemma KiteRests(e: EngineState)
    requires Plainly(e) && |e.world.reg.meta| <= 4
    ensures AtRest(e) && Reachable(e) && PlainInv(e) && e.cache == NO_ARTIFACTS
  {
    hide Inv, Reachable, Wired;
  }

  lemma KiteZeroed(e0: EngineState) returns (e: EngineState)
    requires Inv(e0) && Reachable(e0) && PlainInv(e0) && e0.cache == NO_ARTIFACTS
    requires var r := Call(e0, SetValue(0, Zero), QUIET); AtRest(r.e) && Kite(r.e.world) && Holds(r.e.world, ALL_ZERO)
    ensures Reachable(e) && AtRest(e) && Wired(e.world) && Kite(e.world) && Holds(e.world, ALL_ZERO)
  {
    e := Call(e0, SetValue(0, Zero), QUIET).e;
    WriteIsStep(e0, 0, Zero);
    assert Plain(e0, SetValue(0, Zero), QUIET);
    hide Call, Step, Reachable, AtRest, Kite, Holds, Wired, Plain;
    ReachableNext(e0, SetValue(0, Zero), QUIET, e);
    PlainStep(e0, SetValue(0, Zero), QUIET, e);
  }
}
