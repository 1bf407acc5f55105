/** Compiled regions through `Engine::apply`: a written boundary input, the run of the region it marks
    dirty and the warm drain behind it leave every row of the region evaluated. */
module EngineRegions {
  import opened Base
  import opened Bits
  import opened Ternary
  import opened Rules
  import opened Time
  import opened Isa
  import opened ValueStores
  import opened Deps
  import opened Propagation
  import opened StepFacts
  import opened Draining
  import opened Coherence
  import opened Regions
  import opened RegionCompile
  import opened RegionRun
  import opened Writes
  import opened EngineModel
  import opened EngineValues
  import opened EngineInvariant
  import opened EngineRuns

  // ---- a region in service -----------------------------------------------------------------

  /** Some row reads or writes the slot. */
  ghost predicate Touches(r: Region, c: nat)
    requires r.Shaped()
  {
    c in r.outputs || exists i :: 0 <= i < r.Rows() && c in r.Deps(i)
  }

  /** The slots of the region belong to its members and to nodes without a rule. */
  ghost predicate Sealed(w: World, r: Region)
    requires r.Shaped()
  {
    forall n :: n in w.nodes && n in w.store.idx && Touches(r, w.store.idx[n]) ==> n in r.members || w.nodes[n].kind.Input?
  }

  /** No other artifact writes a slot of the region. */
  ghost predicate Alone(regions: map<Uid, Region>, root: Uid)
    requires root in regions && regions[root].Shaped()
  {
    forall other, c :: other in regions && other != root && c in regions[other].outputs ==> !Touches(regions[root], c)
  }

  /** The cached region at root as `compile_region` and `insert` leave it, its rows evaluated; the
      engine holds no stabilisation request and no Stabilizing node. Other artifacts, queued pushes
      and demands, and leftover dirty or handled bits are allowed. */
  ghost predicate InService(e: EngineState, root: Uid) {
    && Inv(e) && NoneStabilizing(e.world.reg) && NoStabilizeItems(e.items) && root in e.cache.regions
    && var r := e.cache.regions[root];
       && r.Valid(|e.world.store.cache|) && InputsExact(r) && (forall c :: c in r.inputs ==> root in e.cache.RootsOf(c))
       && Sealed(e.world, r) && Alone(e.cache.regions, root) && AllSatisfied(r, e.world.store.cache, r.Rows())
  }

  /** The slots of the region that no row drives hold in c1 what they hold in c0. */
  ghost predicate SameBoundary(r: Region, c0: seq<T>, c1: seq<T>)
    requires r.Shaped()
  {
    |c0| == |c1| && forall d :: 0 <= d < |c0| && Touches(r, d) && !Driven(r, d, r.Rows()) ==> c1[d] == c0[d]
  }

  ghost predicate SatisfiedOrDirty(r: Region, cache: seq<T>, dirty: seq<Word>)
    requires r.Shaped() && r.Fits(|cache|)
  {
    forall j :: 0 <= j < r.Rows() ==> Satisfied(r, j, cache) || RowDirty(r, j, dirty)
  }

  ghost predicate MembersHandled(e: EngineState, r: Region) { forall n :: n in r.members ==> Handled(e.world, e.handled, n) }

  // ---- what a region's run leaves of the rest ----------------------------------------------

  lemma {:induction false} RedirtiedGrows(dirty: seq<Word>, r: Region, c0: seq<T>, c1: seq<T>, i: nat, d: nat)
    requires r.Shaped() && r.Fits(|c0|) && |c1| == |c0| && i <= r.Rows() && Test(dirty, d)
    ensures Test(Redirtied(dirty, r, c0, c1, i), d)
    decreases i
  {
    if i > 0 {
      var before, out := Redirtied(dirty, r, c0, c1, i - 1), r.outputs[i - 1];
      RedirtiedGrows(dirty, r, c0, c1, i - 1, d);
      if out / WORD < |before| { TestSet(before, out, d); }
    }
  }

  lemma {:induction false} MarkHandledSets(handled: seq<Word>, idx: map<Uid, nat>, members: seq<Uid>, n: Uid)
    requires n in idx && idx[n] / WORD < |handled| && (n in members || Test(handled, idx[n]))
    ensures Test(MarkHandled(handled, idx, members), idx[n])
    decreases |members|
  {
    if members != [] {
      var front, last := members[..|members| - 1], members[|members| - 1];
      var before := MarkHandled(handled, idx, front);
      MarkHandledLength(handled, idx, front);
      assert members == front + [last];
      if n in front || Test(handled, idx[n]) { MarkHandledSets(handled, idx, front, n); }
      if last in idx && idx[last] / WORD < |before| { TestSet(before, idx[last], idx[n]); }
    }
  }

  /** No stabilisation is asked for or queued. */
  ghost predicate Quiet(e: EngineState) { Unasked(e.events) && NoStabilizeItems(e.items) }

  lemma NotifiedQuiet(e: EngineState, node: Uid, subs: seq<Uid>, prior: T, next: T)
    requires Quiet(e)
    ensures Quiet(Notified(e, node, subs, prior, next))
  {
    BumpAndPushItems(Acc(e.world.reg, [], [], NO_STATS), node, subs, prior, next, WriteCtx(e.now));
    hide BumpAndPush;
  }

  lemma {:induction false} SyncQuiet(e: EngineState, members: seq<Uid>, changed: seq<(Uid, T, T)>)
    requires Quiet(e)
    ensures var out := SyncChanges(e, members, changed);
      Quiet(out) && out.dirtySlots == e.dirtySlots && out.handled == e.handled
    decreases |changed|
  {
    if changed != [] {
      var before, change := SyncChanges(e, members, changed[..|changed| - 1]), changed[|changed| - 1];
      SyncQuiet(e, members, changed[..|changed| - 1]);
      var written := SyncWrite(before, change.0, change.1, change.2);
      NotifiedQuiet(written, change.0, OutsideOf(Ascending(written.world.reg.SubsOf(change.0)), members), change.1, change.2);
      hide BumpAndPush;
    }
  }

  /** The slots, bits and queues after a region's run. */
  lemma RunRegionIs(e: EngineState, root: Uid)
    requires Inv(e) && Quiet(e) && root in e.cache.regions
    ensures CacheRunnable(e) && var r, out := e.cache.regions[root], RunRegion(e, root);
      && Kept(e, out) && Quiet(out) && out.cache == e.cache
      && out.world.store.cache == IncEval(r, e.world.store.cache, e.dirtySlots)
      && out.dirtySlots == Redirtied(e.dirtySlots, r, e.world.store.cache, out.world.store.cache, r.Rows())
      && out.handled == MarkHandled(e.handled, e.world.store.idx, r.members)
  {
    InvReady(e);
    var r := e.cache.regions[root];
    RunRegionInv(e, root);
    SyncKeeps(Ran(e, r), r.members, ChangedBy(e, r));
    SyncQuiet(Ran(e, r), r.members, ChangedBy(e, r));
    hide Inv, Moved, SyncChanges, IncEval, Changes;
  }

  // ---- the dirty regions, in any order -----------------------------------------------------

  /** Every slot of the region holds the same in both. */
  ghost predicate SameSlots(r: Region, c0: seq<T>, c1: seq<T>)
    requires r.Shaped()
  {
    |c0| == |c1| && forall d :: 0 <= d < |c0| && Touches(r, d) ==> c1[d] == c0[d]
  }

  /** Whether a row is satisfied is decided by the region's slots. */
  lemma SlotsDecideRows(r: Region, c0: seq<T>, c1: seq<T>)
    requires r.Shaped() && r.Fits(|c0|) && SameSlots(r, c0, c1)
    ensures forall j :: 0 <= j < r.Rows() ==> (Satisfied(r, j, c1) <==> Satisfied(r, j, c0))
  {
    forall j | 0 <= j < r.Rows() ensures Satisfied(r, j, c1) <==> Satisfied(r, j, c0) {
      forall c | c in r.Deps(j) ensures c0[c] == c1[c] { assert Touches(r, c); }
      RowValueFrame(r, j, c0, c1);
      assert Touches(r, r.outputs[j]);
    }
  }

  /** The rows while dirty regions run on a cache that was c0: the undriven slots stand, a row that is
      not satisfied reads a dirty slot, and none is left once the region itself has run. */
  ghost predicate RowsAt(r: Region, c0: seq<T>, c: seq<T>, dirty: seq<Word>, ran: bool) {
    && r.Valid(|c0|) && SameBoundary(r, c0, c) && SatisfiedOrDirty(r, c, dirty)
    && (ran ==> AllSatisfied(r, c, r.Rows()))
  }

  lemma OwnRows(r: Region, c0: seq<T>, c: seq<T>, dirty: seq<Word>, ran: bool, dirty': seq<Word>)
    requires RowsAt(r, c0, c, dirty, ran)
    ensures RowsAt(r, c0, IncEval(r, c, dirty), dirty', true)
  {
    IncrementalIsFull(r, c, dirty);
    FullEvalSatisfies(r, c);
    hide IncEval, FullEval, Satisfied;
  }

  lemma OtherRows(r: Region, r': Region, c0: seq<T>, c: seq<T>, dirty: seq<Word>, ran: bool)
    requires RowsAt(r, c0, c, dirty, ran) && r'.Runnable(|c|) && forall d :: d in r'.outputs ==> !Touches(r, d)
    ensures var c' := IncEval(r', c, dirty); RowsAt(r, c0, c', Redirtied(dirty, r', c, c', r'.Rows()), ran)
  {
    var c' := IncEval(r', c, dirty);
    IncRowsFrame(r', c, dirty, r'.Rows());
    hide IncEval;
    OtherSlots(r, r', c, c');
    SlotsDecideRows(r, c, c');
    hide Satisfied, Redirtied, Touches;
    forall j | 0 <= j < r.Rows() ensures Satisfied(r, j, c') || RowDirty(r, j, Redirtied(dirty, r', c, c', r'.Rows())) {
      if !Satisfied(r, j, c') {
        var d :| d in r.Deps(j) && Test(dirty, d);
        RedirtiedGrows(dirty, r', c, c', r'.Rows(), d);
      }
    }
  }

  lemma OtherSlots(r: Region, r': Region, c: seq<T>, c': seq<T>)
    requires r.Shaped() && r'.Shaped() && |c'| == |c| && KeepsUndriven(r', c, c', r'.Rows())
    requires forall d :: d in r'.outputs ==> !Touches(r, d)
    ensures SameSlots(r, c, c')
  {
    hide Touches;
    forall d | 0 <= d < |c| && Touches(r, d) ensures c'[d] == c[d] { assert !Driven(r', d, r'.Rows()); }
  }

  /** The engine moved on from e0 by region runs alone. */
  ghost predicate Running(e0: EngineState, e: EngineState) { Kept(e0, e) && e.cache == e0.cache && Quiet(e) }

  /** Part of the dirty roots have run since e0; `ran` says whether the region at root is among them. */
  ghost predicate RanTo(e0: EngineState, e: EngineState, root: Uid, ran: bool) {
    && Running(e0, e) && root in e0.cache.regions
    && var r := e0.cache.regions[root];
       RowsAt(r, e0.world.store.cache, e.world.store.cache, e.dirtySlots, ran) && (ran ==> MembersHandled(e, r))
  }

  lemma OwnMembersHandled(e: EngineState, out: EngineState, r: Region)
    requires Inv(e) && Placed(e.world, r) && out.world.store.idx == e.world.store.idx
    requires out.handled == MarkHandled(e.handled, e.world.store.idx, r.members)
    ensures MembersHandled(out, r)
  {
    forall n | n in r.members ensures Handled(out.world, out.handled, n) {
      var i :| 0 <= i < r.Rows() && r.members[i] == n;
      MarkHandledSets(e.handled, e.world.store.idx, r.members, n);
    }
  }

  lemma OthersHandled(e: EngineState, out: EngineState, r: Region, members: seq<Uid>)
    requires MembersHandled(e, r) && out.world.store.idx == e.world.store.idx
    requires out.handled == MarkHandled(e.handled, e.world.store.idx, members)
    ensures MembersHandled(out, r)
  {
    forall n | n in r.members ensures Handled(out.world, out.handled, n) {
      MarkHandledSets(e.handled, e.world.store.idx, members, n);
    }
  }

  lemma RunningNext(e0: EngineState, e: EngineState, root: Uid)
    requires Running(e0, e) && root in e.cache.regions
    ensures CacheRunnable(e) && Running(e0, RunRegion(e, root)) && Placed(e.world, e.cache.regions[root])
    ensures RunRegion(e, root).world.store.idx == e.world.store.idx
  {
    RunRegionIs(e, root);
    assert Inv(e);
    var out := RunRegion(e, root);
    assert Kept(e, out) && out.world.store.idx == e.world.store.idx;
    hide RunRegion, Kept, Quiet;
    KeptTransitive(e0, e, out);
  }

  /** The region's own run satisfies its rows and marks its members handled. */
  lemma RunOwn(e0: EngineState, e: EngineState, root: Uid, ran: bool)
    requires RanTo(e0, e, root, ran)
    ensures CacheRunnable(e) && RanTo(e0, RunRegion(e, root), root, true)
  {
    var r := e0.cache.regions[root];
    assert Inv(e);
    RunningNext(e0, e, root);
    RunRegionIs(e, root);
    var out := RunRegion(e, root);
    OwnMembersHandled(e, out, r);
    OwnRows(r, e0.world.store.cache, e.world.store.cache, e.dirtySlots, ran, out.dirtySlots);
    hide Running, Kept, Inv, Moved, RunRegion, RowsAt, MembersHandled;
  }

  /** Another region's run leaves the region's slots, and no dirty or handled bit goes away. */
  lemma RunOther(e0: EngineState, e: EngineState, root: Uid, other: Uid, ran: bool)
    requires RanTo(e0, e, root, ran) && Alone(e0.cache.regions, root) && other != root && other in e.cache.regions
    ensures CacheRunnable(e) && RanTo(e0, RunRegion(e, other), root, ran)
  {
    var r, r' := e0.cache.regions[root], e0.cache.regions[other];
    assert Inv(e);
    RunningNext(e0, e, other);
    RunRegionIs(e, other);
    var out := RunRegion(e, other);
    if ran { OthersHandled(e, out, r, r'.members); }
    OtherRows(r, r', e0.world.store.cache, e.world.store.cache, e.dirtySlots, ran);
    hide Running, Kept, Inv, Moved, RunRegion, RowsAt, MembersHandled;
  }

  lemma {:induction false} RunAll(e: EngineState, root: Uid, roots: seq<Uid>)
    requires RanTo(e, e, root, false) && Alone(e.cache.regions, root)
    ensures e.world.Wf() && CacheRunnable(e) && RanTo(e, RunRegions(e, roots), root, root in roots)
    decreases |roots|
  {
    InvReady(e);
    if roots != [] {
      var front, last := roots[..|roots| - 1], roots[|roots| - 1];
      var before := RunRegions(e, front);
      RunAll(e, root, front);
      assert before.cache == e.cache;
      assert roots == front + [last];
      assert RunRegions(e, roots) == RunRegion(before, last);
      if last !in before.cache.regions { assert RunRegion(before, last) == before; }
      hide RanTo, Alone, RunRegion, RunRegions, Inv, Moved;
      if last == root {
        RunOwn(e, before, root, root in front);
      } else if last in before.cache.regions {
        RunOther(e, before, root, last, root in front);
      }
    }
  }

  // ---- the drain behind it ---------------------------------------------------------------------

  /** A push of a node whose slot is not the region's leaves the region's slots. */
  lemma PushSlots(w: World, r: Region, n: Uid, ctx: Ctx, stats: Stats)
    requires Coherent(w) && r.Shaped()
    requires n in w.nodes && w.nodes[n].kind.Computed? ==> !Touches(r, w.store.idx[n])
    ensures SameSlots(r, w.store.cache, StepPush(w, n, ctx, stats).world.store.cache)
  {
    if n in w.nodes && w.nodes[n].kind.Computed? {
      StepEffect(w, n, ctx, stats);
      hide StepPush, Touches, StepTo, StepExtra;
    } else {
      hide Touches;
    }
  }

  /** Members are handled, and no other node with a rule has a slot of the region. */
  ghost predicate Shielded(w: World, r: Region, handled: seq<Word>)
    requires r.Shaped()
  {
    forall n :: n in w.nodes && n in w.store.idx && Touches(r, w.store.idx[n]) ==> Handled(w, handled, n) || w.nodes[n].kind.Input?
  }

  /** Between two steps of the drain. */
  ghost predicate Undisturbed(w: World, r: Region, q: Queue)
    requires r.Shaped()
  {
    Calm(q) && SameGraph(w, q.world) && SameSlots(r, w.store.cache, q.world.store.cache)
  }

  lemma DrainStepSlots(w: World, r: Region, q: Queue, now: ProductTime, auth: map<(Uid, Uid), Verdict>, handled: seq<Word>)
    requires r.Shaped() && Shielded(w, r, handled) && Undisturbed(w, r, q) && q.items != []
    ensures Undisturbed(w, r, DrainStep(q, now, auth, handled))
  {
    DrainStepCalm(q, now, auth, handled);
    DrainStepKeeps(q, now, auth, handled);
    SameGraphTransitive(w, q.world, DrainStep(q, now, auth, handled).world);
    if q.items[0].Push? && !Handled(q.world, handled, q.items[0].id) {
      var s0 := q.stats.(maxDepth := Larger(q.stats.maxDepth, |q.items|));
      PushSlots(q.world, r, q.items[0].id, Ctx(now, auth, q.demanded), s0);
      hide Calm, Coherent, SameGraph, StepPush, Touches;
    } else {
      hide Calm, Coherent, SameGraph, StepPush, Touches;
    }
  }

  lemma DrainSlots(r: Region, q: Queue, now: ProductTime, auth: map<(Uid, Uid), Verdict>, handled: seq<Word>, budget: nat)
    requires r.Shaped() && Calm(q) && Shielded(q.world, r, handled)
    ensures var q' := Drain(q, now, auth, handled, budget).q;
      SameSlots(r, q.world.store.cache, q'.world.store.cache) && Calm(q')
  {
    var w := q.world;
    var inv := (p: Queue) => Undisturbed(w, r, p);
    forall p: Queue | p.world.Wf() && p.items != [] && inv(p) ensures inv(DrainStep(p, now, auth, handled)) {
      DrainStepSlots(w, r, p, now, auth, handled);
    }
    var last := DrainInductionAny(q, now, auth, handled, budget, inv);
  }

  /** Settling without requests is the drain; it leaves the region's slots and the artifacts. */
  lemma SettleSlots(e: EngineState, r: Region, auth: map<(Uid, Uid), Verdict>, rounds: seq<seq<Stabilized>>)
    requires Inv(e) && e.world.Wf() && r.Shaped() && Calm(QueueOf(e)) && Shielded(e.world, r, e.handled)
    ensures var out := Settle(e, auth, rounds).e;
      SameSlots(r, e.world.store.cache, out.world.store.cache) && out.cache == e.cache && NoStabilizeItems(out.items)
  {
    DrainSlots(r, QueueOf(e), e.now, auth, e.handled, e.maxSteps);
    UnaskedRequests(Drain(QueueOf(e), e.now, auth, e.handled, e.maxSteps).q.events);
    hide Drain, Coherent, Inv, Shielded;
  }

  // ---- one write -------------------------------------------------------------------------------

  /** n is a live node whose slot is a boundary input of the region at root. */
  predicate Boundary(e: EngineState, root: Uid, n: Uid) {
    && root in e.cache.regions && n in e.world.nodes && n in e.world.store.idx
    && e.world.store.idx[n] in e.cache.regions[root].inputs
  }

  /** The state the write hands to the drain. */
  lemma WrittenIs(e: EngineState, n: Uid, v: T)
    requires Inv(e) && e.events == [] && NoStabilizeItems(e.items) && n in e.world.nodes
    ensures var out, d := WriteValue(e, n, v), e.world.store.idx[n];
      && Kept(e, out) && Quiet(out) && out.world.store.cache == e.world.store.cache[d := v]
      && out.cache == e.cache.MarkDirty(d) && Test(out.dirtySlots, d)
  {
    WriteValueKeeps(e, n, v);
    var d, e2 := e.world.store.idx[n], PutValue(e, n, v);
    assert Test(SetBitGuarded(e.dirtySlots, d), d) by { TestSet(e.dirtySlots, d, d); }
    assert Quiet(e2);
    NotifiedQuiet(e2, n, Ascending(e2.world.reg.SubsOf(n)), e.world.nodes[n].value, v);
    hide Inv, Moved, BumpAndPush;
  }

  lemma RowsAfterWrite(r: Region, c: seq<T>, d: nat, v: T, dirty: seq<Word>)
    requires r.Valid(|c|) && InputsExact(r) && AllSatisfied(r, c, r.Rows()) && d in r.inputs && d < |c| && Test(dirty, d)
    ensures RowsAt(r, c[d := v], c[d := v], dirty, false)
  {
    assert !Driven(r, d, r.Rows());
    WriteLeavesRows(r, c, d, v, dirty);
    hide Satisfied, Touches;
  }

  /** After the write every row of the region holds or reads the dirty slot. */
  lemma WrittenRows(e: EngineState, root: Uid, n: Uid, v: T)
    requires InService(e, root) && e.events == [] && Boundary(e, root, n)
    ensures var r, e0 := e.cache.regions[root], WriteValue(e, n, v).(cache := WriteValue(e, n, v).cache.(dirty := {}));
      && RanTo(e0, e0, root, false) && Alone(e0.cache.regions, root) && Sealed(e0.world, r)
      && e0.world.store.cache == e.world.store.cache[e.world.store.idx[n] := v]
  {
    var r, d := e.cache.regions[root], e.world.store.idx[n];
    var e1 := WriteValue(e, n, v);
    WrittenIs(e, n, v);
    var e0 := e1.(cache := e1.cache.(dirty := {}));
    hide WriteValue, BumpAndPush;
    OnlyQueues(e1, e0);
    assert Sealed(e0.world, r);
    KeptRefl(e0);
    RowsAfterWrite(r, e.world.store.cache, d, v, e0.dirtySlots);
    hide RowsAt, SameBoundary, AllSatisfied;
    hide Inv, Moved, Touches, InputsExact;
  }

  lemma MembersShield(e: EngineState, r: Region)
    requires r.Shaped() && Sealed(e.world, r) && MembersHandled(e, r)
    ensures Shielded(e.world, r, e.handled)
  {}

  /** The dirty regions run and the queue drained, from a state whose unsatisfied rows read a dirty slot. */
  lemma DrainedServes(e: EngineState, root: Uid, ch: Choices)
    requires Inv(e) && NoneStabilizing(e.world.reg) && e.cache.dirty == {} && root in ch.roots
    requires RanTo(e, e, root, false) && Alone(e.cache.regions, root) && Sealed(e.world, e.cache.regions[root])
    ensures e.world.Wf() && CacheRunnable(e)
    ensures var r, out := e.cache.regions[root], DrainAndStabilize(e, ch.roots, ch.auth, ch.rounds).e;
      && Kept(e, out) && out.cache == e.cache && NoStabilizeItems(out.items)
      && SameBoundary(r, e.world.store.cache, out.world.store.cache) && AllSatisfied(r, out.world.store.cache, r.Rows())
  {
    InvReady(e);
    var r, c0 := e.cache.regions[root], e.world.store.cache;
    assert e.(cache := e.cache.(dirty := {})) == e;
    RunAll(e, root, ch.roots);
    DrainAndStabilizeKeeps(e, ch);
    var e1 := RunRegions(e, ch.roots);
    var e2 := e1.(dirtySlots := Cleared(|e1.dirtySlots|));
    OnlyQueues(e1, e2);
    assert Sealed(e2.world, r) && NoneStabilizing(e2.world.reg) && Coherent(e2.world);
    MembersShield(e2, r);
    SettleSlots(e2, r, ch.auth, ch.rounds);
    var c1, c2 := e2.world.store.cache, Settle(e2, ch.auth, ch.rounds).e.world.store.cache;
    hide RunRegions, Settle, Inv, Moved, Touches;
    SlotsDecideRows(r, c1, c2);
    BoundaryStays(r, c0, c1, c2);
  }

  lemma BoundaryStays(r: Region, c0: seq<T>, c1: seq<T>, c2: seq<T>)
    requires r.Shaped() && SameBoundary(r, c0, c1) && (SameBoundary(r, c1, c2) || SameSlots(r, c1, c2))
    ensures SameBoundary(r, c0, c2)
  {}

  /** Kept as it was but for the values: the region is in service again. */
  lemma ServesAgain(e: EngineState, out: EngineState, root: Uid)
    requires InService(e, root) && Kept(e, out) && out.cache.inputTo == e.cache.inputTo && NoStabilizeItems(out.items)
    requires var r := e.cache.regions[root];
      r.Fits(|out.world.store.cache|) && AllSatisfied(r, out.world.store.cache, r.Rows())
    ensures InService(out, root)
  {
    assert Sealed(out.world, e.cache.regions[root]);
    hide Inv, Touches, Satisfied, Alone;
  }

  /** The call has kept the region in service over the boundary c. */
  ghost predicate Serves(e: EngineState, out: EngineState, root: Uid, c: seq<T>)
    requires InService(e, root)
  {
    && InService(out, root) && Kept(e, out)
    && SameBoundary(e.cache.regions[root], c, out.world.store.cache)
  }

  lemma WriteServes(e: EngineState, root: Uid, n: Uid, v: T, ch: Choices)
    requires InService(e, root) && e.events == [] && Boundary(e, root, n) && root in ch.roots
    ensures var e1 := WriteValue(e, n, v);
      e1.world.Wf() && CacheRunnable(e1)
      && Serves(e, DrainAndStabilize(e1, ch.roots, ch.auth, ch.rounds).e, root, e.world.store.cache[e.world.store.idx[n] := v])
  {
    var r, d := e.cache.regions[root], e.world.store.idx[n];
    var e1 := WriteValue(e, n, v);
    WrittenIs(e, n, v);
    InvReady(e1);
    WrittenRows(e, root, n, v);
    var e0 := e1.(cache := e1.cache.(dirty := {}));
    OnlyQueues(e1, e0);
    assert NoneStabilizing(e0.world.reg);
    hide WriteValue;
    DrainedServes(e0, root, ch);
    var out := DrainAndStabilize(e0, ch.roots, ch.auth, ch.rounds).e;
    assert DrainAndStabilize(e1, ch.roots, ch.auth, ch.rounds).e == out;
    hide DrainAndStabilize, Inv, Moved, Touches;
    KeptTransitive(e, e1, e0);
    KeptTransitive(e, e0, out);
    ServesAgain(e, out, root);
  }

  /** A call that changes the value is the write and `drain_and_stabilize`. */
  lemma ChangingCall(e: EngineState, n: Uid, v: T, ch: Choices)
    requires Inv(e) && n in e.world.nodes && v != e.world.nodes[n].value
    ensures var e1 := WriteValue(e.(events := []), n, v);
      e1.world.Wf() && CacheRunnable(e1) && Call(e, SetValue(n, v), ch) == DrainAndStabilize(e1, ch.roots, ch.auth, ch.rounds)
  {
    InvReady(e);
    WriteValueReady(e.(events := []), n, v);
    hide Inv, WriteValue, DrainAndStabilize;
  }

  lemma EventsServe(e: EngineState, root: Uid)
    requires InService(e, root)
    ensures Inv(e) && InService(e.(events := []), root) && Kept(e, e.(events := []))
  {
    OnlyQueues(e, e.(events := []));
    ServesAgain(e, e.(events := []), root);
    hide Inv, Moved, Satisfied, Touches;
  }

  lemma RootIsListed(e: EngineState, root: Uid, n: Uid, v: T, ch: Choices)
    requires InService(e, root) && Boundary(e, root, n) && v != e.world.nodes[n].value && e.events == []
    requires RootsListed(e, SetValue(n, v), ch)
    ensures root in ch.roots
  {
    WrittenIs(e, n, v);
    hide Inv, Kept, WriteValue, Sealed, Alone, AllSatisfied;
  }

  /** Writing a boundary input through `apply`, whatever the order of the dirty regions, the authority
      verdicts and the value, and whether the call succeeds or meets its step limit: every row of the
      region is satisfied again and its undriven slots hold the written boundary. */
  lemma CallServes(e: EngineState, root: Uid, n: Uid, v: T, ch: Choices)
    requires InService(e, root) && Boundary(e, root, n) && RootsListed(e.(events := []), SetValue(n, v), ch)
    ensures Serves(e, Call(e, SetValue(n, v), ch).e, root, e.world.store.cache[e.world.store.idx[n] := v])
  {
    hide *;
    var e1 := e.(events := []);
    EventsServe(e, root);
    BoundaryStands(e, e1, root, n);
    if v == e.world.nodes[n].value {
      SameValueStands(e, root, n);
      SameValueCall(e, n, v, ch);
    } else {
      RootIsListed(e1, root, n, v, ch);
      WriteServes(e1, root, n, v, ch);
      ChangingCall(e, n, v, ch);
      ServesKept(e, e1, root, n, v, Call(e, SetValue(n, v), ch).e);
    }
  }

  lemma BoundaryStands(e: EngineState, e1: EngineState, root: Uid, n: Uid)
    requires InService(e, root) && Boundary(e, root, n) && e1 == e.(events := [])
    ensures n in e.world.nodes && n in e.world.store.idx && e.world.store.idx[n] < |e.world.store.cache| && Boundary(e1, root, n)
  {
    hide Satisfied, Touches;
  }

  lemma ServesKept(e: EngineState, e1: EngineState, root: Uid, n: Uid, v: T, out: EngineState)
    requires InService(e, root) && InService(e1, root) && e1 == e.(events := []) && Kept(e, e1)
    requires n in e.world.store.idx && e.world.store.idx[n] < |e.world.store.cache|
    requires Serves(e1, out, root, e.world.store.cache[e.world.store.idx[n] := v])
    ensures Serves(e, out, root, e.world.store.cache[e.world.store.idx[n] := v])
  {
    assert Kept(e1, out) by { hide InService, Kept; }
    hide *;
    KeptTransitive(e, e1, out);
    ServesFrom(e, e1, out, root, e.world.store.cache[e.world.store.idx[n] := v]);
  }

  lemma ServesFrom(e: EngineState, e1: EngineState, out: EngineState, root: Uid, c: seq<T>)
    requires InService(e, root) && InService(e1, root) && e1.cache == e.cache && Serves(e1, out, root, c) && Kept(e, out)
    ensures Serves(e, out, root, c)
  {
    hide InService, Kept, SameBoundary;
  }

  lemma SameValueStands(e: EngineState, root: Uid, n: Uid)
    requires InService(e, root) && InService(e.(events := []), root) && Kept(e, e.(events := [])) && n in e.world.nodes
    ensures n in e.world.store.idx && e.world.store.idx[n] < |e.world.store.cache|
    ensures Serves(e, e.(events := []), root, e.world.store.cache[e.world.store.idx[n] := e.world.nodes[n].value])
  {
    var c := e.world.store.cache;
    assert c[e.world.store.idx[n] := e.world.nodes[n].value] == c;
    hide InService, Kept;
  }

  // ---- the full evaluation ---------------------------------------------------------------------

  /** Satisfied rows over a boundary are its full evaluation, on every slot of the region. */
  lemma SettledIsFull(r: Region, c0: seq<T>, c: seq<T>)
    requires r.Valid(|c0|) && SameBoundary(r, c0, c) && AllSatisfied(r, c, r.Rows())
    ensures SameSlots(r, c, FullEval(r, c0))
  {
    var sol := seq(|c0|, d requires 0 <= d < |c0| => if Touches(r, d) then c[d] else c0[d]);
    SlotsDecideRows(r, c, sol);
    forall d | 0 <= d < |c0| && !Driven(r, d, r.Rows()) ensures sol[d] == c0[d] {}
    SolutionUnique(r, c0, sol);
  }

  /** The slots and values of a list of writes. */
  function Dense(idx: map<Uid, nat>, writes: seq<(Uid, T)>): seq<(nat, T)>
    requires forall k :: 0 <= k < |writes| ==> writes[k].0 in idx
  {
    seq(|writes|, k requires 0 <= k < |writes| => (idx[writes[k].0], writes[k].1))
  }

  /** One call that writes a boundary input. */
  ghost predicate WriteCalled(e: EngineState, n: Uid, v: T, ch: Choices, e': EngineState) {
    Inv(e) && RootsListed(e.(events := []), SetValue(n, v), ch) && e' == Call(e, SetValue(n, v), ch).e
  }

  /** A sequence of calls that write boundary inputs, each from the state the call before left. */
  ghost predicate BoundaryWrites(states: seq<EngineState>, root: Uid, writes: seq<(Uid, T)>, choices: seq<Choices>) {
    && |states| == |writes| + 1 && |choices| == |writes|
    && (forall i :: 0 <= i < |writes| ==> Boundary(states[0], root, writes[i].0))
    && forall i :: 0 <= i < |writes| ==> WriteCalled(states[i], writes[i].0, writes[i].1, choices[i], states[i + 1])
  }

  /** The calls so far have kept the region in service over the written boundary. */
  ghost predicate ServedTo(e0: EngineState, e: EngineState, root: Uid, c: seq<T>) {
    InService(e0, root) && |c| == |e0.world.store.cache| && Serves(e0, e, root, c)
  }

  lemma ServedNext(e0: EngineState, e: EngineState, root: Uid, c: seq<T>, n: Uid, v: T, ch: Choices, e': EngineState)
    requires ServedTo(e0, e, root, c) && Boundary(e0, root, n) && WriteCalled(e, n, v, ch, e')
    ensures e0.world.store.idx[n] < |c| && ServedTo(e0, e', root, c[e0.world.store.idx[n] := v])
  {
    BoundaryIsSlot(e0, root, n);
    assert e.world.store.idx == e0.world.store.idx && e.cache.regions == e0.cache.regions && n in e.world.nodes;
    var d := e0.world.store.idx[n];
    CallServes(e, root, n, v, ch);
    BoundaryOver(e0.cache.regions[root], c, e.world.store.cache, e'.world.store.cache, d, v);
    hide Call, Inv, Moved, RootsListed, SameBoundary;
    assert Kept(e0, e) && Kept(e, e') && InService(e', root);
    hide InService, Kept;
    KeptTransitive(e0, e, e');
  }

  lemma BoundaryIsSlot(e: EngineState, root: Uid, n: Uid)
    requires InService(e, root) && Boundary(e, root, n)
    ensures e.world.store.idx[n] < |e.world.store.cache| && e.cache.regions[root].Shaped()
  {}

  lemma BoundaryOver(r: Region, c0: seq<T>, c: seq<T>, c': seq<T>, d: nat, v: T)
    requires r.Shaped() && SameBoundary(r, c0, c) && d < |c0| && SameBoundary(r, c[d := v], c')
    ensures SameBoundary(r, c0[d := v], c')
  {}

  /** The calls so far have kept the region in service over the boundary these dense writes give. */
  ghost predicate ServedAfter(e0: EngineState, e: EngineState, root: Uid, all: seq<(nat, T)>) {
    && (forall k :: 0 <= k < |all| ==> all[k].0 < |e0.world.store.cache|)
    && ServedTo(e0, e, root, WriteAll(e0.world.store.cache, all))
  }

  lemma ServedAfterNone(e: EngineState, root: Uid)
    requires InService(e, root)
    ensures ServedAfter(e, e, root, [])
  {
    KeptRefl(e);
    hide Inv, Kept, Touches, Satisfied;
  }

  lemma ServedAfterNext(e0: EngineState, e: EngineState, root: Uid, all: seq<(nat, T)>, n: Uid, v: T, ch: Choices, e': EngineState)
    requires ServedAfter(e0, e, root, all) && Boundary(e0, root, n) && WriteCalled(e, n, v, ch, e')
    ensures ServedAfter(e0, e', root, all + [(e0.world.store.idx[n], v)]) && InService(e', root)
  {
    var c0, d := e0.world.store.cache, e0.world.store.idx[n];
    hide ServedTo, Boundary, WriteCalled, WriteAll;
    ServedNext(e0, e, root, WriteAll(c0, all), n, v, ch, e');
    WriteAllNext(c0, all, d, v);
    ServedInService(e0, e', root, WriteAll(c0, all + [(d, v)]));
  }

  lemma WriteAllNext(c: seq<T>, all: seq<(nat, T)>, d: nat, v: T)
    requires (forall k :: 0 <= k < |all| ==> all[k].0 < |c|) && d < |c|
    ensures forall k :: 0 <= k < |all + [(d, v)]| ==> (all + [(d, v)])[k].0 < |c|
    ensures WriteAll(c, all + [(d, v)]) == WriteAll(c, all)[d := v]
  {
    assert (all + [(d, v)])[..|all|] == all;
  }

  lemma ServedInService(e0: EngineState, e: EngineState, root: Uid, c: seq<T>)
    requires ServedTo(e0, e, root, c)
    ensures InService(e, root)
  {}

  lemma WriteAt(states: seq<EngineState>, root: Uid, writes: seq<(Uid, T)>, choices: seq<Choices>, k: nat)
    requires BoundaryWrites(states, root, writes, choices) && k < |writes|
    ensures |states| == |writes| + 1 == |choices| + 1 && Boundary(states[0], root, writes[k].0)
    ensures WriteCalled(states[k], writes[k].0, writes[k].1, choices[k], states[k + 1])
  {
    hide Boundary, WriteCalled;
  }

  /** On the slots of the region, e's store is the full evaluation of e0's store after the writes. */
  ghost predicate FullyEvaluated(e0: EngineState, e: EngineState, root: Uid, writes: seq<(nat, T)>) {
    && root in e0.cache.regions && e0.cache.regions[root].Valid(|e0.world.store.cache|)
    && (forall k :: 0 <= k < |writes| ==> writes[k].0 < |e0.world.store.cache|)
    && SameSlots(e0.cache.regions[root], e.world.store.cache,
                 FullEval(e0.cache.regions[root], WriteAll(e0.world.store.cache, writes)))
  }

  lemma ServedIsFull(e0: EngineState, e: EngineState, root: Uid, all: seq<(nat, T)>)
    requires ServedAfter(e0, e, root, all)
    ensures FullyEvaluated(e0, e, root, all)
  {
    SettledIsFull(e0.cache.regions[root], WriteAll(e0.world.store.cache, all), e.world.store.cache);
    hide Inv, Touches, FullEval, Kept;
  }

  lemma BoundariesMapped(states: seq<EngineState>, root: Uid, writes: seq<(Uid, T)>, choices: seq<Choices>)
    requires BoundaryWrites(states, root, writes, choices)
    ensures |states| == |writes| + 1 == |choices| + 1
    ensures forall i :: 0 <= i < |writes| ==> writes[i].0 in states[0].world.store.idx
  {
    hide WriteCalled;
  }

  /** The claim of the region tier, through the engine: after any sequence of boundary writes, each a call
      of `apply`, the region is in service in every state, and at the end every slot it reads or writes
      holds the full topological evaluation of the initial store with the writes. */
  lemma WritesEvaluateFully(states: seq<EngineState>, root: Uid, writes: seq<(Uid, T)>, choices: seq<Choices>)
    requires BoundaryWrites(states, root, writes, choices) && InService(states[0], root)
    ensures forall i :: 0 <= i < |states| ==> InService(states[i], root)
    ensures forall k :: 0 <= k < |writes| ==> writes[k].0 in states[0].world.store.idx
    ensures FullyEvaluated(states[0], states[|writes|], root, Dense(states[0].world.store.idx, writes))
  {
    hide *;
    BoundariesMapped(states, root, writes, choices);
    var all := Dense(states[0].world.store.idx, writes);
    DenseIs(states[0].world.store.idx, writes);
    assert all[..0] == [];
    ServedAfterNone(states[0], root);
    for k := 0 to |writes|
      invariant forall j :: 0 <= j <= k ==> InService(states[j], root)
      invariant ServedAfter(states[0], states[k], root, all[..k])
    {
      assert all[..k + 1] == all[..k] + [(states[0].world.store.idx[writes[k].0], writes[k].1)];
      WriteAt(states, root, writes, choices, k);
      ServedAfterNext(states[0], states[k], root, all[..k], writes[k].0, writes[k].1, choices[k], states[k + 1]);
    }
    assert all[..|writes|] == all;
    ServedIsFull(states[0], states[|writes|], root, all);
  }

  lemma DenseIs(idx: map<Uid, nat>, writes: seq<(Uid, T)>)
    requires forall k :: 0 <= k < |writes| ==> writes[k].0 in idx
    ensures |Dense(idx, writes)| == |writes|
    ensures forall k :: 0 <= k < |writes| ==> Dense(idx, writes)[k] == (idx[writes[k].0], writes[k].1)
  {}

  /** `insert` lists the root under every boundary input. */
  lemma {:induction false} ListedUnderInputs(cache: RegionCache, root: Uid, inputs: seq<nat>)
    ensures forall c :: c in inputs ==> c in cache.Listed(root, inputs) && root in cache.Listed(root, inputs)[c]
    decreases |inputs|
  {
    if inputs != [] {
      ListedUnderInputs(cache, root, inputs[..|inputs| - 1]);
      assert inputs == inputs[..|inputs| - 1] + [inputs[|inputs| - 1]];
    }
  }

  /** A region that `compile_region` built, whose rows hold and whose slots are its own, is in service once
      it is inserted. */
  lemma InsertedServes(e: EngineState, root: Uid, region: Region, contract: StabilityContract)
    requires Inv(e) && NoneStabilizing(e.world.reg) && NoStabilizeItems(e.items) && Placed(e.world, region)
    requires region.Valid(|e.world.store.cache|) && InputsExact(region) && Sealed(e.world, region)
    requires AllSatisfied(region, e.world.store.cache, region.Rows())
    requires forall other, c :: other in e.cache.regions && other != root && c in e.cache.regions[other].outputs ==> !Touches(region, c)
    ensures InService(e.(cache := e.cache.Insert(root, region, contract)), root)
  {
    DeclareKeeps(e, root, region, contract);
    ListedUnderInputs(e.cache, root, region.inputs);
    hide Inv, Touches, InputsExact, Satisfied;
  }

  /** The conditions of service, one by one. */
  lemma ServiceFrom(e: EngineState, root: Uid, r: Region)
    requires Inv(e) && NoneStabilizing(e.world.reg) && NoStabilizeItems(e.items) && root in e.cache.regions && e.cache.regions[root] == r
    requires r.Valid(|e.world.store.cache|) && InputsExact(r) && (forall c :: c in r.inputs ==> root in e.cache.RootsOf(c))
    requires Sealed(e.world, r) && Alone(e.cache.regions, root) && AllSatisfied(r, e.world.store.cache, r.Rows())
    ensures InService(e, root)
  {
    hide Inv, InputsExact, Sealed, Alone, Touches, AllSatisfied;
  }
}
