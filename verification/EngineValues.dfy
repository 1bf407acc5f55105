/** The engine's invariant, and why everything that moves values keeps it: external writes, the
    compiled tier, the warm drain and stabilisation. */
module EngineValues {
  import opened Base
  import opened Bits
  import opened Ternary
  import opened Time
  import opened Isa
  import opened ValueStores
  import opened Deps
  import opened Propagation
  import opened StepFacts
  import opened Draining
  import opened Coherence
  import opened Regions
  import opened RegionRun
  import opened Writes
  import opened EngineModel
  import CounterPath

  /** A region is runnable on the store, and its rows write its members' own slots. */
  ghost predicate Placed(w: World, r: Region) {
    && r.Runnable(|w.store.cache|)
    && forall i :: 0 <= i < r.Rows() ==> r.members[i] in w.store.idx && w.store.idx[r.members[i]] == r.outputs[i]
  }

  ghost predicate AllPlaced(w: World, regions: map<Uid, Region>) {
    forall root :: root in regions ==> Placed(w, regions[root])
  }

  /** No edge has a dangling end. */
  ghost predicate EdgesLive(e: EngineState) {
    forall id :: id in e.edges ==> e.edges[id].src in e.world.nodes && e.edges[id].tgt in e.world.nodes
  }

  /** What every instruction keeps: the store, the planes, the graph and the registry agree, no
      edge dangles, no pair is stamped ahead of the clock, artifacts fit the store, and the dirty
      and handled bits cover every slot. */
  ghost predicate Inv(e: EngineState) {
    && Coherent(e.world) && EdgesLive(e) && ClockAhead(e.world.reg, e.now) && AllPlaced(e.world, e.cache.regions)
    && |e.dirtySlots| == |e.handled| == Words(|e.world.store.cache|)
  }

  lemma InvReady(e: EngineState)
    requires Inv(e)
    ensures e.world.Wf() && CacheRunnable(e)
  {}

  /** The engine moved on with the same graph: values, counters, stamps and queues may differ. */
  ghost predicate Moved(e: EngineState, e': EngineState) {
    && SameGraph(e.world, e'.world) && e'.edges == e.edges && e'.cache.regions == e.cache.regions
    && |e'.dirtySlots| == |e.dirtySlots| && |e'.handled| == |e.handled|
  }

  lemma MovedInv(e: EngineState, e': EngineState)
    requires Inv(e) && Moved(e, e') && Coherent(e'.world) && ClockAhead(e'.world.reg, e'.now)
    ensures Inv(e')
  {
    forall root | root in e'.cache.regions ensures Placed(e'.world, e'.cache.regions[root]) {
      assert Placed(e.world, e.cache.regions[root]);
    }
  }

  lemma MovedTransitive(a: EngineState, b: EngineState, c: EngineState)
    requires Moved(a, b) && Moved(b, c)
    ensures Moved(a, c)
  {
    SameGraphTransitive(a.world, b.world, c.world);
  }

  // ---- the notification loop ------------------------------------------------------------------

  /** reg' is reg with counters bumped and some pairs out of n stamped. */
  ghost predicate Looped(reg: Registry, reg': Registry, n: Uid, now: ProductTime) {
    && reg'.counters.Keys == reg.counters.Keys
    && exists to: seq<Uid> :: reg' == reg.(counters := reg'.counters, meta := Stamped(reg.meta, n, to, now))
  }

  lemma LoopIs(a: Acc, n: Uid, subs: seq<Uid>, prior: T, next: T, ctx: Ctx)
    requires Distinct(subs)
    ensures Looped(a.reg, BumpAndPush(a, n, subs, prior, next, ctx).reg, n, ctx.now)
  {
    var b := a.(reg := BumpAll(a.reg, subs, prior, next));
    CounterPath.BumpThenPush(a, n, subs, prior, next, ctx);
    BumpAllResult(a.reg, subs, prior, next);
    PushSubsResult(b, n, subs, ctx);
    var reg', to := PushSubs(b, n, subs, ctx).reg, Accepted(b.reg, n, subs, ctx);
    assert reg' == a.reg.(counters := reg'.counters, meta := Stamped(a.reg.meta, n, to, ctx.now));
  }

  lemma LoopedKeeps(w: World, reg': Registry, n: Uid, now: ProductTime)
    requires Looped(w.reg, reg', n, now)
    ensures SameGraph(w, w.(reg := reg')) && (Coherent(w) ==> Coherent(w.(reg := reg')))
    ensures w.Wf() ==> w.(reg := reg').Wf()
    ensures ClockAhead(w.reg, now) ==> ClockAhead(reg', now)
    ensures Related(w.reg) ==> Related(reg')
  {
    var to: seq<Uid> :| reg' == w.reg.(counters := reg'.counters, meta := Stamped(w.reg.meta, n, to, now));
    if ClockAhead(w.reg, now) { StampedClock(w.reg, reg', n, to, now); }
    if Related(w.reg) { SameShapeRelated(w.reg, reg'); }
  }

  lemma NotifiedKeeps(e: EngineState, node: Uid, subs: seq<Uid>, prior: T, next: T)
    requires Distinct(subs)
    ensures var e' := Notified(e, node, subs, prior, next);
      && SameGraph(e.world, e'.world) && e'.world.nodes == e.world.nodes && e'.world.store == e.world.store
      && (Coherent(e.world) ==> Coherent(e'.world)) && (e.world.Wf() ==> e'.world.Wf())
      && (Related(e.world.reg) ==> Related(e'.world.reg))
      && (ClockAhead(e.world.reg, e.now) ==> ClockAhead(e'.world.reg, e.now))
      && e' == e.(world := e'.world, items := e'.items)
  {
    var a := Acc(e.world.reg, [], [], NO_STATS);
    LoopIs(a, node, subs, prior, next, WriteCtx(e.now));
    LoopedKeeps(e.world, BumpAndPush(a, node, subs, prior, next, WriteCtx(e.now)).reg, node, e.now);
  }

  // ---- external writes --------------------------------------------------------------------------

  /** A node and its slot take the same new value; the version does not fall. */
  lemma PutBoth(w: World, node: Uid, n': Node)
    requires Coherent(w) && node in w.nodes && n'.kind == w.nodes[node].kind && n'.version >= w.nodes[node].version
    ensures var w' := w.(nodes := w.nodes[node := n'], store := w.store.Set(node, n'.value));
      Coherent(w') && SameGraph(w, w')
  {
    SetValid(w.store, node, n'.value);
  }

  lemma ClockMonotone(reg: Registry, now: ProductTime, dim: TimeDim)
    requires ClockAhead(reg, now)
    ensures ClockAhead(reg, now.Advance(dim))
  {}

  lemma WriteValueKeeps(e: EngineState, node: Uid, v: T)
    requires Inv(e) && node in e.world.nodes
    ensures Inv(WriteValue(e, node, v)) && Moved(e, WriteValue(e, node, v))
  {
    var prior := e.world.nodes[node].value;
    PutBoth(e.world, node, e.world.nodes[node].SetValue(v));
    var e1 := Touch(e.(world := e.world.Put(node, v)), node);
    var e2 := e1.(events := e1.events + [ValueChanged(node, prior, v)]).Log(Attribute);
    ClockMonotone(e.world.reg, e.now, Attribute);
    AscendingDistinct(e2.world.reg.SubsOf(node));
    NotifiedKeeps(e2, node, Ascending(e2.world.reg.SubsOf(node)), prior, v);
    SameGraphTransitive(e.world, e2.world, WriteValue(e, node, v).world);
    MovedInv(e, WriteValue(e, node, v));
  }

  lemma ReflectValueKeeps(e: EngineState, node: Uid)
    requires Inv(e) && node in e.world.nodes
    ensures Inv(ReflectValue(e, node)) && Moved(e, ReflectValue(e, node))
  {
    var prior := e.world.nodes[node].value;
    var next := MvNeg(prior);
    PutBoth(e.world, node, Reflected(e.world.nodes[node]));
    var e1 := e.(world := e.world.(nodes := e.world.nodes[node := Reflected(e.world.nodes[node])], store := e.world.store.Set(node, next)));
    var e2 := if next != prior then Touch(e1, node).(events := e1.events + [ValueChanged(node, prior, next)]) else e1;
    AscendingDistinct(e2.world.reg.SubsOf(node));
    NotifiedKeeps(e2, node, Ascending(e2.world.reg.SubsOf(node)), prior, next);
    SameGraphTransitive(e.world, e2.world, ReflectValue(e, node).world);
    MovedInv(e, ReflectValue(e, node));
  }

  // ---- the compiled tier --------------------------------------------------------------------------

  /** The graph's values while the first i rows' changes are synced. */
  ghost predicate SyncedTo(w: World, r: Region, c0: seq<T>, c1: seq<T>, i: nat)
    requires r.Shaped() && i <= r.Rows()
  {
    && |c0| == |c1|
    && (forall n :: n in w.nodes ==> n in w.store.idx && w.store.idx[n] < |c0|)
    && forall n :: n in w.nodes ==>
         w.nodes[n].value == if w.store.idx[n] in r.outputs[..i] then c1[w.store.idx[n]] else c0[w.store.idx[n]]
  }

  ghost predicate Injective(idx: map<Uid, nat>) {
    forall n, m :: n in idx && m in idx && n != m ==> idx[n] != idx[m]
  }

  lemma SyncedNext(w: World, r: Region, c0: seq<T>, c1: seq<T>, i: nat, w': World)
    requires Placed(w, r) && Injective(w.store.idx) && i < r.Rows() && SyncedTo(w, r, c0, c1, i)
    requires |c0| == |c1| == |w.store.cache| && w'.store == w.store
    requires w'.nodes == if r.members[i] in w.nodes && c0[r.outputs[i]] != c1[r.outputs[i]]
                         then w.nodes[r.members[i] := w.nodes[r.members[i]].SetValue(c1[r.outputs[i]])] else w.nodes
    ensures SyncedTo(w', r, c0, c1, i + 1)
  {
    assert r.outputs[..i + 1] == r.outputs[..i] + [r.outputs[i]];
    forall n | n in w'.nodes
      ensures w'.nodes[n].value == if w.store.idx[n] in r.outputs[..i + 1] then c1[w.store.idx[n]] else c0[w.store.idx[n]]
    {
      if n != r.members[i] {
        assert w.store.idx[n] != r.outputs[i];
      }
    }
  }

  lemma {:induction false} OutsideDistinct(subs: seq<Uid>, members: seq<Uid>)
    requires Distinct(subs)
    ensures Distinct(OutsideOf(subs, members)) && forall s :: s in OutsideOf(subs, members) ==> s in subs
    decreases |subs|
  {
    if subs != [] {
      LastIsFresh(subs);
      OutsideDistinct(subs[..|subs| - 1], members);
    }
  }

  /** The engine while a region's changes are synced: everything but the mirror holds. */
  ghost predicate Syncing(e: EngineState, r: Region, c0: seq<T>, c1: seq<T>, i: nat)
    requires r.Shaped() && i <= r.Rows()
  {
    && e.world.Wf() && Injective(e.world.store.idx) && Related(e.world.reg) && ClockAhead(e.world.reg, e.now)
    && Placed(e.world, r) && e.world.store.cache == c1 && |c0| == |c1| && SyncedTo(e.world, r, c0, c1, i)
  }

  /** The graph write of one change. */
  function SyncWrite(e: EngineState, n: Uid, prior: T, next: T): EngineState {
    e.(world := if n in e.world.nodes
                then e.world.(nodes := e.world.nodes[n := e.world.nodes[n].SetValue(next)]) else e.world,
       events := e.events + [ValueChanged(n, prior, next)])
  }

  lemma SyncWriteMoves(e: EngineState, n: Uid, prior: T, next: T)
    ensures Moved(e, SyncWrite(e, n, prior, next))
  {}

  /** The write of row i's change, or none, advances the syncing by a row. */
  lemma SyncWriteNext(e: EngineState, r: Region, c0: seq<T>, c1: seq<T>, i: nat, e1: EngineState)
    requires r.Shaped() && i < r.Rows() && Syncing(e, r, c0, c1, i) && r.outputs[i] < |c0|
    requires e1 == if c0[r.outputs[i]] != c1[r.outputs[i]] then SyncWrite(e, r.members[i], c0[r.outputs[i]], c1[r.outputs[i]]) else e
    ensures Syncing(e1, r, c0, c1, i + 1)
  {
    SyncedNext(e.world, r, c0, c1, i, e1.world);
    hide SyncedTo;
  }

  lemma SyncSlot(e: EngineState, r: Region, c0: seq<T>, c1: seq<T>, i: nat)
    requires r.Shaped() && i < r.Rows() && Syncing(e, r, c0, c1, i)
    ensures r.outputs[i] < |c0| == |c1|
  {
    hide SyncedTo;
  }

  lemma SyncWriteKeeps(e: EngineState, r: Region, c0: seq<T>, c1: seq<T>, i: nat)
    requires r.Shaped() && i < r.Rows() && Syncing(e, r, c0, c1, i)
    ensures var d := r.outputs[i];
      d < |c0| && (c0[d] == c1[d] ==> Syncing(e, r, c0, c1, i + 1))
      && var e1 := SyncWrite(e, r.members[i], c0[d], c1[d]);
         (c0[d] != c1[d] ==> Syncing(e1, r, c0, c1, i + 1)) && Moved(e, e1)
  {
    hide Syncing, Moved, SyncWrite, CsrShaped;
    SyncSlot(e, r, c0, c1, i);
    var d, n := r.outputs[i], r.members[i];
    SyncWriteMoves(e, n, c0[d], c1[d]);
    SyncWriteNext(e, r, c0, c1, i, if c0[d] != c1[d] then SyncWrite(e, n, c0[d], c1[d]) else e);
  }

  lemma SyncNotifyKeeps(e: EngineState, r: Region, c0: seq<T>, c1: seq<T>, i: nat, n: Uid, prior: T, next: T)
    requires r.Shaped() && i <= r.Rows() && Syncing(e, r, c0, c1, i)
    ensures var e' := Notified(e, n, OutsideOf(Ascending(e.world.reg.SubsOf(n)), r.members), prior, next);
      Syncing(e', r, c0, c1, i) && Moved(e, e')
  {
    var subs := Ascending(e.world.reg.SubsOf(n));
    AscendingDistinct(e.world.reg.SubsOf(n));
    OutsideDistinct(subs, r.members);
    NotifiedKeeps(e, n, OutsideOf(subs, r.members), prior, next);
  }

  lemma SyncOne(e: EngineState, r: Region, c0: seq<T>, c1: seq<T>, i: nat)
    requires r.Shaped() && i < r.Rows() && Syncing(e, r, c0, c1, i)
    ensures var d := r.outputs[i];
      d < |c0| && var e' := if c0[d] != c1[d] then SyncChange(e, r.members, (r.members[i], c0[d], c1[d])) else e;
      Syncing(e', r, c0, c1, i + 1) && Moved(e, e')
  {
    var d, n := r.outputs[i], r.members[i];
    SyncWriteKeeps(e, r, c0, c1, i);
    if c0[d] != c1[d] {
      var e1 := SyncWrite(e, n, c0[d], c1[d]);
      SyncNotifyKeeps(e1, r, c0, c1, i + 1, n, c0[d], c1[d]);
      var e' := SyncChange(e, r.members, (n, c0[d], c1[d]));
      assert e' == Notified(e1, n, OutsideOf(Ascending(e1.world.reg.SubsOf(n)), r.members), c0[d], c1[d]);
      hide *;
      MovedTransitive(e, e1, e');
    }
  }

  /** The first i rows' changes are synced. */
  ghost predicate PartSynced(e: EngineState, r: Region, c0: seq<T>, c1: seq<T>, i: nat)
    requires r.Shaped() && r.Fits(|c0|) && |c0| == |c1| && i <= r.Rows()
  {
    var e' := SyncChanges(e, r.members, Changes(r, c0, c1, i));
    Syncing(e', r, c0, c1, i) && Moved(e, e')
  }

  lemma PartSyncedNext(e: EngineState, r: Region, c0: seq<T>, c1: seq<T>, i: nat)
    requires r.Shaped() && r.Fits(|c0|) && |c0| == |c1| && i < r.Rows() && PartSynced(e, r, c0, c1, i)
    ensures PartSynced(e, r, c0, c1, i + 1)
  {
    var before, after := SyncChanges(e, r.members, Changes(r, c0, c1, i)), SyncChanges(e, r.members, Changes(r, c0, c1, i + 1));
    SyncOne(before, r, c0, c1, i);
    SyncChangesNext(e, r, c0, c1, i + 1);
    assert Syncing(after, r, c0, c1, i + 1) && Moved(before, after) by { hide Syncing, Moved; }
    MovedTransitive(e, before, after);
    hide Syncing, Moved;
  }

  lemma SyncPart(e: EngineState, r: Region, c0: seq<T>, c1: seq<T>)
    requires r.Shaped() && r.Fits(|c0|) && |c0| == |c1| && Syncing(e, r, c0, c1, 0)
    ensures PartSynced(e, r, c0, c1, r.Rows())
  {
    MovedRefl(e);
    for i := 0 to r.Rows()
      invariant PartSynced(e, r, c0, c1, i)
    {
      PartSyncedNext(e, r, c0, c1, i);
    }
  }

  lemma MovedRefl(e: EngineState)
    ensures Moved(e, e)
  {}

  lemma SyncChangesNext(e: EngineState, r: Region, c0: seq<T>, c1: seq<T>, i: nat)
    requires r.Shaped() && r.Fits(|c0|) && |c0| == |c1| && 0 < i <= r.Rows()
    ensures var d, before := r.outputs[i - 1], SyncChanges(e, r.members, Changes(r, c0, c1, i - 1));
      SyncChanges(e, r.members, Changes(r, c0, c1, i))
        == if c0[d] != c1[d] then SyncChange(before, r.members, (r.members[i - 1], c0[d], c1[d])) else before
  {
    var d := r.outputs[i - 1];
    var before, after := Changes(r, c0, c1, i - 1), Changes(r, c0, c1, i);
    if c0[d] != c1[d] {
      assert after == before + [(r.members[i - 1], c0[d], c1[d])];
      assert after[..|after| - 1] == before;
    } else {
      assert after == before;
    }
  }

  /** Synced to the last row, the graph mirrors the store again. */
  lemma SyncedMirrors(e: EngineState, r: Region, c0: seq<T>, dirty: seq<Word>)
    requires r.Runnable(|c0|) && Syncing(e, r, c0, IncEval(r, c0, dirty), r.Rows())
    ensures Coherent(e.world)
  {
    var c1 := IncEval(r, c0, dirty);
    IncRowsFrame(r, c0, dirty, r.Rows());
    assert r.outputs[..r.Rows()] == r.outputs;
    forall d | 0 <= d < |c0| && d !in r.outputs ensures c1[d] == c0[d] {
      assert !Driven(r, d, r.Rows());
    }
  }

  lemma RanSyncing(e: EngineState, r: Region)
    requires Inv(e) && Placed(e.world, r)
    ensures Syncing(Ran(e, r), r, e.world.store.cache, IncEval(r, e.world.store.cache, e.dirtySlots), 0)
    ensures Moved(e, Ran(e, r))
  {
    var c0 := e.world.store.cache;
    var c1 := IncEval(r, c0, e.dirtySlots);
    StoreOfValid(c1, e.world.store.idx);
    RedirtiedLength(e.dirtySlots, r, c0, c1, r.Rows());
    MarkHandledLength(e.handled, e.world.store.idx, r.members);
    assert r.outputs[..0] == [];
  }

  lemma {:induction false} RedirtiedLength(dirty: seq<Word>, r: Region, c0: seq<T>, c1: seq<T>, i: nat)
    requires r.Shaped() && r.Fits(|c0|) && |c1| == |c0| && i <= r.Rows()
    ensures |Redirtied(dirty, r, c0, c1, i)| == |dirty|
    decreases i
  {
    if i > 0 { RedirtiedLength(dirty, r, c0, c1, i - 1); }
  }

  lemma {:induction false} MarkHandledLength(handled: seq<Word>, idx: map<Uid, nat>, members: seq<Uid>)
    ensures |MarkHandled(handled, idx, members)| == |handled|
    decreases |members|
  {
    if members != [] { MarkHandledLength(handled, idx, members[..|members| - 1]); }
  }

  /** Running a region and syncing its changes keeps the invariant. */
  lemma RunRegionInv(e: EngineState, root: Uid)
    requires Inv(e)
    ensures CacheRunnable(e) && Inv(RunRegion(e, root)) && Moved(e, RunRegion(e, root))
  {
    if root in e.cache.regions {
      var r, c0 := e.cache.regions[root], e.world.store.cache;
      var c1 := IncEval(r, c0, e.dirtySlots);
      RanSyncing(e, r);
      SyncPart(Ran(e, r), r, c0, c1);
      SyncedMirrors(RunRegion(e, root), r, c0, e.dirtySlots);
      MovedTransitive(e, Ran(e, r), RunRegion(e, root));
      MovedInv(e, RunRegion(e, root));
    }
  }

  /** e' is e moved on, with the invariant kept. */
  ghost predicate Kept(e: EngineState, e': EngineState) { Inv(e') && Moved(e, e') }

  lemma KeptTransitive(a: EngineState, b: EngineState, c: EngineState)
    requires Kept(a, b) && Kept(b, c)
    ensures Kept(a, c)
  {
    MovedTransitive(a, b, c);
  }

  lemma KeptRefl(e: EngineState)
    requires Inv(e)
    ensures Kept(e, e)
  {}

  lemma {:induction false} RunRegionsKeep(e: EngineState, roots: seq<Uid>)
    requires Inv(e)
    ensures e.world.Wf() && CacheRunnable(e) && Kept(e, RunRegions(e, roots))
    decreases |roots|
  {
    InvReady(e);
    if roots == [] {
      KeptRefl(e);
    } else {
      var before := RunRegions(e, roots[..|roots| - 1]);
      RunRegionsKeep(e, roots[..|roots| - 1]);
      RunRegionInv(before, roots[|roots| - 1]);
      assert RunRegions(e, roots) == RunRegion(before, roots[|roots| - 1]);
      assert Kept(before, RunRegions(e, roots));
      hide *;
      KeptTransitive(e, before, RunRegions(e, roots));
    }
  }

  // ---- stabilisation ---------------------------------------------------------------------------

  lemma PushLoopIs(a: Acc, n: Uid, subs: seq<Uid>, ctx: Ctx)
    requires Distinct(subs)
    ensures Looped(a.reg, PushSubs(a, n, subs, ctx).reg, n, ctx.now)
  {
    PushSubsResult(a, n, subs, ctx);
    var reg', to := PushSubs(a, n, subs, ctx).reg, Accepted(a.reg, n, subs, ctx);
    assert reg' == a.reg.(counters := reg'.counters, meta := Stamped(a.reg.meta, n, to, ctx.now));
  }

  lemma ResolveOneKeeps(e: EngineState, id: Uid, v: T)
    requires Inv(e)
    ensures Kept(e, ResolveOne(e, id, v))
  {
    if id in e.world.nodes && e.world.nodes[id].value == Zero {
      var w := e.world.Put(id, v);
      var a := Acc(w.reg, [], [], NO_STATS);
      PutBoth(e.world, id, e.world.nodes[id].SetValue(v));
      AscendingDistinct(w.reg.SubsOf(id));
      PushLoopIs(a, id, Ascending(w.reg.SubsOf(id)), WriteCtx(e.now));
      LoopedKeeps(w, PushSubs(a, id, Ascending(w.reg.SubsOf(id)), WriteCtx(e.now)).reg, id, e.now);
      SameGraphTransitive(e.world, w, ResolveOne(e, id, v).world);
      MovedInv(e, ResolveOne(e, id, v));
    } else {
      KeptRefl(e);
    }
  }

  lemma {:induction false} ResolveAllKeeps(e: EngineState, ids: seq<Uid>, v: T)
    requires Inv(e)
    ensures e.world.Wf() && Kept(e, ResolveAll(e, ids, v))
    decreases |ids|
  {
    InvReady(e);
    if ids == [] {
      KeptRefl(e);
    } else {
      var before := ResolveAll(e, ids[..|ids| - 1], v);
      ResolveAllKeeps(e, ids[..|ids| - 1], v);
      ResolveOneKeeps(before, ids[|ids| - 1], v);
      assert ResolveAll(e, ids, v) == ResolveOne(before, ids[|ids| - 1], v);
      assert Kept(before, ResolveAll(e, ids, v));
      hide *;
      KeptTransitive(e, before, ResolveAll(e, ids, v));
    }
  }

  /** Queues, events, statistics, marks and the clock may change freely. */
  lemma OnlyQueues(e: EngineState, e': EngineState)
    requires Inv(e) && e'.world == e.world && e'.edges == e.edges && e'.cache.regions == e.cache.regions
    requires |e'.dirtySlots| == |e.dirtySlots| && |e'.handled| == |e.handled| && ClockAhead(e.world.reg, e'.now)
    ensures Kept(e, e')
  {
    MovedInv(e, e');
  }

  lemma LogKeeps(e: EngineState, dim: TimeDim)
    requires Inv(e)
    ensures Kept(e, e.Log(dim))
  {
    ClockMonotone(e.world.reg, e.now, dim);
    OnlyQueues(e, e.Log(dim));
  }

  lemma StabiliseKeeps(e: EngineState, seeds: seq<Uid>, s: Stabilized)
    requires Inv(e)
    ensures e.world.Wf() && Kept(e, Stabilise(e, seeds, s))
  {
    InvReady(e);
    KeptRefl(e);
    if seeds != [] {
      match s.verdict {
        case Settled(v) =>
          if v.Some? {
            var e1 := ResolveAll(e, Ascending(s.members), v.value);
            ResolveAllKeeps(e, Ascending(s.members), v.value);
            LogKeeps(e1, Egraph);
            KeptTransitive(e, e1, e1.Log(Egraph));
          }
        case Boundary => OnlyQueues(e, Stabilise(e, seeds, s));
        case Informational =>
          DemandNegWf(e, Ascending(s.members));
          OnlyQueues(e, Stabilise(e, seeds, s));
        case Structural =>
      }
    }
  }

  lemma {:induction false} StabiliseEachKeeps(e: EngineState, requests: seq<seq<Uid>>, answers: seq<Stabilized>)
    requires Inv(e)
    ensures e.world.Wf() && Kept(e, StabiliseEach(e, requests, answers))
    decreases |requests|
  {
    InvReady(e);
    if requests == [] || answers == [] {
      KeptRefl(e);
    } else {
      var e1 := Stabilise(e, requests[0], answers[0]);
      StabiliseKeeps(e, requests[0], answers[0]);
      StabiliseEachKeeps(e1, requests[1..], answers[1..]);
      assert StabiliseEach(e, requests, answers) == StabiliseEach(e1, requests[1..], answers[1..]);
      hide *;
      KeptTransitive(e, e1, StabiliseEach(e, requests, answers));
    }
  }

  // ---- the drain -----------------------------------------------------------------------------------

  lemma DrainedKeeps(e: EngineState, auth: map<(Uid, Uid), Verdict>)
    requires Inv(e)
    ensures e.world.Wf() && Kept(e, WithQueue(e, Drain(QueueOf(e), e.now, auth, e.handled, e.maxSteps).q))
  {
    InvReady(e);
    var e' := WithQueue(e, Drain(QueueOf(e), e.now, auth, e.handled, e.maxSteps).q);
    DrainKeeps(QueueOf(e), e.now, auth, e.handled, e.maxSteps);
    DrainClock(QueueOf(e), e.now, auth, e.handled, e.maxSteps);
    MovedInv(e, e');
  }

  lemma {:induction false} SettleKeeps(e: EngineState, auth: map<(Uid, Uid), Verdict>, rounds: seq<seq<Stabilized>>)
    requires Inv(e)
    ensures e.world.Wf() && Kept(e, Settle(e, auth, rounds).e)
    decreases |rounds|
  {
    InvReady(e);
    DrainedKeeps(e, auth);
    var d := Drain(QueueOf(e), e.now, auth, e.handled, e.maxSteps);
    var e1 := WithQueue(e, d.q);
    if d.Idle? && Requests(e1.events) == [] {
      var e2 := e1.(handled := Cleared(|e1.handled|), events := []);
      OnlyQueues(e1, e2);
      KeptTransitive(e, e1, e2);
    } else if d.Idle? && rounds != [] {
      SettleRound(e1, auth, rounds);
      var e2 := StabiliseEach(e1.(events := WithoutRequests(e1.events)), Requests(e1.events), rounds[0]);
      SettleKeeps(e2, auth, rounds[1..]);
      assert Settle(e, auth, rounds) == Settle(e2, auth, rounds[1..]);
      hide *;
      KeptTransitive(e, e1, e2);
      KeptTransitive(e, e2, Settle(e2, auth, rounds[1..]).e);
    }
  }

  lemma SettleRound(e: EngineState, auth: map<(Uid, Uid), Verdict>, rounds: seq<seq<Stabilized>>)
    requires Inv(e) && rounds != []
    ensures e.world.Wf()
    ensures Kept(e, StabiliseEach(e.(events := WithoutRequests(e.events)), Requests(e.events), rounds[0]))
  {
    var e1 := e.(events := WithoutRequests(e.events));
    OnlyQueues(e, e1);
    StabiliseEachKeeps(e1, Requests(e.events), rounds[0]);
    KeptTransitive(e, e1, StabiliseEach(e1, Requests(e.events), rounds[0]));
  }

  /** `drain_and_stabilize` keeps the invariant and the graph, whether it succeeds or fails. */
  lemma DrainAndStabilizeKeeps(e: EngineState, ch: Choices)
    requires Inv(e)
    ensures e.world.Wf() && CacheRunnable(e) && Kept(e, DrainAndStabilize(e, ch.roots, ch.auth, ch.rounds).e)
  {
    InvReady(e);
    var e0 := e.(cache := e.cache.(dirty := {}));
    OnlyQueues(e, e0);
    RunRegionsKeep(e0, ch.roots);
    var e1 := RunRegions(e0, ch.roots);
    var e2 := e1.(dirtySlots := Cleared(|e1.dirtySlots|));
    OnlyQueues(e1, e2);
    SettleKeeps(e2, ch.auth, ch.rounds);
    KeptTransitive(e, e0, e1);
    KeptTransitive(e, e1, e2);
    KeptTransitive(e, e2, DrainAndStabilize(e, ch.roots, ch.auth, ch.rounds).e);
  }
}
