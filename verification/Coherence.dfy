/** The redundant views of the graph agree, and every propagation step keeps them so. */
module Coherence {
  import opened Base
  import opened Bits
  import opened Ternary
  import opened Time
  import opened Isa
  import opened ValueStores
  import opened Deps
  import opened Propagation
  import opened StepFacts
  import opened Draining
  import CounterPath

  /** The store holds every live node's value, in a slot of its own. */
  ghost predicate Mirrored(w: World) {
    && (forall n :: n in w.nodes ==> n in w.store.idx && w.store.idx[n] < |w.store.cache|
                                      && w.store.cache[w.store.idx[n]] == w.nodes[n].value)
    && forall n, m :: n in w.store.idx && m in w.store.idx && n != m ==> w.store.idx[n] != w.store.idx[m]
  }

  /** deps, subs and the metadata keys are one relation. */
  ghost predicate Related(reg: Registry) {
    forall s: Uid, t: Uid :: (t in reg.SubsOf(s) <==> s in reg.DepsOf(t)) && (t in reg.SubsOf(s) <==> (s, t) in reg.meta)
  }

  ghost predicate Coherent(w: World) {
    w.Wf() && Mirrored(w) && Related(w.reg)
  }

  /** The ordered list of t lists its dependencies once each, and the index list is its dense image. */
  ghost predicate ListsRight(w: World, t: Uid) {
    var ids, idx := w.reg.OrderedDepsOf(t), w.reg.OrderedIdxOf(t);
    && Distinct(ids)
    && (forall s :: s in ids <==> s in w.reg.DepsOf(t))
    && |idx| == |ids|
    && forall k :: 0 <= k < |ids| ==> ids[k] in w.nodes && ids[k] in w.store.idx && idx[k] == w.store.idx[ids[k]]
  }

  /** The counters of t are the exact histogram of its dependency values. */
  ghost predicate CountersRight(w: World, t: Uid)
    requires w.Wf()
  {
    && (w.reg.OrderedDepsOf(t) != [] ==> t in w.reg.counters)
    && (t in w.reg.counters ==> CounterPath.Exact(w, t))
  }

  /** Coherent, with exact dense lists and counters for every node. */
  ghost predicate Wired(w: World) {
    Coherent(w) && (forall t :: ListsRight(w, t)) && forall t :: CountersRight(w, t)
  }

  lemma RelatedIsGated(reg: Registry)
    requires Related(reg)
    ensures Gated(reg)
  {}

  /** In a wired world the dependency values a step reads are the graph's values, in port order. */
  lemma DepValsAre(w: World, t: Uid)
    requires w.Wf() && Mirrored(w) && ListsRight(w, t)
    ensures |w.DepVals(t)| == |w.reg.OrderedDepsOf(t)| == w.DepCount(t)
    ensures forall k :: 0 <= k < |w.DepVals(t)| ==> w.DepVals(t)[k] == w.ValueOr(w.reg.OrderedDepsOf(t)[k])
  {}

  /** In a wired world every push is the general scan. */
  lemma WiredPushIsScan(w: World, n: Uid, ctx: Ctx, stats: Stats)
    requires Wired(w) && n in w.nodes && w.nodes[n].kind.Computed?
    ensures StepPush(w, n, ctx, stats) == StepScan(w, n, ctx, stats)
  {
    assert CountersRight(w, n);
    CounterPath.PushIsScan(w, n, ctx, stats);
  }

  // ---- what a step leaves alone ----------------------------------------------------------

  /** Node identities and the dependency structure are untouched. */
  ghost predicate SameGraph(w: World, w': World) {
    && w'.nodes.Keys == w.nodes.Keys
    && (forall n :: n in w.nodes ==> w'.nodes[n].kind == w.nodes[n].kind && w'.nodes[n].version >= w.nodes[n].version)
    && w'.store.idx == w.store.idx && |w'.store.cache| == |w.store.cache|
    && w'.reg.deps == w.reg.deps && w'.reg.subs == w.reg.subs && w'.reg.modes == w.reg.modes
    && w'.reg.orderedDeps == w.reg.orderedDeps && w'.reg.orderedIdx == w.reg.orderedIdx
    && w'.reg.meta.Keys == w.reg.meta.Keys && w'.reg.counters.Keys == w.reg.counters.Keys
  }

  lemma SameGraphTransitive(a: World, b: World, c: World)
    requires SameGraph(a, b) && SameGraph(b, c)
    ensures SameGraph(a, c)
  {}

  // ---- a write with its counter updates ----------------------------------------------------

  /** w' is w after n takes the value `next` and the counters of its subscribers follow;
      metadata may have been stamped. */
  ghost predicate Wrote(w: World, w': World, n: Uid, next: T)
    requires w.Wf() && n in w.nodes
  {
    var prior := w.nodes[n].value;
    && w'.nodes == (if next != prior then w.Put(n, next).nodes else w.nodes)
    && w'.store == (if next != prior then w.Put(n, next).store else w.store)
    && w'.reg == w.reg.(counters := w'.reg.counters, meta := w'.reg.meta)
    && w'.reg.meta.Keys == w.reg.meta.Keys
    && (if next != prior then Bumped(w.reg.counters, w'.reg.counters, Ascending(w.reg.SubsOf(n)), prior, next)
        else w'.reg.counters == w.reg.counters)
  }

  lemma EffectWrote(w: World, n: Uid, ctx: Ctx, o: Outcome, next: T, to: seq<Uid>, extra: seq<WorkItem>)
    requires w.Wf() && n in w.nodes && Effect(w, n, ctx, o, next, to, extra)
    ensures Wrote(w, o.world, n, next)
  {}

  lemma WroteSameGraph(w: World, w': World, n: Uid, next: T)
    requires w.Wf() && n in w.nodes && Wrote(w, w', n, next)
    ensures SameGraph(w, w') && w'.nodes[n].value == next
    ensures forall m :: m in w.nodes && m != n ==> w'.nodes[m] == w.nodes[m]
  {}

  lemma WroteWf(w: World, w': World, n: Uid, next: T)
    requires w.Wf() && n in w.nodes && Wrote(w, w', n, next)
    ensures w'.Wf()
  {
    PutWf(w, n, next);
  }

  lemma SameShapeRelated(r0: Registry, r1: Registry)
    requires SameShape(r0, r1) && Related(r0)
    ensures Related(r1)
  {
    forall s: Uid, t: Uid
      ensures (t in r1.SubsOf(s) <==> s in r1.DepsOf(t)) && (t in r1.SubsOf(s) <==> (s, t) in r1.meta)
    {
      assert r1.SubsOf(s) == r0.SubsOf(s) && r1.DepsOf(t) == r0.DepsOf(t);
    }
  }

  lemma WroteMirrored(w: World, w': World, n: Uid, next: T)
    requires w.Wf() && Mirrored(w) && n in w.nodes && Wrote(w, w', n, next)
    ensures Mirrored(w')
  {}

  lemma WroteCoherent(w: World, w': World, n: Uid, next: T)
    requires Coherent(w) && n in w.nodes && Wrote(w, w', n, next)
    ensures Coherent(w')
  {
    WroteWf(w, w', n, next);
    WroteMirrored(w, w', n, next);
    SameShapeRelated(w.reg, w'.reg);
  }

  /** A write elsewhere leaves the dependency values of t. */
  lemma DepValsStand(w: World, w': World, n: Uid, next: T, t: Uid)
    requires w.Wf() && Mirrored(w) && w'.Wf() && Mirrored(w') && n in w.nodes && Wrote(w, w', n, next)
    requires ListsRight(w, t) && ListsRight(w', t) && n !in w.reg.OrderedDepsOf(t)
    ensures w'.DepVals(t) == w.DepVals(t)
  {
    DepValsAre(w, t);
    DepValsAre(w', t);
    assert w'.reg.OrderedDepsOf(t) == w.reg.OrderedDepsOf(t);
  }

  /** A write to t's i-th dependency moves that entry and no other. */
  lemma DepValsMove(w: World, w': World, n: Uid, next: T, t: Uid, i: nat)
    requires w.Wf() && Mirrored(w) && w'.Wf() && Mirrored(w') && n in w.nodes && Wrote(w, w', n, next)
    requires ListsRight(w, t) && ListsRight(w', t) && i < |w.reg.OrderedDepsOf(t)| && w.reg.OrderedDepsOf(t)[i] == n
    ensures i < |w.DepVals(t)| && w.DepVals(t)[i] == w.nodes[n].value && w'.DepVals(t) == w.DepVals(t)[i := next]
  {
    DepValsAre(w, t);
    DepValsAre(w', t);
    assert w'.reg.OrderedDepsOf(t) == w.reg.OrderedDepsOf(t);
  }

  lemma WroteLists(w: World, w': World, n: Uid, next: T, t: Uid)
    requires w.Wf() && n in w.nodes && Wrote(w, w', n, next) && ListsRight(w, t)
    ensures ListsRight(w', t)
  {
    WroteSameGraph(w, w', n, next);
    assert w'.reg.OrderedDepsOf(t) == w.reg.OrderedDepsOf(t) && w'.reg.OrderedIdxOf(t) == w.reg.OrderedIdxOf(t);
    assert w'.reg.DepsOf(t) == w.reg.DepsOf(t);
  }

  lemma BumpedAt(w: World, w': World, n: Uid, next: T, t: Uid)
    requires w.Wf() && n in w.nodes && Wrote(w, w', n, next) && Related(w.reg) && ListsRight(w, t) && t in w.reg.counters
    ensures t in w'.reg.counters
    ensures w'.reg.counters[t] ==
      if n in w.reg.OrderedDepsOf(t) then w.reg.counters[t].Update(w.nodes[n].value, next) else w.reg.counters[t]
  {
    AscendingElements(w.reg.SubsOf(n));
  }

  lemma WroteCounters(w: World, w': World, n: Uid, next: T, t: Uid)
    requires Wired(w) && w'.Wf() && Mirrored(w') && n in w.nodes && Wrote(w, w', n, next) && ListsRight(w', t)
    ensures CountersRight(w', t)
  {
    assert ListsRight(w, t) && CountersRight(w, t);
    var ids := w.reg.OrderedDepsOf(t);
    assert w'.reg.OrderedDepsOf(t) == ids;
    if t in w.reg.counters {
      BumpedAt(w, w', n, next, t);
      if n in ids {
        var i :| 0 <= i < |ids| && ids[i] == n;
        DepValsMove(w, w', n, next, t, i);
        HistogramUpdate(w.DepVals(t), i, next);
      } else {
        DepValsStand(w, w', n, next, t);
      }
    }
  }

  /** A write that keeps the counters in step keeps a wired world wired. */
  lemma WroteWired(w: World, w': World, n: Uid, next: T)
    requires Wired(w) && n in w.nodes && Wrote(w, w', n, next)
    ensures Wired(w')
  {
    WroteCoherent(w, w', n, next);
    forall t ensures ListsRight(w', t) { WroteLists(w, w', n, next, t); }
    forall t ensures CountersRight(w', t) { WroteCounters(w, w', n, next, t); }
  }

  // ---- whole drains ----------------------------------------------------------------------------

  lemma StepPushKeeps(w: World, n: Uid, ctx: Ctx, stats: Stats)
    requires Coherent(w)
    ensures var w' := StepPush(w, n, ctx, stats).world; Coherent(w') && SameGraph(w, w') && (Wired(w) ==> Wired(w'))
  {
    if n in w.nodes && w.nodes[n].kind.Computed? {
      StepEffect(w, n, ctx, stats);
      var o, next := StepPush(w, n, ctx, stats), StepNext(w, n);
      EffectWrote(w, n, ctx, o, next, StepTo(w, n, ctx), StepExtra(w, n));
      WroteCoherent(w, o.world, n, next);
      WroteSameGraph(w, o.world, n, next);
      if Wired(w) { WroteWired(w, o.world, n, next); }
    }
  }

  lemma DrainStepKeeps(q: Queue, now: ProductTime, auth: map<(Uid, Uid), Verdict>, handled: seq<Word>)
    requires Coherent(q.world) && q.items != []
    ensures var w' := DrainStep(q, now, auth, handled).world;
      Coherent(w') && SameGraph(q.world, w') && (Wired(q.world) ==> Wired(w'))
  {
    if q.items[0].Push? && !Handled(q.world, handled, q.items[0].id) {
      var s0 := q.stats.(maxDepth := Larger(q.stats.maxDepth, |q.items|));
      StepPushKeeps(q.world, q.items[0].id, Ctx(now, auth, q.demanded), s0);
    }
  }

  /** A drain keeps coherence, wiring and the graph, whether it ends idle or at the limit. */
  lemma DrainKeeps(q: Queue, now: ProductTime, auth: map<(Uid, Uid), Verdict>, handled: seq<Word>, budget: nat)
    requires Coherent(q.world)
    ensures var w' := Drain(q, now, auth, handled, budget).q.world;
      Coherent(w') && SameGraph(q.world, w') && (Wired(q.world) ==> Wired(w'))
  {
    var w := q.world;
    var inv := (p: Queue) => Coherent(p.world) && SameGraph(w, p.world) && (Wired(w) ==> Wired(p.world));
    forall p: Queue | p.world.Wf() && p.items != [] && inv(p) ensures inv(DrainStep(p, now, auth, handled)) {
      DrainStepKeeps(p, now, auth, handled);
      SameGraphTransitive(w, p.world, DrainStep(p, now, auth, handled).world);
    }
    var last := DrainInductionAny(q, now, auth, handled, budget, inv);
  }

  // ---- the clock ------------------------------------------------------------------------------

  /** No pair has been stamped later than the clock. */
  ghost predicate ClockAhead(reg: Registry, now: ProductTime) {
    forall p :: p in reg.meta ==> now.Dominates(reg.meta[p].lastSeen)
  }

  lemma StampedClock(reg: Registry, reg': Registry, n: Uid, to: seq<Uid>, now: ProductTime)
    requires ClockAhead(reg, now) && reg'.meta == Stamped(reg.meta, n, to, now)
    ensures ClockAhead(reg', now)
  {}

  lemma StepPushClock(w: World, n: Uid, ctx: Ctx, stats: Stats)
    requires w.Wf() && ClockAhead(w.reg, ctx.now)
    ensures ClockAhead(StepPush(w, n, ctx, stats).world.reg, ctx.now)
  {
    if n in w.nodes && w.nodes[n].kind.Computed? {
      StepEffect(w, n, ctx, stats);
      StampedClock(w.reg, StepPush(w, n, ctx, stats).world.reg, n, StepTo(w, n, ctx), ctx.now);
    }
  }

  lemma DrainStepClock(q: Queue, now: ProductTime, auth: map<(Uid, Uid), Verdict>, handled: seq<Word>)
    requires q.world.Wf() && q.items != [] && ClockAhead(q.world.reg, now)
    ensures ClockAhead(DrainStep(q, now, auth, handled).world.reg, now)
  {
    if q.items[0].Push? && !Handled(q.world, handled, q.items[0].id) {
      var s0 := q.stats.(maxDepth := Larger(q.stats.maxDepth, |q.items|));
      StepPushClock(q.world, q.items[0].id, Ctx(now, auth, q.demanded), s0);
    }
  }

  /** A drain stamps no pair later than its clock, whether it ends idle or at the limit. */
  lemma DrainClock(q: Queue, now: ProductTime, auth: map<(Uid, Uid), Verdict>, handled: seq<Word>, budget: nat)
    requires q.world.Wf() && ClockAhead(q.world.reg, now)
    ensures ClockAhead(Drain(q, now, auth, handled, budget).q.world.reg, now)
  {
    var inv := (p: Queue) => ClockAhead(p.world.reg, now);
    forall p: Queue | p.world.Wf() && p.items != [] && inv(p) ensures inv(DrainStep(p, now, auth, handled)) {
      DrainStepClock(p, now, auth, handled);
    }
    var last := DrainInductionAny(q, now, auth, handled, budget, inv);
  }
}
