/** What the statistics count. */
module Statistics {
  import opened Base
  import opened Bits
  import opened Ternary
  import opened Rules
  import opened Time
  import opened Isa
  import opened Deps
  import opened Propagation
  import opened StepFacts
  import opened Draining
  import opened StabilisationRounds
  import CounterPath

  function Fired(events: seq<PropEvent>): nat {
    if events == [] then 0 else Fired(events[..|events| - 1]) + (if events[|events| - 1].DemandFired? then 1 else 0)
  }

  lemma {:induction false} FiredAppend(a: seq<PropEvent>, b: seq<PropEvent>)
    ensures Fired(a + b) == Fired(a) + Fired(b)
    decreases |b|
  {
    if b == [] {
      assert a + b == a;
    } else {
      FiredAppend(a, b[..|b| - 1]);
      assert (a + b)[..|a + b| - 1] == a + b[..|b| - 1];
    }
  }

  lemma {:induction false} NoneFired(events: seq<PropEvent>)
    requires forall k :: 0 <= k < |events| ==> !events[k].DemandFired?
    ensures Fired(events) == 0
    decreases |events|
  {
    if events != [] { NoneFired(events[..|events| - 1]); }
  }

  // ---- the subscriber loop --------------------------------------------------------------------

  /** Every subscriber is queued, or counted once as held back by its stamp or by its mode; only those the authority
      refuses are neither. The other statistics stand. */
  lemma {:induction false} LoopAccounts(a: Acc, n: Uid, subs: seq<Uid>, ctx: Ctx)
    ensures var b := PushSubs(a, n, subs, ctx);
      && |b.work| + b.stats.byDelta + b.stats.byMode <= |a.work| + a.stats.byDelta + a.stats.byMode + |subs|
      && ((forall s :: s in subs ==> ctx.VerdictOf(n, s) != Deny) ==>
           |b.work| + b.stats.byDelta + b.stats.byMode == |a.work| + a.stats.byDelta + a.stats.byMode + |subs|)
      && b.stats == a.stats.(byDelta := b.stats.byDelta, byMode := b.stats.byMode)
    decreases |subs|
  {
    if subs != [] {
      assert subs == subs[..|subs| - 1] + [subs[|subs| - 1]];
      LoopAccounts(a, n, subs[..|subs| - 1], ctx);
    }
    hide Registry.Open;
  }

  /** The loops change neither the changes counted nor the demands. */
  lemma LoopsStand(a: Acc, n: Uid, subs: seq<Uid>, prior: T, next: T, ctx: Ctx)
    ensures var b := PushSubs(a, n, subs, ctx); b.stats.materialized == a.stats.materialized && b.stats.demandsFired == a.stats.demandsFired
    ensures var b := BumpAndPush(a, n, subs, prior, next, ctx);
      b.stats.materialized == a.stats.materialized && b.stats.demandsFired == a.stats.demandsFired
  {
    LoopAccounts(a, n, subs, ctx);
    CounterPath.BumpThenPush(a, n, subs, prior, next, ctx);
    LoopAccounts(a.(reg := BumpAll(a.reg, subs, prior, next)), n, subs, ctx);
  }

  lemma {:induction false} LoopFires(a: Acc, n: Uid, subs: seq<Uid>, ctx: Ctx)
    requires forall k :: 0 <= k < |a.events| ==> !a.events[k].DemandFired?
    ensures forall k :: 0 <= k < |PushSubs(a, n, subs, ctx).events| ==> !PushSubs(a, n, subs, ctx).events[k].DemandFired?
    decreases |subs|
  {
    if subs != [] { LoopFires(a, n, subs[..|subs| - 1], ctx); }
    hide Registry.Open;
  }

  // ---- a push ---------------------------------------------------------------------------------------

  /** The statistics moved by one change if there was one, and no demand fired. */
  ghost predicate Counted(o: Outcome, stats: Stats, changed: bool) {
    && o.stats.materialized == stats.materialized + (if changed then 1 else 0) && o.stats.demandsFired == stats.demandsFired
    && forall k :: 0 <= k < |o.events| ==> !o.events[k].DemandFired?
  }

  lemma BothLoops(a: Acc, n: Uid, subs: seq<Uid>, prior: T, next: T, ctx: Ctx)
    requires forall k :: 0 <= k < |a.events| ==> !a.events[k].DemandFired?
    ensures var b := PushSubs(a, n, subs, ctx);
      && b.stats.materialized == a.stats.materialized && b.stats.demandsFired == a.stats.demandsFired
      && forall k :: 0 <= k < |b.events| ==> !b.events[k].DemandFired?
    ensures var b := BumpAndPush(a, n, subs, prior, next, ctx);
      && b.stats.materialized == a.stats.materialized && b.stats.demandsFired == a.stats.demandsFired
      && forall k :: 0 <= k < |b.events| ==> !b.events[k].DemandFired?
  {
    LoopsStand(a, n, subs, prior, next, ctx);
    LoopFires(a, n, subs, ctx);
    CounterPath.BumpThenPush(a, n, subs, prior, next, ctx);
    LoopFires(a.(reg := BumpAll(a.reg, subs, prior, next)), n, subs, ctx);
  }

  lemma FastPosCounts(w: World, n: Uid, ctx: Ctx, stats: Stats)
    requires w.Wf() && n in w.nodes && w.nodes[n].kind.Computed? && FastPath(w, n) && w.reg.counters[n].Aggregate() == Pos
    ensures Counted(StepFast(w, n, ctx, stats), stats, Pos != w.nodes[n].value)
  {
    var prior, subs := w.nodes[n].value, Ascending(w.reg.SubsOf(n));
    var a := Acc(w.Put(n, Pos).reg, [ValueChanged(n, prior, Pos)], [], stats.(materialized := stats.materialized + 1));
    BothLoops(a, n, subs, prior, Pos, ctx);
    hide PushSubs, BumpAndPush, BumpAll, Ascending, Counters.Aggregate;
  }

  lemma FastZeroCounts(w: World, n: Uid, ctx: Ctx, stats: Stats)
    requires w.Wf() && n in w.nodes && w.nodes[n].kind.Computed? && FastPath(w, n) && w.reg.counters[n].Aggregate() == Zero
    ensures Counted(StepFast(w, n, ctx, stats), stats, Zero != w.nodes[n].value)
  {
    var prior, subs := w.nodes[n].value, Ascending(w.reg.SubsOf(n));
    var changed := Zero != prior;
    var w1 := if changed then w.Put(n, Zero) else w;
    var a := Acc(w1.reg, [BochvarInfected(n, None)] + (if changed then [ValueChanged(n, prior, Zero)] else []), [],
                 if changed then stats.(materialized := stats.materialized + 1) else stats);
    BothLoops(a, n, subs, prior, Zero, ctx);
    hide PushSubs, BumpAndPush, Ascending, Counters.Aggregate;
  }

  lemma FastCounts(w: World, n: Uid, ctx: Ctx, stats: Stats)
    requires w.Wf() && n in w.nodes && w.nodes[n].kind.Computed? && FastPath(w, n)
    ensures Counted(StepFast(w, n, ctx, stats), stats, StepNext(w, n) != w.nodes[n].value)
  {
    match w.reg.counters[n].Aggregate() {
      case Neg =>
      case Pos => FastPosCounts(w, n, ctx, stats);
      case Zero => FastZeroCounts(w, n, ctx, stats);
    }
    hide PushSubs, BumpAndPush, BumpAll, Ascending, Counters.Aggregate;
  }

  lemma ReadyCounts(w: World, n: Uid, ctx: Ctx, stats: Stats)
    requires w.Wf() && n in w.nodes && w.nodes[n].kind.Computed? && StateOf(w.DepVals(n)) != Conflicted
    ensures Counted(StepScan(w, n, ctx, stats), stats, ScanNext(w, n) != w.nodes[n].value)
  {
    var next, prior, subs := EvalOrNeg(w.nodes[n].kind.rule, w.DepVals(n)), w.nodes[n].value, Ascending(w.reg.SubsOf(n));
    var a := Acc(w.Put(n, next).reg, [ValueChanged(n, prior, next)], [], stats.(materialized := stats.materialized + 1));
    BothLoops(a, n, subs, prior, next, ctx);
    hide BumpAndPush, Ascending, EvalOrNeg, StateOf, World.DepVals;
  }

  lemma ConflictCounts(w: World, n: Uid, ctx: Ctx, stats: Stats)
    requires w.Wf() && n in w.nodes && w.nodes[n].kind.Computed? && StateOf(w.DepVals(n)) == Conflicted
    ensures Counted(StepScan(w, n, ctx, stats), stats, ScanNext(w, n) != w.nodes[n].value)
  {
    var prior, subs := w.nodes[n].value, Ascending(w.reg.SubsOf(n));
    var changed := Zero != prior;
    var w1 := if changed then w.Put(n, Zero) else w;
    var a := Acc(if changed then BumpAll(w1.reg, subs, prior, Zero) else w1.reg,
                 [BochvarInfected(n, None)] + (if changed then [ValueChanged(n, prior, Zero)] else []), [],
                 if changed then stats.(materialized := stats.materialized + 1) else stats);
    BothLoops(a, n, subs, prior, Zero, ctx);
    hide PushSubs, BumpAndPush, BumpAll, Ascending, StateOf, World.DepVals, EvalOrNeg, World.Put;
  }

  /** A push counts the change it reports, and only that. */
  lemma PushCounts(w: World, n: Uid, ctx: Ctx, stats: Stats)
    requires w.Wf()
    ensures var o := StepPush(w, n, ctx, stats);
      && o.stats.materialized == stats.materialized + |ChangesIn(o.events)|
      && o.stats.demandsFired == stats.demandsFired && Fired(o.events) == 0
  {
    if n in w.nodes && w.nodes[n].kind.Computed? {
      StepEffect(w, n, ctx, stats);
      if FastPath(w, n) { FastCounts(w, n, ctx, stats); } else if StateOf(w.DepVals(n)) == Conflicted { ConflictCounts(w, n, ctx, stats); } else { ReadyCounts(w, n, ctx, stats); }
      EffectCount(w, n, ctx, StepPush(w, n, ctx, stats));
      NoneFired(StepPush(w, n, ctx, stats).events);
      hide StepFast, StepScan, StepTo, StepExtra, Effect, ScanNext, FastPath, StateOf;
    }
  }

  lemma EffectCount(w: World, n: Uid, ctx: Ctx, o: Outcome)
    requires w.Wf() && n in w.nodes && w.nodes[n].kind.Computed? && Effect(w, n, ctx, o, StepNext(w, n), StepTo(w, n, ctx), StepExtra(w, n))
    ensures |ChangesIn(o.events)| == if StepNext(w, n) != w.nodes[n].value then 1 else 0
  {
    hide Stamped, Bumped, StepNext, StepTo, StepExtra, ChangesIn;
  }

  // ---- a drain ------------------------------------------------------------------------------------------

  /** From q0 on, the changes counted are the changes reported, and the demands counted the demands that fired. */
  ghost predicate Tallies(q0: Queue, q: Queue) {
    && q.stats.materialized + |ChangesIn(q0.events)| == q0.stats.materialized + |ChangesIn(q.events)|
    && q.stats.demandsFired + Fired(q0.events) == q0.stats.demandsFired + Fired(q.events)
  }

  lemma StepTallies(q0: Queue, q: Queue, now: ProductTime, auth: map<(Uid, Uid), Verdict>, handled: seq<Word>)
    requires q.world.Wf() && q.items != [] && Tallies(q0, q)
    ensures Tallies(q0, DrainStep(q, now, auth, handled))
  {
    var s0 := q.stats.(maxDepth := Larger(q.stats.maxDepth, |q.items|));
    match q.items[0] {
      case Push(id) =>
        if !Handled(q.world, handled, id) {
          var o := StepPush(q.world, id, Ctx(now, auth, q.demanded), s0);
          PushCounts(q.world, id, Ctx(now, auth, q.demanded), s0);
          ChangesInAppend(q.events, o.events);
          FiredAppend(q.events, o.events);
        }
      case DemandItem(id) =>
        ChangesInAppend(q.events, [DemandFired(id)]);
        FiredAppend(q.events, [DemandFired(id)]);
        OneEvent(DemandFired(id));
      case StabilizeItem(region) =>
        ChangesInAppend(q.events, [StabilizeQueued(region)]);
        FiredAppend(q.events, [StabilizeQueued(region)]);
        OneEvent(StabilizeQueued(region));
    }
    hide StepPush, ChangesIn, Fired, PendingDeps, Ascending;
  }

  lemma OneEvent(event: PropEvent)
    ensures |ChangesIn([event])| == (if event.ValueChanged? then 1 else 0) && Fired([event]) == if event.DemandFired? then 1 else 0
  {
    assert [event][..0] == [];
  }

  /** However a drain ends, its statistics count what it reports. */
  lemma DrainTallies(q: Queue, now: ProductTime, auth: map<(Uid, Uid), Verdict>, handled: seq<Word>, budget: nat)
    requires q.world.Wf()
    ensures Tallies(q, Drain(q, now, auth, handled, budget).q)
  {
    var inv := (p: Queue) => Tallies(q, p);
    forall p: Queue | p.world.Wf() && p.items != [] && inv(p) ensures inv(DrainStep(p, now, auth, handled)) {
      StepTallies(q, p, now, auth, handled);
    }
    hide DrainStep;
    var last := DrainInductionAny(q, now, auth, handled, budget, inv);
  }
}
