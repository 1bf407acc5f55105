/** The gate in front of a subscriber, stated by dimensions: what a pair observes and when it was last
    stamped decide whether a push or a write reaches the subscriber. */
module PushGate {
  import opened Base
  import opened Ternary
  import opened Time
  import opened Isa
  import opened ValueStores
  import opened Deps
  import opened Propagation
  import opened StepFacts
  import opened Draining
  import opened Coherence
  import opened Writes
  import opened EngineModel
  import opened EngineValues
  import opened EngineInvariant
  import opened EngineRuns

  /** The clock has passed the stamp in an observed dimension. */
  ghost predicate Passed(m: DepMeta, now: ProductTime) { exists d :: d in m.mask && m.lastSeen.Get(d) < now.Get(d) }

  /** In every observed dimension the stamp is at the clock or ahead of it. */
  ghost predicate Shut(m: DepMeta, now: ProductTime) { forall d :: d in m.mask ==> now.Get(d) <= m.lastSeen.Get(d) }

  /** sub is let through by n's pair, its mode or a demand on it, and the authority. */
  ghost predicate LetThrough(reg: Registry, n: Uid, sub: Uid, ctx: Ctx) {
    && ((n, sub) in reg.meta ==> Passed(reg.meta[(n, sub)], ctx.now))
    && (reg.ModeOf(sub) == Eager || sub in ctx.demanded) && ctx.VerdictOf(n, sub) != Deny
  }

  lemma AcceptsIsLetThrough(reg: Registry, n: Uid, sub: Uid, ctx: Ctx)
    ensures Accepts(reg, n, sub, ctx) <==> LetThrough(reg, n, sub, ctx)
  {}

  // ---- one step ------------------------------------------------------------------------------

  /** The pushes and stamps out of n are exactly those of the subscribers that are let through. */
  ghost predicate GatedOut(reg: Registry, reg': Registry, n: Uid, work: seq<WorkItem>, ctx: Ctx) {
    && (forall s :: Push(s) in work ==> s in reg.SubsOf(n) && LetThrough(reg, n, s, ctx))
    && forall p :: p in reg.meta ==>
         && p in reg'.meta
         && reg'.meta[p] == if p.0 == n && Push(p.1) in work then reg.meta[p].(lastSeen := reg.meta[p].lastSeen.Join(ctx.now))
                            else reg.meta[p]
  }

  lemma QueuedIs(to: seq<Uid>, extra: seq<WorkItem>)
    requires extra == [] || (|extra| == 1 && extra[0].StabilizeItem?)
    ensures forall s :: Push(s) in Pushes(to) + extra <==> s in to
  {
    PushesElements(to);
    forall s ensures Push(s) in Pushes(to) + extra <==> s in to { assert Push(s) in Pushes(to) <==> s in to; }
  }

  lemma StampedGated(reg: Registry, reg': Registry, n: Uid, work: seq<WorkItem>, to: seq<Uid>, ctx: Ctx)
    requires reg'.meta == Stamped(reg.meta, n, to, ctx.now) && forall s :: Push(s) in work <==> s in to
    requires forall s :: s in to ==> s in reg.SubsOf(n) && LetThrough(reg, n, s, ctx)
    ensures GatedOut(reg, reg', n, work, ctx)
  {
    hide LetThrough;
  }

  lemma EffectParts(w: World, n: Uid, ctx: Ctx, o: Outcome, next: T, to: seq<Uid>, extra: seq<WorkItem>)
    requires w.Wf() && n in w.nodes && Effect(w, n, ctx, o, next, to, extra)
    ensures o.world.reg.meta == Stamped(w.reg.meta, n, to, ctx.now) && o.work == Pushes(to) + extra
  {
    hide Stamped, Bumped, Ascending, ChangesIn, Pushes;
  }

  lemma EffectGated(w: World, n: Uid, ctx: Ctx, o: Outcome, next: T, to: seq<Uid>, extra: seq<WorkItem>)
    requires w.Wf() && n in w.nodes && Effect(w, n, ctx, o, next, to, extra)
    requires to == [] || to == Accepted(w.reg, n, Ascending(w.reg.SubsOf(n)), ctx)
    requires extra == [] || (|extra| == 1 && extra[0].StabilizeItem?)
    ensures GatedOut(w.reg, o.world.reg, n, o.work, ctx)
    ensures forall s :: Push(s) in o.work <==> s in to
  {
    hide *;
    AllAccepted(w.reg, n, ctx);
    EffectParts(w, n, ctx, o, next, to, extra);
    QueuedIs(to, extra);
    StampedGated(w.reg, o.world.reg, n, o.work, to, ctx);
  }

  /** A push queues and stamps only subscribers that are let through; if it pushes at all, all of them. */
  lemma PushIsGated(w: World, n: Uid, ctx: Ctx, stats: Stats)
    requires w.Wf() && n in w.nodes && w.nodes[n].kind.Computed?
    ensures var o := StepPush(w, n, ctx, stats);
      && GatedOut(w.reg, o.world.reg, n, o.work, ctx)
      && (StepPushes(w, n) ==> forall s :: s in w.reg.SubsOf(n) && LetThrough(w.reg, n, s, ctx) ==> Push(s) in o.work)
  {
    StepEffect(w, n, ctx, stats);
    EffectGated(w, n, ctx, StepPush(w, n, ctx, stats), StepNext(w, n), StepTo(w, n, ctx), StepExtra(w, n));
    AllAccepted(w.reg, n, ctx);
    hide Effect, StepPush, GatedOut, LetThrough;
  }

  lemma AllAccepted(reg: Registry, n: Uid, ctx: Ctx)
    ensures forall s :: s in Accepted(reg, n, Ascending(reg.SubsOf(n)), ctx) <==> s in reg.SubsOf(n) && LetThrough(reg, n, s, ctx)
  {
    AscendingElements(reg.SubsOf(n));
    AcceptedElements(reg, n, Ascending(reg.SubsOf(n)), ctx);
    forall s ensures Accepts(reg, n, s, ctx) <==> LetThrough(reg, n, s, ctx) { AcceptsIsLetThrough(reg, n, s, ctx); }
    hide LetThrough, Accepts;
  }

  /** A write of another value queues and stamps exactly the subscribers that are let through. */
  lemma WriteIsGated(w: World, n: Uid, v: T, now: ProductTime)
    requires w.Wf() && n in w.nodes && v != w.nodes[n].value
    ensures GatedOut(w.reg, WriteWorld(w, n, v, now).reg, n, WriteItems(w, n, v, now), WriteCtx(now))
    ensures forall s :: Push(s) in WriteItems(w, n, v, now) <==> s in w.reg.SubsOf(n) && LetThrough(w.reg, n, s, WriteCtx(now))
  {
    var ctx := WriteCtx(now);
    var o := Outcome(WriteWorld(w, n, v, now), Some(v), [ValueChanged(n, w.nodes[n].value, v)], WriteItems(w, n, v, now), NO_STATS);
    WriteEffect(w, n, v, now);
    EffectGated(w, n, ctx, o, v, Accepted(w.reg, n, Ascending(w.reg.SubsOf(n)), ctx), []);
    AllAccepted(w.reg, n, ctx);
    hide Effect, GatedOut, LetThrough, WriteWorld, WriteItems;
  }

  /** Neither a push nor a write reaches or stamps a subscriber that observes nothing new. */
  lemma ShutStaysShut(reg: Registry, reg': Registry, n: Uid, work: seq<WorkItem>, ctx: Ctx, s: Uid)
    requires GatedOut(reg, reg', n, work, ctx) && (n, s) in reg.meta && Shut(reg.meta[(n, s)], ctx.now)
    ensures Push(s) !in work && (n, s) in reg'.meta && reg'.meta[(n, s)] == reg.meta[(n, s)]
  {}

  // ---- the audit ------------------------------------------------------------------------------

  /** The event reports a push over a pair that the authority lets through under protest. */
  ghost predicate Audited(reg: Registry, n: Uid, subs: seq<Uid>, ctx: Ctx, event: PropEvent) {
    event.AuthViolation? && event.src == n && event.tgt in subs && LetThrough(reg, n, event.tgt, ctx) && ctx.VerdictOf(n, event.tgt) == AllowLogged
  }

  lemma AuditedNext(reg: Registry, n: Uid, front: seq<Uid>, last: Uid, ctx: Ctx, event: PropEvent)
    ensures Audited(reg, n, front + [last], ctx, event) <==>
      Audited(reg, n, front, ctx, event) || (event == AuthViolation(n, last) && LetThrough(reg, n, last, ctx) && ctx.VerdictOf(n, last) == AllowLogged)
  {
    assert event.AuthViolation? ==> (event.tgt in front + [last] <==> event.tgt in front || event.tgt == last);
    hide LetThrough;
  }

  lemma PushSubAudits(b: Acc, reg: Registry, n: Uid, s: Uid, ctx: Ctx)
    requires b.reg.modes == reg.modes && ((n, s) in b.reg.meta <==> (n, s) in reg.meta) && ((n, s) in reg.meta ==> b.reg.meta[(n, s)] == reg.meta[(n, s)])
    ensures PushSub(b, n, s, ctx).events
         == b.events + (if LetThrough(reg, n, s, ctx) && ctx.VerdictOf(n, s) == AllowLogged then [AuthViolation(n, s)] else [])
  {
    AcceptsIsLetThrough(reg, n, s, ctx);
    assert b.events + [] == b.events;
    hide LetThrough;
  }

  /** A subscriber loop reports exactly the pushes it lets through under protest. */
  lemma {:induction false} LoopAudits(a: Acc, n: Uid, subs: seq<Uid>, ctx: Ctx)
    requires Distinct(subs)
    ensures var b := PushSubs(a, n, subs, ctx);
      a.events <= b.events && forall event :: event in b.events[|a.events|..] <==> Audited(a.reg, n, subs, ctx, event)
    decreases |subs|
  {
    if subs == [] {
      assert a.events[|a.events|..] == [];
    } else {
      LastIsFresh(subs);
      var front, last := subs[..|subs| - 1], subs[|subs| - 1];
      assert subs == front + [last];
      var b := PushSubs(a, n, front, ctx);
      LoopAudits(a, n, front, ctx);
      PushSubsResult(a, n, front, ctx);
      AcceptedElements(a.reg, n, front, ctx);
      var more: seq<PropEvent> := if LetThrough(a.reg, n, last, ctx) && ctx.VerdictOf(n, last) == AllowLogged then [AuthViolation(n, last)] else [];
      PushSubAudits(b, a.reg, n, last, ctx);
      assert PushSubs(a, n, subs, ctx) == PushSub(b, n, last, ctx);
      assert (b.events + more)[|a.events|..] == b.events[|a.events|..] + more;
      hide PushSub, PushSubs, LetThrough, Accepted, Audited;
      forall event ensures event in b.events[|a.events|..] + more <==> Audited(a.reg, n, subs, ctx, event) {
        AuditedNext(a.reg, n, front, last, ctx, event);
      }
    }
  }

  // ---- a masked subscriber, through `apply` -----------------------------------------------------

  /** Every pair into m is shut at this time. */
  ghost predicate ShutIn(reg: Registry, m: Uid, now: ProductTime) {
    forall s :: (s, m) in reg.meta ==> Shut(reg.meta[(s, m)], now)
  }

  /** m and the pairs into it stand, and the pairs are shut. */
  ghost predicate Around(w: World, m: Uid, w': World, now: ProductTime)
    requires m in w.nodes
  {
    && Coherent(w') && SameGraph(w, w') && NoneStabilizing(w'.reg)
    && w'.nodes[m] == w.nodes[m] && ShutIn(w'.reg, m, now) && SameInto(w.reg, w'.reg, m)
  }

  /** Only pushes of other nodes are queued. */
  predicate PushesOthers(items: seq<WorkItem>, m: Uid) { forall k :: 0 <= k < |items| ==> items[k].Push? && items[k].id != m }

  predicate Unreported(events: seq<PropEvent>, m: Uid) {
    forall k :: 0 <= k < |events| ==> !(events[k].ValueChanged? && events[k].node == m)
  }

  /** While the write is drained. */
  ghost predicate Bypassed(w: World, m: Uid, q: Queue, now: ProductTime)
    requires m in w.nodes
  {
    Around(w, m, q.world, now) && PushesOthers(q.items, m) && Unreported(q.events, m)
  }

  ghost predicate SameInto(reg: Registry, reg': Registry, m: Uid) {
    forall s :: (s, m) in reg.meta ==> (s, m) in reg'.meta && reg'.meta[(s, m)] == reg.meta[(s, m)]
  }

  lemma GatedShut(reg: Registry, reg': Registry, n: Uid, work: seq<WorkItem>, ctx: Ctx, m: Uid)
    requires GatedOut(reg, reg', n, work, ctx) && ShutIn(reg, m, ctx.now) && Related(reg) && reg'.meta.Keys == reg.meta.Keys
    ensures Push(m) !in work && ShutIn(reg', m, ctx.now) && SameInto(reg, reg', m)
  {
    if Push(m) in work {
      assert m in reg.SubsOf(n) && (n, m) in reg.meta;
      ShutStaysShut(reg, reg', n, work, ctx, m);
    }
    forall s | (s, m) in reg.meta ensures reg'.meta[(s, m)] == reg.meta[(s, m)] {
      if s == n { ShutStaysShut(reg, reg', n, work, ctx, m); }
    }
    hide LetThrough, Shut;
  }

  /** What a push of another node does to m. */
  lemma PushBypasses(w: World, n: Uid, m: Uid, ctx: Ctx, stats: Stats)
    requires Coherent(w) && NoneStabilizing(w.reg) && m in w.nodes && n != m && ShutIn(w.reg, m, ctx.now)
    ensures var o := StepPush(w, n, ctx, stats);
      && Coherent(o.world) && SameGraph(w, o.world) && o.world.nodes[m] == w.nodes[m]
      && ShutIn(o.world.reg, m, ctx.now) && SameInto(w.reg, o.world.reg, m) && NoneStabilizing(o.world.reg)
      && PushesOthers(o.work, m) && Unreported(o.events, m)
  {
    var o := StepPush(w, n, ctx, stats);
    StepPushKeeps(w, n, ctx, stats);
    StepPushCalm(w, n, ctx, stats);
    if n in w.nodes && w.nodes[n].kind.Computed? {
      PushIsGated(w, n, ctx, stats);
      GatedShut(w.reg, o.world.reg, n, o.work, ctx, m);
      StepEffect(w, n, ctx, stats);
      OwnChanges(o.events, n, m, w.nodes[n].value, StepNext(w, n));
      OthersOnly(o.work, m);
      hide GatedOut, ShutIn, SameInto, StepPush, Coherent, StepTo, StepExtra, StepNext, StepPushes, Bumped;
    }
  }

  lemma OthersOnly(work: seq<WorkItem>, m: Uid)
    requires AllPushes(work) && Push(m) !in work
    ensures PushesOthers(work, m)
  {
    forall k | 0 <= k < |work| ensures work[k].Push? && work[k].id != m {
      assert work[k] in work && work[k] == Push(work[k].id);
    }
  }

  lemma {:induction false} OwnChanges(events: seq<PropEvent>, n: Uid, m: Uid, prior: T, next: T)
    requires ChangesIn(events) == ReportOf(n, prior, next) && n != m
    ensures Unreported(events, m)
  {
    forall k | 0 <= k < |events| && events[k].ValueChanged? ensures events[k].node != m {
      InChanges(events, k);
    }
  }

  lemma {:induction false} InChanges(events: seq<PropEvent>, k: nat)
    requires k < |events| && events[k].ValueChanged?
    ensures events[k] in ChangesIn(events)
    decreases |events|
  {
    if k < |events| - 1 { InChanges(events[..|events| - 1], k); }
  }

  lemma AroundNext(w: World, m: Uid, w1: World, w2: World, now: ProductTime)
    requires m in w.nodes && Around(w, m, w1, now) && m in w1.nodes && Around(w1, m, w2, now)
    ensures Around(w, m, w2, now)
  {
    SameGraphTransitive(w, w1, w2);
    hide Coherent, SameGraph, ShutIn, NoneStabilizing;
  }

  lemma StepBypasses(w: World, m: Uid, q: Queue, now: ProductTime, auth: map<(Uid, Uid), Verdict>)
    requires m in w.nodes && Bypassed(w, m, q, now) && q.items != [] && q.world.Wf()
    ensures Bypassed(w, m, DrainStep(q, now, auth, []), now)
  {
    hide *;
    BypassedParts(w, m, q, now);
    var id, ctx := q.items[0].id, Ctx(now, auth, q.demanded);
    var s0 := q.stats.(maxDepth := Larger(q.stats.maxDepth, |q.items|));
    var o := StepPush(q.world, id, ctx, s0);
    PushAround(q.world, id, m, ctx, s0);
    AroundNext(w, m, q.world, o.world, now);
    PushStepIs(q, now, auth);
    BypassedNext(w, m, q, o, DrainStep(q, now, auth, []), now);
  }

  lemma BypassedParts(w: World, m: Uid, q: Queue, now: ProductTime)
    requires m in w.nodes && Bypassed(w, m, q, now) && q.items != []
    ensures Around(w, m, q.world, now) && q.items[0].Push? && q.items[0].id != m
    ensures m in q.world.nodes && Coherent(q.world) && NoneStabilizing(q.world.reg) && ShutIn(q.world.reg, m, now)
  {
    hide Coherent, ShutIn;
  }

  lemma PushAround(w: World, n: Uid, m: Uid, ctx: Ctx, stats: Stats)
    requires Coherent(w) && w.Wf() && NoneStabilizing(w.reg) && m in w.nodes && n != m && ShutIn(w.reg, m, ctx.now)
    ensures var o := StepPush(w, n, ctx, stats);
      Around(w, m, o.world, ctx.now) && PushesOthers(o.work, m) && Unreported(o.events, m)
  {
    PushBypasses(w, n, m, ctx, stats);
    hide Coherent, SameGraph, StepPush, ShutIn, NoneStabilizing, SameInto;
  }

  /** A step that pushes, when nothing is handled. */
  lemma PushStepIs(q: Queue, now: ProductTime, auth: map<(Uid, Uid), Verdict>)
    requires q.world.Wf() && q.items != [] && q.items[0].Push?
    ensures var q' := DrainStep(q, now, auth, []);
      var o := StepPush(q.world, q.items[0].id, Ctx(now, auth, q.demanded), q.stats.(maxDepth := Larger(q.stats.maxDepth, |q.items|)));
      q'.world == o.world && q'.items == q.items[1..] + o.work && q'.events == q.events + o.events
  {
    assert !Handled(q.world, [], q.items[0].id);
    hide StepPush;
  }

  lemma BypassedNext(w: World, m: Uid, q: Queue, o: Outcome, q': Queue, now: ProductTime)
    requires m in w.nodes && Bypassed(w, m, q, now) && q.items != [] && Around(w, m, o.world, now)
    requires PushesOthers(o.work, m) && Unreported(o.events, m)
    requires q'.world == o.world && q'.items == q.items[1..] + o.work && q'.events == q.events + o.events
    ensures Bypassed(w, m, q', now)
  {
    hide Around;
  }

  lemma DrainBypasses(w: World, m: Uid, q: Queue, now: ProductTime, auth: map<(Uid, Uid), Verdict>, budget: nat)
    requires m in w.nodes && Bypassed(w, m, q, now) && q.world.Wf() && Drain(q, now, auth, [], budget).Idle?
    ensures Bypassed(w, m, Drain(q, now, auth, [], budget).q, now)
  {
    hide Drain, Around, PushesOthers, Unreported;
    var inv := (p: Queue) => Bypassed(w, m, p, now);
    forall p: Queue | p.world.Wf() && p.items != [] && inv(p) ensures inv(DrainStep(p, now, auth, [])) {
      StepBypasses(w, m, p, now, auth);
    }
    var last := DrainInduction(q, now, auth, [], budget, inv);
  }

  /** No pair into m observes the attribute dimension, and in what the pairs do observe they are stamped up
      to the clock. */
  ghost predicate Masked(e: EngineState, m: Uid) {
    && m in e.world.nodes
    && forall s :: (s, m) in e.world.reg.meta ==>
         Attribute !in e.world.reg.meta[(s, m)].mask && Shut(e.world.reg.meta[(s, m)], e.now)
  }

  /** A tick of the attribute dimension opens none of them. */
  lemma MaskedShut(e: EngineState, m: Uid)
    requires Masked(e, m)
    ensures ShutIn(e.world.reg, m, e.now.Advance(Attribute))
  {
    forall s | (s, m) in e.world.reg.meta ensures Shut(e.world.reg.meta[(s, m)], e.now.Advance(Attribute)) {
      forall d | d in e.world.reg.meta[(s, m)].mask ensures e.now.Advance(Attribute).Get(d) == e.now.Get(d) {}
    }
  }

  lemma WriteBypasses(w: World, n: Uid, v: T, m: Uid, now: ProductTime, stats: Stats)
    requires Coherent(w) && NoneStabilizing(w.reg) && n in w.nodes && m in w.nodes && n != m && v != w.nodes[n].value
    requires ShutIn(w.reg, m, now)
    ensures Bypassed(w, m, WriteQueue(w, n, v, now, stats), now) && WriteQueue(w, n, v, now, stats).world.Wf()
  {
    var w', work := WriteWorld(w, n, v, now), WriteItems(w, n, v, now);
    WriteKeeps(w, n, v, now);
    WriteIsGated(w, n, v, now);
    GatedShut(w.reg, w'.reg, n, work, WriteCtx(now), m);
    LoopsCalm(Acc(w.reg, [], [], NO_STATS), n, Ascending(w.reg.SubsOf(n)), w.nodes[n].value, v, WriteCtx(now));
    assert AllPushes(work);
    hide GatedOut, ShutIn, LetThrough, BumpAndPush, PushSubs;
    OthersOnly(work, m);
  }

  /** m's node and the pairs into it are as they were, and m is reported nowhere. */
  ghost predicate LeftAlone(e: EngineState, r: Reply, m: Uid)
    requires m in e.world.nodes
  {
    && m in r.e.world.nodes && r.e.world.nodes[m] == e.world.nodes[m] && SameInto(e.world.reg, r.e.world.reg, m)
    && (r.Done? ==> Unreported(r.events, m))
  }

  /** A subscriber that no pair lets through keeps its value and version over any `SetValue` of another
      node, unreported; and the mask goes on holding. */
  lemma MaskedKeepsValue(e: EngineState, n: Uid, v: T, m: Uid, ch: Choices)
    requires AtRest(e) && Masked(e, m) && n in e.world.nodes && n != m
    ensures var r := Call(e, SetValue(n, v), ch);
      r.Done? && AtRest(r.e) && LeftAlone(e, r, m) && Masked(r.e, m) && r.e.world.nodes.Keys == e.world.nodes.Keys
  {
    if v == e.world.nodes[n].value {
      SameValueCall(e, n, v, ch);
      hide Call, AtRest, Shut;
    } else {
      var now := e.now.Advance(Attribute);
      MaskedShut(e, m);
      WriteIsOneDrain(e, n, v, ch);
      RestIsCoherent(e);
      hide *;
      WriteBypasses(e.world, n, v, m, now, e.stats);
      WrittenBypasses(e, n, v, m, ch);
    }
  }

  lemma RestIsCoherent(e: EngineState)
    requires AtRest(e)
    ensures Coherent(e.world) && NoneStabilizing(e.world.reg) && e.world.Wf() && Inv(e)
  {}

  lemma WrittenBypasses(e: EngineState, n: Uid, v: T, m: Uid, ch: Choices)
    requires Inv(e) && Masked(e, m) && n in e.world.nodes && v != e.world.nodes[n].value
    requires WriteDrain(e, n, v, ch.auth).Idle? && Served(e, Call(e, SetValue(n, v), ch), WriteDrain(e, n, v, ch.auth).q)
    requires var q := WriteQueue(e.world, n, v, e.now.Advance(Attribute), e.stats);
      q.world.Wf() && Bypassed(e.world, m, q, e.now.Advance(Attribute))
    ensures var r := Call(e, SetValue(n, v), ch);
      r.Done? && AtRest(r.e) && LeftAlone(e, r, m) && Masked(r.e, m) && r.e.world.nodes.Keys == e.world.nodes.Keys
  {
    var now := e.now.Advance(Attribute);
    var q0 := WriteQueue(e.world, n, v, now, e.stats);
    DrainBypasses(e.world, m, q0, now, ch.auth, e.maxSteps);
    var q := WriteDrain(e, n, v, ch.auth).q;
    assert q == Drain(q0, now, ch.auth, [], e.maxSteps).q;
    BypassedMasked(e, Call(e, SetValue(n, v), ch), m, q);
  }

  lemma BypassedMasked(e: EngineState, r: Reply, m: Uid, q: Queue)
    requires Masked(e, m) && Bypassed(e.world, m, q, e.now.Advance(Attribute)) && Served(e, r, q)
    ensures r.Done? && AtRest(r.e) && LeftAlone(e, r, m) && Masked(r.e, m) && r.e.world.nodes.Keys == e.world.nodes.Keys
  {
    assert r.e.world == q.world && r.events == q.events;
    forall s | (s, m) in r.e.world.reg.meta
      ensures Attribute !in r.e.world.reg.meta[(s, m)].mask && Shut(r.e.world.reg.meta[(s, m)], r.e.now)
    {
      assert (s, m) in e.world.reg.meta;
    }
    hide AtRest, Coherent;
  }

  /** Over any sequence of writes to other nodes. */
  lemma MaskedRunKeepsValue(states: seq<EngineState>, writes: seq<(Uid, T)>, choices: seq<Choices>, m: Uid)
    requires |states| == |writes| + 1 == |choices| + 1 && AtRest(states[0]) && Masked(states[0], m)
    requires forall i :: 0 <= i < |writes| ==> writes[i].0 in states[0].world.nodes && writes[i].0 != m
    requires forall i :: 0 <= i < |writes| ==> WriteCall(states[i], writes[i].0, writes[i].1, choices[i], states[i + 1])
    ensures m in states[0].world.nodes && m in states[|writes|].world.nodes
    ensures states[|writes|].world.nodes[m] == states[0].world.nodes[m]
  {
    hide AtRest, Masked, WriteCall;
    MaskedLives(states[0], m);
    for k := 0 to |writes|
      invariant AtRest(states[k]) && Masked(states[k], m) && states[k].world.nodes.Keys == states[0].world.nodes.Keys
      invariant m in states[k].world.nodes && states[k].world.nodes[m] == states[0].world.nodes[m]
    {
      MaskedNext(states[k], writes[k].0, writes[k].1, m, choices[k], states[k + 1]);
    }
  }

  ghost predicate WriteCall(e: EngineState, n: Uid, v: T, ch: Choices, e': EngineState) {
    Inv(e) && e' == Call(e, SetValue(n, v), ch).e
  }

  lemma MaskedLives(e: EngineState, m: Uid)
    requires Masked(e, m)
    ensures m in e.world.nodes
  {}

  lemma MaskedNext(e: EngineState, n: Uid, v: T, m: Uid, ch: Choices, e': EngineState)
    requires AtRest(e) && Masked(e, m) && n in e.world.nodes && n != m && WriteCall(e, n, v, ch, e')
    ensures AtRest(e') && Masked(e', m) && e'.world.nodes.Keys == e.world.nodes.Keys
    ensures m in e.world.nodes && m in e'.world.nodes && e'.world.nodes[m] == e.world.nodes[m]
  {
    MaskedKeepsValue(e, n, v, m, ch);
    hide AtRest, Call, Shut;
  }

  /** A label whose projection leaves out the attribute and identity dimensions masks a subscriber that reads nothing
      else, once the pair is stamped in what the label does observe. */
  lemma LabelMasks(e: EngineState, n: Uid, m: Uid, edgeLabel: EdgeLabel, ch: Choices)
    requires AtRest(e) && m in e.world.nodes && (n, m) in e.world.reg.meta && forall s :: (s, m) in e.world.reg.meta ==> s == n
    requires var dims := edgeLabel.projectionMask.dims;
      && Attribute !in dims && TimeDim.Identity !in dims
      && forall d :: d in dims ==> e.now.Get(d) <= e.world.reg.meta[(n, m)].lastSeen.Get(d)
    ensures var r := Call(e, SetEdgeLabel(n, m, edgeLabel), ch); r.Done? && AtRest(r.e) && Masked(r.e, m)
  {
    var reg := e.world.reg.SetMask(n, m, edgeLabel.projectionMask.dims);
    LabelCall(e, n, m, edgeLabel, ch);
    LabelKeeps(e, n, m, edgeLabel, ch);
    hide Call, AtRest;
    LabelledMasked(e, n, m, edgeLabel.projectionMask.dims);
  }

  lemma LabelCall(e: EngineState, n: Uid, m: Uid, edgeLabel: EdgeLabel, ch: Choices)
    requires Inv(e)
    ensures var e1 := e.(events := []).WithReg(e.world.reg.SetMask(n, m, edgeLabel.projectionMask.dims)).Log(TimeDim.Identity);
      Call(e, SetEdgeLabel(n, m, edgeLabel), ch) == Done(e1, [])
  {
    InvReady(e);
    hide Inv, ApplyValues;
  }

  lemma LabelKeeps(e: EngineState, n: Uid, m: Uid, edgeLabel: EdgeLabel, ch: Choices)
    requires AtRest(e)
    ensures AtRest(e.(events := []).WithReg(e.world.reg.SetMask(n, m, edgeLabel.projectionMask.dims)).Log(TimeDim.Identity))
  {
    var e0, dims := e.(events := []), edgeLabel.projectionMask.dims;
    OnlyQueues(e, e0);
    SetMaskInv(e0, n, m, dims);
    LogKeeps(e0.WithReg(e.world.reg.SetMask(n, m, dims)), TimeDim.Identity);
    assert e.world.reg.SetMask(n, m, dims).meta.Keys == e.world.reg.meta.Keys;
    assert |e.world.reg.SetMask(n, m, dims).meta| == |e.world.reg.SetMask(n, m, dims).meta.Keys| == |e.world.reg.meta.Keys| == |e.world.reg.meta|;
    hide Inv;
  }

  lemma LabelledMasked(e: EngineState, n: Uid, m: Uid, dims: set<TimeDim>)
    requires m in e.world.nodes && (n, m) in e.world.reg.meta && forall s :: (s, m) in e.world.reg.meta ==> s == n
    requires Attribute !in dims && TimeDim.Identity !in dims
    requires forall d :: d in dims ==> e.now.Get(d) <= e.world.reg.meta[(n, m)].lastSeen.Get(d)
    ensures Masked(e.(events := []).WithReg(e.world.reg.SetMask(n, m, dims)).Log(TimeDim.Identity), m)
  {
    forall d | d in dims ensures e.now.Advance(TimeDim.Identity).Get(d) == e.now.Get(d) {}
  }
}
