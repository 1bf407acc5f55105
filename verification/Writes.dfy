/** An external write: the value, the counters and the first pushes, before the queue is drained. */
module Writes {
  import opened Base
  import opened Ternary
  import opened Time
  import opened Isa
  import opened ValueStores
  import opened Deps
  import opened Propagation
  import opened StepFacts
  import opened Draining
  import opened Coherence
  import CounterPath

  /** The subscriber loop of an external write: no demands are open and no authority is asked. */
  function WriteCtx(now: ProductTime): Ctx { Ctx(now, map[], {}) }

  /** The registry and the pushes after n moved from prior to next. */
  function Notify(reg: Registry, n: Uid, prior: T, next: T, now: ProductTime): Acc {
    BumpAndPush(Acc(reg, [], [], NO_STATS), n, Ascending(reg.SubsOf(n)), prior, next, WriteCtx(now))
  }

  /** The world after the write and its notifications. */
  function WriteWorld(w: World, n: Uid, v: T, now: ProductTime): World
    requires w.Wf() && n in w.nodes
  {
    w.Put(n, v).(reg := Notify(w.reg, n, w.nodes[n].value, v, now).reg)
  }

  function WriteItems(w: World, n: Uid, v: T, now: ProductTime): seq<WorkItem>
    requires n in w.nodes
  {
    Notify(w.reg, n, w.nodes[n].value, v, now).work
  }

  /** A write has the effect of a push step: value, counters, stamps and the accepted pushes. */
  lemma WriteEffect(w: World, n: Uid, v: T, now: ProductTime)
    requires w.Wf() && n in w.nodes && v != w.nodes[n].value
    ensures var prior, ctx := w.nodes[n].value, WriteCtx(now);
      Effect(w, n, ctx, Outcome(WriteWorld(w, n, v, now), Some(v), [ValueChanged(n, prior, v)], WriteItems(w, n, v, now), NO_STATS),
             v, Accepted(w.reg, n, Ascending(w.reg.SubsOf(n)), ctx), [])
  {
    var prior, subs, ctx := w.nodes[n].value, Ascending(w.reg.SubsOf(n)), WriteCtx(now);
    var a := Acc(w.reg, [], [], NO_STATS);
    var a1 := a.(reg := BumpAll(w.reg, subs, prior, v));
    CounterPath.BumpThenPush(a, n, subs, prior, v, ctx);
    AscendingDistinct(w.reg.SubsOf(n));
    BumpAllResult(w.reg, subs, prior, v);
    AcceptedFrame(a1.reg, w.reg, n, subs, ctx);
    PushSubsResult(a1, n, subs, ctx);
    SingleReport(n, prior, v);
    assert Pushes(Accepted(w.reg, n, subs, ctx)) + [] == Pushes(Accepted(w.reg, n, subs, ctx));
  }

  lemma WriteKeeps(w: World, n: Uid, v: T, now: ProductTime)
    requires Coherent(w) && n in w.nodes && v != w.nodes[n].value
    ensures var w' := WriteWorld(w, n, v, now); Coherent(w') && SameGraph(w, w') && (Wired(w) ==> Wired(w'))
  {
    var w', ctx := WriteWorld(w, n, v, now), WriteCtx(now);
    WriteEffect(w, n, v, now);
    var o := Outcome(w', Some(v), [ValueChanged(n, w.nodes[n].value, v)], WriteItems(w, n, v, now), NO_STATS);
    EffectWrote(w, n, ctx, o, v, Accepted(w.reg, n, Ascending(w.reg.SubsOf(n)), ctx), []);
    WroteCoherent(w, w', n, v);
    WroteSameGraph(w, w', n, v);
    if Wired(w) { WroteWired(w, w', n, v); }
  }

  /** The queue a write leaves, ready to drain. */
  function WriteQueue(w: World, n: Uid, v: T, now: ProductTime, stats: Stats): Queue
    requires w.Wf() && n in w.nodes
  {
    Queue(WriteWorld(w, n, v, now), WriteItems(w, n, v, now), [ValueChanged(n, w.nodes[n].value, v)], stats, {}, 0)
  }

  lemma WriteMeasure(w: World, n: Uid, v: T, now: ProductTime, stats: Stats)
    requires Coherent(w) && n in w.nodes && v != w.nodes[n].value
    ensures forall item :: item in WriteQueue(w, n, v, now, stats).items ==> item.Push?
    ensures Measure(WriteQueue(w, n, v, now, stats), now, map[]) <= 2 * |w.reg.meta|
  {
    var ctx := WriteCtx(now);
    var to := Accepted(w.reg, n, Ascending(w.reg.SubsOf(n)), ctx);
    WriteEffect(w, n, v, now);
    assert Pushes(to) + [] == Pushes(to);
    RelatedIsGated(w.reg);
    StampPays(w.reg, n, ctx);
    PushesWeigh(map[], to);
    OpenPairsFew(w.reg.meta, now);
  }

  /** Twice the registered pairs is always enough budget for the drain after a write, on cyclic
      graphs too. */
  lemma WriteDrains(w: World, n: Uid, v: T, now: ProductTime, stats: Stats, auth: map<(Uid, Uid), Verdict>, budget: nat)
    requires Coherent(w) && n in w.nodes && v != w.nodes[n].value && budget >= 2 * |w.reg.meta|
    ensures WriteQueue(w, n, v, now, stats).world.Wf()
    ensures Drain(WriteQueue(w, n, v, now, stats), now, auth, [], budget).Idle?
  {
    WriteKeeps(w, n, v, now);
    WriteMeasure(w, n, v, now, stats);
    RelatedIsGated(WriteWorld(w, n, v, now).reg);
    DrainEndsOnAnyGraph(WriteQueue(w, n, v, now, stats), now, auth, [], budget);
  }

  lemma WriteClock(w: World, n: Uid, v: T, now: ProductTime)
    requires w.Wf() && n in w.nodes && v != w.nodes[n].value && ClockAhead(w.reg, now)
    ensures ClockAhead(WriteWorld(w, n, v, now).reg, now)
  {
    WriteEffect(w, n, v, now);
    StampedClock(w.reg, WriteWorld(w, n, v, now).reg, n, Accepted(w.reg, n, Ascending(w.reg.SubsOf(n)), WriteCtx(now)), now);
  }

  /** The queue a write leaves is coherent, stamps nothing later than its clock, and drains. */
  lemma WriteStarts(w: World, n: Uid, v: T, now: ProductTime, stats: Stats, auth: map<(Uid, Uid), Verdict>, budget: nat)
    returns (q: Queue)
    requires Coherent(w) && n in w.nodes && v != w.nodes[n].value && ClockAhead(w.reg, now) && budget >= 2 * |w.reg.meta|
    ensures q == WriteQueue(w, n, v, now, stats)
    ensures Coherent(q.world) && SameGraph(w, q.world) && ClockAhead(q.world.reg, now)
    ensures Drain(q, now, auth, [], budget).Idle?
  {
    q := WriteQueue(w, n, v, now, stats);
    WriteKeeps(w, n, v, now);
    WriteClock(w, n, v, now);
    WriteDrains(w, n, v, now, stats, auth, budget);
  }

  lemma OpenPairsFew(meta: map<(Uid, Uid), DepMeta>, now: ProductTime)
    ensures |OpenPairs(meta, now)| <= |meta|
  {
    assert OpenPairs(meta, now) <= meta.Keys;
    SubsetSize(OpenPairs(meta, now), meta.Keys);
  }

  lemma SubsetSize<A>(a: set<A>, b: set<A>)
    requires a <= b
    ensures |a| <= |b|
  {
    assert b == a + (b - a);
  }
}
