/** Draining the work queue: the step limit, and why it is never reached when it is large
    enough, on cyclic graphs too. */
module Draining {
  import opened Base
  import opened Bits
  import opened Ternary
  import opened Time
  import opened Isa
  import opened Deps
  import opened Propagation
  import opened StepFacts

  datatype DrainResult = Idle(q: Queue) | LimitExceeded(q: Queue)

  /** `drain`: step until the queue is empty or `budget` steps are spent. On exhaustion the item
      just taken is lost and the demand set stays; on success the demand set is cleared. */
  function Drain(q: Queue, now: ProductTime, auth: map<(Uid, Uid), Verdict>, handled: seq<Word>, budget: nat): DrainResult
    requires q.world.Wf()
    decreases budget
  {
    if q.items == [] then Idle(q.(demanded := {}))
    else if budget == 0 then LimitExceeded(q.(items := q.items[1..]))
    else
      DrainStepWf(q, now, auth, handled);
      Drain(DrainStep(q, now, auth, handled), now, auth, handled, budget - 1)
  }

  /** Every step from a well-formed queue keeps the property. */
  ghost predicate Preserved(inv: Queue -> bool, now: ProductTime, auth: map<(Uid, Uid), Verdict>, handled: seq<Word>) {
    forall p: Queue {:trigger DrainStep(p, now, auth, handled)} ::
      p.world.Wf() && p.items != [] && inv(p) ==> inv(DrainStep(p, now, auth, handled))
  }

  /** One step of a drain that has budget left. */
  lemma DrainNext(q: Queue, next: Queue, now: ProductTime, auth: map<(Uid, Uid), Verdict>, handled: seq<Word>, budget: nat)
    requires q.world.Wf() && q.items != [] && budget > 0 && next == DrainStep(q, now, auth, handled)
    ensures next.world.Wf() && Drain(q, now, auth, handled, budget) == Drain(next, now, auth, handled, budget - 1)
  {
    DrainStepWf(q, now, auth, handled);
  }

  lemma DrainUnfold(q: Queue, now: ProductTime, auth: map<(Uid, Uid), Verdict>, handled: seq<Word>, budget: nat,
                    inv: Queue -> bool)
    returns (next: Queue)
    requires q.world.Wf() && q.items != [] && budget > 0
    requires inv(q) && Preserved(inv, now, auth, handled)
    ensures next.world.Wf() && inv(next) && Drain(q, now, auth, handled, budget) == Drain(next, now, auth, handled, budget - 1)
  {
    DrainStepWf(q, now, auth, handled);
    next := DrainStep(q, now, auth, handled);
  }

  lemma DrainOver(q: Queue, now: ProductTime, auth: map<(Uid, Uid), Verdict>, handled: seq<Word>, budget: nat)
    requires q.world.Wf() && (q.items == [] || budget == 0)
    ensures Drain(q, now, auth, handled, budget)
         == if q.items == [] then Idle(q.(demanded := {})) else LimitExceeded(q.(items := q.items[1..]))
  {}

  /** What every step keeps, holds at the queue `last` where a drain stops, idle or at its limit. */
  lemma DrainInductionAny(q: Queue, now: ProductTime, auth: map<(Uid, Uid), Verdict>, handled: seq<Word>,
                          budget: nat, inv: Queue -> bool)
    returns (last: Queue)
    requires q.world.Wf() && inv(q) && Preserved(inv, now, auth, handled)
    ensures last.world.Wf() && inv(last)
    ensures Drain(q, now, auth, handled, budget)
         == if last.items == [] then Idle(last.(demanded := {})) else LimitExceeded(last.(items := last.items[1..]))
  {
    var k: nat, d := budget, Drain(q, now, auth, handled, budget);
    last := q;
    while last.items != [] && k > 0
      invariant last.world.Wf() && inv(last) && Drain(last, now, auth, handled, k) == d
      decreases k
    {
      last := DrainUnfold(last, now, auth, handled, k, inv);
      k := k - 1;
    }
    DrainOver(last, now, auth, handled, k);
  }

  /** What every step keeps, a drain that ends idle keeps: it stops at a queue `last` with no
      items, and clears the demand set. */
  lemma DrainInduction(q: Queue, now: ProductTime, auth: map<(Uid, Uid), Verdict>, handled: seq<Word>,
                       budget: nat, inv: Queue -> bool)
    returns (last: Queue)
    requires q.world.Wf() && inv(q) && Preserved(inv, now, auth, handled)
    requires Drain(q, now, auth, handled, budget).Idle?
    ensures inv(last) && last.items == [] && Drain(q, now, auth, handled, budget).q == last.(demanded := {})
  {
    last := DrainInductionAny(q, now, auth, handled, budget, inv);
  }

  // ---- weights ----------------------------------------------------------------------------

  /** Demand weights: a demand outweighs the sub-demands and the push it can put in the queue. */
  ghost predicate Weighs(reg: Registry, weight: map<Uid, nat>) {
    forall n :: n in weight ==>
      && (forall d :: d in reg.DepsOf(n) ==> d in weight)
      && weight[n] >= 3 + Total(weight, Ascending(reg.DepsOf(n)))
  }

  function Total(weight: map<Uid, nat>, ids: seq<Uid>): nat {
    if ids == [] then 0
    else Total(weight, ids[..|ids| - 1]) + (if ids[|ids| - 1] in weight then weight[ids[|ids| - 1]] else 0)
  }

  function ItemWeight(weight: map<Uid, nat>, item: WorkItem): nat {
    match item
    case Push(_) => 2
    case DemandItem(id) => if id in weight then weight[id] else 0
    case StabilizeItem(_) => 1
  }

  function QueueWeight(weight: map<Uid, nat>, items: seq<WorkItem>): nat {
    if items == [] then 0 else QueueWeight(weight, items[..|items| - 1]) + ItemWeight(weight, items[|items| - 1])
  }

  lemma {:induction false} QueueWeightAppend(weight: map<Uid, nat>, a: seq<WorkItem>, b: seq<WorkItem>)
    ensures QueueWeight(weight, a + b) == QueueWeight(weight, a) + QueueWeight(weight, b)
    decreases |b|
  {
    if b == [] {
      assert a + b == a;
    } else {
      QueueWeightAppend(weight, a, b[..|b| - 1]);
      assert (a + b)[..|a + b| - 1] == a + b[..|b| - 1];
    }
  }

  lemma {:induction false} PushesWeigh(weight: map<Uid, nat>, ids: seq<Uid>)
    ensures QueueWeight(weight, Pushes(ids)) == 2 * |ids|
  {
    if ids != [] {
      PushesWeigh(weight, ids[..|ids| - 1]);
      assert Pushes(ids)[..|ids| - 1] == Pushes(ids[..|ids| - 1]);
    }
  }

  lemma {:induction false} DemandsWeigh(weight: map<Uid, nat>, ids: seq<Uid>)
    ensures QueueWeight(weight, Reversed(Demands(ids))) == Total(weight, ids)
  {
    if ids != [] {
      var front, last := ids[..|ids| - 1], DemandItem(ids[|ids| - 1]);
      DemandsWeigh(weight, front);
      assert Reversed(Demands(ids)) == [last] + Reversed(Demands(front));
      QueueWeightAppend(weight, [last], Reversed(Demands(front)));
      assert [last][..0] == [];
    }
  }

  lemma TotalAppend(weight: map<Uid, nat>, p: seq<Uid>, x: Uid)
    ensures Total(weight, p + [x]) == Total(weight, p) + if x in weight then weight[x] else 0
  {
    assert (p + [x])[..|p|] == p;
  }

  lemma {:induction false} PendingWeighLess(w: World, weight: map<Uid, nat>, ids: seq<Uid>)
    ensures Total(weight, PendingDeps(w, ids)) <= Total(weight, ids)
    ensures forall d :: d in PendingDeps(w, ids) <==> d in ids && w.ValueOr(d) == Neg
  {
    if ids != [] {
      var front, last := ids[..|ids| - 1], ids[|ids| - 1];
      PendingWeighLess(w, weight, front);
      assert ids == front + [last];
      TotalAppend(weight, PendingDeps(w, front), last);
      assert PendingDeps(w, front) + [] == PendingDeps(w, front);
    }
  }

  // ---- open pairs -----------------------------------------------------------------------------

  /** The pairs whose delta gate is open at this time. */
  function OpenPairs(meta: map<(Uid, Uid), DepMeta>, now: ProductTime): set<(Uid, Uid)> {
    set p | p in meta && ShouldPropagate(meta[p], now)
  }

  /** Every subscription has metadata, so its gate can close. */
  ghost predicate Gated(reg: Registry) {
    forall s: Uid, t: Uid :: t in reg.SubsOf(s) ==> (s, t) in reg.meta
  }

  function PairsFrom(n: Uid, to: seq<Uid>): set<(Uid, Uid)> { set s | s in to :: (n, s) }

  lemma {:induction false} PairsFromSize(n: Uid, to: seq<Uid>)
    requires Distinct(to)
    ensures |PairsFrom(n, to)| == |to|
    decreases |to|
  {
    if to != [] {
      LastIsFresh(to);
      var front, last := to[..|to| - 1], to[|to| - 1];
      PairsFromSize(n, front);
      assert PairsFrom(n, to) == PairsFrom(n, front) + {(n, last)};
    }
  }

  /** Stamping closes the stamped pairs and no other. */
  lemma StampCloses(meta: map<(Uid, Uid), DepMeta>, n: Uid, to: seq<Uid>, now: ProductTime)
    ensures OpenPairs(Stamped(meta, n, to, now), now) == OpenPairs(meta, now) - PairsFrom(n, to)
  {
    var after := Stamped(meta, n, to, now);
    forall p | p in meta
      ensures p in OpenPairs(after, now) <==> p in OpenPairs(meta, now) - PairsFrom(n, to)
    {
      if p.0 == n && p.1 in to {
        assert p == (n, p.1) && p in PairsFrom(n, to);
        forall d | d in after[p].mask ensures now.Get(d) <= after[p].lastSeen.Get(d) { JoinAbove(meta[p].lastSeen, now, d); }
      } else {
        assert after[p] == meta[p];
      }
    }
  }

  lemma JoinAbove(t: ProductTime, now: ProductTime, d: TimeDim)
    ensures t.Join(now).Get(d) >= now.Get(d)
  {}

  /** The pairs a loop accepts are open and distinct, so stamping them pays for their pushes. */
  lemma StampPays(reg: Registry, n: Uid, ctx: Ctx)
    requires Gated(reg)
    ensures var to := Accepted(reg, n, Ascending(reg.SubsOf(n)), ctx);
      |OpenPairs(Stamped(reg.meta, n, to, ctx.now), ctx.now)| + |to| == |OpenPairs(reg.meta, ctx.now)|
  {
    var subs := Ascending(reg.SubsOf(n));
    var to := Accepted(reg, n, subs, ctx);
    AscendingDistinct(reg.SubsOf(n));
    AscendingElements(reg.SubsOf(n));
    AcceptedElements(reg, n, subs, ctx);
    StampCloses(reg.meta, n, to, ctx.now);
    PairsFromSize(n, to);
    forall s | s in to ensures (n, s) in OpenPairs(reg.meta, ctx.now) { assert s in reg.SubsOf(n); }
  }

  // ---- the measure ------------------------------------------------------------------------------

  /** 2 per push, 1 per stabilize item, the weight of each demand, 2 per open pair. */
  function Measure(q: Queue, now: ProductTime, weight: map<Uid, nat>): nat {
    QueueWeight(weight, q.items) + 2 * |OpenPairs(q.world.reg.meta, now)|
  }

  /** Only weighted nodes are demanded, and the registry supports the argument. */
  ghost predicate Drainable(q: Queue, weight: map<Uid, nat>) {
    && q.world.Wf() && Gated(q.world.reg) && Weighs(q.world.reg, weight)
    && KnownDemands(q.items, weight)
  }

  /** The parts of the registry the argument reads are untouched. */
  ghost predicate SameShape(r0: Registry, r1: Registry) {
    r1.deps == r0.deps && r1.subs == r0.subs && r1.meta.Keys == r0.meta.Keys
  }

  lemma SameShapeKeeps(r0: Registry, r1: Registry, weight: map<Uid, nat>)
    requires SameShape(r0, r1) && Gated(r0) && Weighs(r0, weight)
    ensures Gated(r1) && Weighs(r1, weight)
  {
    forall s: Uid, t: Uid | t in r1.SubsOf(s) ensures (s, t) in r1.meta { assert t in r0.SubsOf(s); }
    forall n | n in weight
      ensures (forall d :: d in r1.DepsOf(n) ==> d in weight) && weight[n] >= 3 + Total(weight, Ascending(r1.DepsOf(n)))
    {
      assert r1.DepsOf(n) == r0.DepsOf(n);
    }
  }

  /** The work and the pairs left open by an outcome cost at most one more than the open pairs before. */
  ghost predicate Affordable(w: World, o: Outcome, now: ProductTime, weight: map<Uid, nat>) {
    && QueueWeight(weight, o.work) + 2 * |OpenPairs(o.world.reg.meta, now)| <= 1 + 2 * |OpenPairs(w.reg.meta, now)|
    && SameShape(w.reg, o.world.reg)
    && forall i :: 0 <= i < |o.work| ==> !o.work[i].DemandItem?
  }

  lemma EffectPays(w: World, n: Uid, ctx: Ctx, o: Outcome, next: T, to: seq<Uid>, extra: seq<WorkItem>, weight: map<Uid, nat>)
    requires w.Wf() && Gated(w.reg) && n in w.nodes && Effect(w, n, ctx, o, next, to, extra)
    requires to == [] || to == Accepted(w.reg, n, Ascending(w.reg.SubsOf(n)), ctx)
    requires extra == [] || (|extra| == 1 && extra[0].StabilizeItem?)
    ensures Affordable(w, o, ctx.now, weight)
  {
    WorkWeighs(weight, to, extra);
    if to == [] {
      assert Stamped(w.reg.meta, n, [], ctx.now) == w.reg.meta;
    } else {
      StampPays(w.reg, n, ctx);
    }
  }

  lemma WorkWeighs(weight: map<Uid, nat>, to: seq<Uid>, extra: seq<WorkItem>)
    requires extra == [] || (|extra| == 1 && extra[0].StabilizeItem?)
    ensures QueueWeight(weight, Pushes(to) + extra) <= 2 * |to| + 1
    ensures forall i :: 0 <= i < |Pushes(to) + extra| ==> !(Pushes(to) + extra)[i].DemandItem?
  {
    PushesWeigh(weight, to);
    QueueWeightAppend(weight, Pushes(to), extra);
    ExtraWeighs(weight, extra);
  }

  lemma StepPushPays(w: World, n: Uid, ctx: Ctx, stats: Stats, weight: map<Uid, nat>)
    requires w.Wf() && Gated(w.reg)
    ensures Affordable(w, StepPush(w, n, ctx, stats), ctx.now, weight)
  {
    if n in w.nodes && w.nodes[n].kind.Computed? {
      StepEffect(w, n, ctx, stats);
      EffectPays(w, n, ctx, StepPush(w, n, ctx, stats), StepNext(w, n), StepTo(w, n, ctx), StepExtra(w, n), weight);
    }
  }

  lemma ExtraWeighs(weight: map<Uid, nat>, extra: seq<WorkItem>)
    requires extra == [] || (|extra| == 1 && extra[0].StabilizeItem?)
    ensures QueueWeight(weight, extra) <= 1
  {
    if extra != [] { assert extra[..0] == []; }
  }

  /** The step paid for itself. */
  ghost predicate Paid(q: Queue, q': Queue, now: ProductTime, weight: map<Uid, nat>)
    requires q.items != []
  {
    && SameShape(q.world.reg, q'.world.reg)
    && Measure(q', now, weight) < ItemWeight(weight, q.items[0]) + QueueWeight(weight, q.items[1..])
                                  + 2 * |OpenPairs(q.world.reg.meta, now)|
    && KnownDemands(q'.items, weight)
  }

  lemma PushPays(q: Queue, now: ProductTime, auth: map<(Uid, Uid), Verdict>, handled: seq<Word>, weight: map<Uid, nat>)
    requires Drainable(q, weight) && q.items != [] && q.items[0].Push?
    ensures Paid(q, DrainStep(q, now, auth, handled), now, weight)
  {
    var id, rest := q.items[0].id, q.items[1..];
    if !Handled(q.world, handled, id) {
      var s0 := q.stats.(maxDepth := Larger(q.stats.maxDepth, |q.items|));
      var ctx := Ctx(now, auth, q.demanded);
      StepPushPays(q.world, id, ctx, s0, weight);
      QueueWeightAppend(weight, rest, StepPush(q.world, id, ctx, s0).work);
    }
  }

  lemma DemandWorkWeighs(w: World, id: Uid, rest: seq<WorkItem>, weight: map<Uid, nat>)
    requires Weighs(w.reg, weight) && id in weight
    ensures var below := PendingDeps(w, Ascending(w.reg.DepsOf(id)));
      && QueueWeight(weight, Reversed(Demands(below)) + rest + [Push(id)]) < weight[id] + QueueWeight(weight, rest)
      && forall d :: d in below ==> d in weight
  {
    var ids := Ascending(w.reg.DepsOf(id));
    var below := PendingDeps(w, ids);
    AscendingElements(w.reg.DepsOf(id));
    PendingWeighLess(w, weight, ids);
    DemandsWeigh(weight, below);
    QueueWeightAppend(weight, Reversed(Demands(below)), rest);
    QueueWeightAppend(weight, Reversed(Demands(below)) + rest, [Push(id)]);
    assert [Push(id)][..0] == [];
  }

  ghost predicate KnownDemands(items: seq<WorkItem>, weight: map<Uid, nat>) {
    forall i :: 0 <= i < |items| && items[i].DemandItem? ==> items[i].id in weight
  }

  lemma DemandsKnown(below: seq<Uid>, rest: seq<WorkItem>, id: Uid, weight: map<Uid, nat>)
    requires KnownDemands(rest, weight) && forall d :: d in below ==> d in weight
    ensures KnownDemands(Reversed(Demands(below)) + rest + [Push(id)], weight)
  {
    var front := Reversed(Demands(below));
    forall i | 0 <= i < |front| ensures front[i].DemandItem? && front[i].id in weight {
      assert front[i] == DemandItem(below[|below| - 1 - i]);
    }
  }

  lemma DemandPays(q: Queue, now: ProductTime, auth: map<(Uid, Uid), Verdict>, handled: seq<Word>, weight: map<Uid, nat>)
    requires Drainable(q, weight) && q.items != [] && q.items[0].DemandItem?
    ensures Paid(q, DrainStep(q, now, auth, handled), now, weight)
  {
    var id, rest := q.items[0].id, q.items[1..];
    assert q.items[0] == DemandItem(id);
    DemandWorkWeighs(q.world, id, rest, weight);
    DemandsKnown(PendingDeps(q.world, Ascending(q.world.reg.DepsOf(id))), rest, id, weight);
  }

  /** Every step lowers the measure. */
  lemma DrainStepPays(q: Queue, now: ProductTime, auth: map<(Uid, Uid), Verdict>, handled: seq<Word>, weight: map<Uid, nat>)
    requires Drainable(q, weight) && q.items != []
    ensures Drainable(DrainStep(q, now, auth, handled), weight)
    ensures Measure(DrainStep(q, now, auth, handled), now, weight) < Measure(q, now, weight)
  {
    var q' := DrainStep(q, now, auth, handled);
    DrainStepWf(q, now, auth, handled);
    match q.items[0] {
      case Push(_) => PushPays(q, now, auth, handled, weight);
      case DemandItem(_) => DemandPays(q, now, auth, handled, weight);
      case StabilizeItem(_) => assert Paid(q, q', now, weight);
    }
    SameShapeKeeps(q.world.reg, q'.world.reg, weight);
    assert q.items == [q.items[0]] + q.items[1..];
    QueueWeightAppend(weight, [q.items[0]], q.items[1..]);
    assert [q.items[0]][..0] == [];
  }

  /** A drain whose budget covers the measure ends idle: the step limit is not reached. */
  lemma {:induction false} DrainEnds(q: Queue, now: ProductTime, auth: map<(Uid, Uid), Verdict>, handled: seq<Word>,
                                     weight: map<Uid, nat>, budget: nat)
    requires Drainable(q, weight) && budget >= Measure(q, now, weight)
    ensures Drain(q, now, auth, handled, budget).Idle?
    decreases budget
  {
    if q.items != [] {
      DrainStepPays(q, now, auth, handled, weight);
      DrainEnds(DrainStep(q, now, auth, handled), now, auth, handled, weight, budget - 1);
    }
  }

  /** Without demands, termination needs no acyclicity: twice the pushes, plus the stabilize
      items, plus twice the open pairs always suffices. */
  lemma DrainEndsOnAnyGraph(q: Queue, now: ProductTime, auth: map<(Uid, Uid), Verdict>, handled: seq<Word>, budget: nat)
    requires q.world.Wf() && Gated(q.world.reg)
    requires forall item :: item in q.items ==> !item.DemandItem?
    requires budget >= Measure(q, now, map[])
    ensures Drain(q, now, auth, handled, budget).Idle?
  {
    DrainEnds(q, now, auth, handled, map[], budget);
  }

  // ---- weights of an acyclic graph -----------------------------------------------------------------

  /** A rank that falls along every dependency of a ranked node: the graph below is acyclic. */
  ghost predicate Ranked(reg: Registry, rank: map<Uid, nat>) {
    forall n, d :: n in rank && d in reg.DepsOf(n) ==> d in rank && rank[d] < rank[n]
  }

  ghost function WeightOf(reg: Registry, rank: map<Uid, nat>, n: Uid): nat
    requires Ranked(reg, rank) && n in rank
    decreases rank[n], 1, 0
  {
    AscendingElements(reg.DepsOf(n));
    3 + WeightBelow(reg, rank, n, Ascending(reg.DepsOf(n)))
  }

  ghost function WeightBelow(reg: Registry, rank: map<Uid, nat>, n: Uid, ids: seq<Uid>): nat
    requires Ranked(reg, rank) && n in rank && forall d :: d in ids ==> d in reg.DepsOf(n)
    decreases rank[n], 0, |ids|
  {
    if ids == [] then 0
    else
      assert ids[|ids| - 1] in ids;
      WeightBelow(reg, rank, n, ids[..|ids| - 1]) + WeightOf(reg, rank, ids[|ids| - 1])
  }

  ghost function Weights(reg: Registry, rank: map<Uid, nat>): map<Uid, nat>
    requires Ranked(reg, rank)
  {
    map n | n in rank :: WeightOf(reg, rank, n)
  }

  lemma {:induction false} TotalIsWeightBelow(reg: Registry, rank: map<Uid, nat>, n: Uid, ids: seq<Uid>)
    requires Ranked(reg, rank) && n in rank && forall d :: d in ids ==> d in reg.DepsOf(n)
    ensures Total(Weights(reg, rank), ids) == WeightBelow(reg, rank, n, ids)
    decreases |ids|
  {
    if ids != [] {
      assert ids[|ids| - 1] in ids;
      TotalIsWeightBelow(reg, rank, n, ids[..|ids| - 1]);
    }
  }

  /** With demands, a drain ends on every acyclic graph. */
  lemma DrainEndsOnAcyclicGraph(q: Queue, now: ProductTime, auth: map<(Uid, Uid), Verdict>, handled: seq<Word>,
                                rank: map<Uid, nat>, budget: nat)
    requires q.world.Wf() && Gated(q.world.reg) && Ranked(q.world.reg, rank)
    requires forall i :: 0 <= i < |q.items| && q.items[i].DemandItem? ==> q.items[i].id in rank
    requires budget >= Measure(q, now, Weights(q.world.reg, rank))
    ensures Drain(q, now, auth, handled, budget).Idle?
  {
    var reg := q.world.reg;
    var weight := Weights(reg, rank);
    forall n | n in weight
      ensures (forall d :: d in reg.DepsOf(n) ==> d in weight) && weight[n] >= 3 + Total(weight, Ascending(reg.DepsOf(n)))
    {
      AscendingElements(reg.DepsOf(n));
      TotalIsWeightBelow(reg, rank, n, Ascending(reg.DepsOf(n)));
    }
    DrainEnds(q, now, auth, handled, weight, budget);
  }
}
