/** Pull evaluation: a demand makes the node and everything it reads Pos on an acyclic graph of
    Neg nodes over Pos inputs, Lazy ones included. */
module PullEval {
  import opened Base
  import opened Ternary
  import opened Rules
  import opened Time
  import opened Isa
  import opened ValueStores
  import opened Deps
  import opened Propagation
  import opened StepFacts
  import opened Draining
  import opened Coherence
  import opened DepClosure
  import Writes

  function PosIn(w: World): set<Uid> { set n | n in w.nodes && w.nodes[n].value == Pos }

  /** The nodes n reads, directly or not, and n itself. */
  ghost function Ancestors(w: World, n: Uid): set<Uid> {
    set m | m in w.nodes && exists hops: nat :: Within(w.reg, n, m, hops)
  }

  /** m and its place in a set closed under dependencies: an input is Pos and reads nothing, a
      computed node's rule maps all-Pos dependencies to Pos, and no value is Zero. */
  ghost predicate Pullable(w: World, up: set<Uid>, m: Uid) {
    && m in w.nodes && w.nodes[m].value != Zero && w.reg.DepsOf(m) <= up
    && (w.nodes[m].kind.Input? ==> w.nodes[m].value == Pos && w.reg.DepsOf(m) == {})
    && (w.nodes[m].kind.Computed? ==> MapsPosToPos(w.nodes[m].kind.rule, |w.reg.OrderedDepsOf(m)|))
  }

  /** The pairs out of a Neg node of the set observe the attribute dimension and are not yet
      pushed at this time. */
  ghost predicate GatesOpenIn(w: World, up: set<Uid>, now: ProductTime) {
    forall p: (Uid, Uid) :: p in w.reg.meta && p.0 in up && p.0 in w.nodes && w.nodes[p.0].value == Neg ==>
      Attribute in w.reg.meta[p].mask && w.reg.meta[p].lastSeen.Get(Attribute) < now.Get(Attribute)
  }

  /** Computed nodes of the set are Pos only over Pos dependencies. */
  ghost predicate Grounded(w: World, up: set<Uid>) {
    forall m :: m in up && m in w.nodes && w.nodes[m].value == Pos ==> w.reg.DepsOf(m) <= PosIn(w)
  }

  ghost predicate Steady(w: World, up: set<Uid>, now: ProductTime) {
    (forall m :: m in up ==> Pullable(w, up, m)) && GatesOpenIn(w, up, now) && Grounded(w, up)
  }

  /** m could fire: it is Neg and everything it reads is Pos. */
  ghost predicate Ripe(w: World, m: Uid) {
    m in w.nodes && w.nodes[m].value == Neg && w.reg.DepsOf(m) <= PosIn(w)
  }

  /** The demand has reached m's unready dependencies, and m is queued when it could fire. */
  ghost predicate Served(w: World, items: seq<WorkItem>, demanded: set<Uid>, m: Uid) {
    && (forall d :: d in w.reg.DepsOf(m) ==> d in PosIn(w) || d in demanded || DemandItem(d) in items)
    && (Ripe(w, m) ==> Push(m) in items)
  }

  ghost predicate Demanding(w: World, items: seq<WorkItem>, demanded: set<Uid>, up: set<Uid>, n: Uid) {
    && demanded <= up
    && (forall item :: item in items && item.DemandItem? ==> item.id in up)
    && (n in demanded || DemandItem(n) in items)
    && forall m :: m in demanded ==> Served(w, items, demanded, m)
  }

  ghost predicate Pulling(q: Queue, up: set<Uid>, n: Uid, now: ProductTime) {
    Wired(q.world) && Steady(q.world, up, now) && Demanding(q.world, q.items, q.demanded, up, n)
  }

  // ---- a demand ------------------------------------------------------------------------

  lemma {:induction false} PendingAre(w: World, ids: seq<Uid>)
    ensures forall d :: d in PendingDeps(w, ids) <==> d in ids && w.ValueOr(d) == Neg
    decreases |ids|
  {
    if ids != [] {
      PendingAre(w, ids[..|ids| - 1]);
      assert ids == ids[..|ids| - 1] + [ids[|ids| - 1]];
    }
  }

  lemma DemandsQueued(below: seq<Uid>, rest: seq<WorkItem>, id: Uid)
    ensures var items := Reversed(Demands(below)) + rest + [Push(id)];
      && (forall d :: d in below ==> DemandItem(d) in items)
      && (forall item :: item in rest ==> item in items) && Push(id) in items
      && forall item :: item in items && item !in rest && item != Push(id) ==> item.DemandItem? && item.id in below
  {
    var front := Reversed(Demands(below));
    var items := front + rest + [Push(id)];
    forall d | d in below ensures DemandItem(d) in items {
      var k :| 0 <= k < |below| && below[k] == d;
      assert front[|below| - 1 - k] == DemandItem(d);
      assert items[|below| - 1 - k] == DemandItem(d);
    }
    assert items[|items| - 1] == Push(id);
    forall item | item in front ensures item.DemandItem? && item.id in below {
      var k :| 0 <= k < |front| && front[k] == item;
      assert item == DemandItem(below[|below| - 1 - k]);
    }
  }

  lemma TakenFront(items: seq<WorkItem>)
    requires items != []
    ensures forall item :: item in items <==> item == items[0] || item in items[1..]
  {
    assert items == [items[0]] + items[1..];
  }

  /** Demanding one more node of the set: its Neg dependencies are demanded in turn. */
  lemma DemandStep(w: World, items: seq<WorkItem>, demanded: set<Uid>, up: set<Uid>, n: Uid, now: ProductTime)
    requires Steady(w, up, now) && Demanding(w, items, demanded, up, n) && items != [] && items[0].DemandItem?
    ensures var id := items[0].id;
      var below := PendingDeps(w, Ascending(w.reg.DepsOf(id)));
      Demanding(w, Reversed(Demands(below)) + items[1..] + [Push(id)], demanded + {id}, up, n)
  {
    var id, rest := items[0].id, items[1..];
    var below := PendingDeps(w, Ascending(w.reg.DepsOf(id)));
    var items', demanded' := Reversed(Demands(below)) + rest + [Push(id)], demanded + {id};
    TakenFront(items);
    DemandsQueued(below, rest, id);
    PendingAre(w, Ascending(w.reg.DepsOf(id)));
    AscendingElements(w.reg.DepsOf(id));
    assert items[0] in items && Pullable(w, up, id);
    forall d | d in w.reg.DepsOf(id) ensures d in PosIn(w) || DemandItem(d) in items' {
      assert Pullable(w, up, d);
      if w.nodes[d].value == Neg { assert d in below; }
    }
    forall m | m in demanded' ensures Served(w, items', demanded', m) {
      if m != id {
        assert Served(w, items, demanded, m);
        forall d | d in w.reg.DepsOf(m) ensures d in PosIn(w) || d in demanded' || DemandItem(d) in items' {}
      }
    }
  }

  // ---- a push ----------------------------------------------------------------------------

  /** What a push does to a set closed under dependencies: nothing moves in it but, at most, the
      pushed node itself, from Neg to Pos over Pos dependencies. */
  ghost predicate Moves(w: World, up: set<Uid>, id: Uid, w': World) {
    && SameGraph(w, w')
    && (forall m :: m in w.nodes && m != id ==> w'.nodes[m] == w.nodes[m])
    && (forall p :: p in w.reg.meta ==> w'.reg.meta[p].mask == w.reg.meta[p].mask)
    && (forall p :: p in w.reg.meta && p.0 != id ==> w'.reg.meta[p] == w.reg.meta[p])
    && (id in up && id in w.nodes ==> MovesTo(w, id, w'))
  }

  ghost predicate MovesTo(w: World, id: Uid, w': World)
    requires id in w.nodes && id in w'.nodes && w'.reg.meta.Keys == w.reg.meta.Keys
  {
    if Ripe(w, id) then w'.nodes[id].value == Pos else w'.nodes[id] == w.nodes[id] && w'.reg.meta == w.reg.meta
  }

  lemma MovesPos(w: World, up: set<Uid>, id: Uid, w': World)
    requires Moves(w, up, id, w')
    ensures PosIn(w) * up <= PosIn(w')
  {}

  lemma MovesSteady(w: World, up: set<Uid>, id: Uid, w': World, now: ProductTime)
    requires Steady(w, up, now) && Moves(w, up, id, w')
    ensures Steady(w', up, now)
  {
    MovesPos(w, up, id, w');
    forall m | m in up ensures Pullable(w', up, m) && w'.reg.DepsOf(m) == w.reg.DepsOf(m) {
      assert Pullable(w, up, m);
      assert w'.reg.DepsOf(m) == w.reg.DepsOf(m) && w'.reg.OrderedDepsOf(m) == w.reg.OrderedDepsOf(m);
    }
    forall m | m in up && m in w'.nodes && w'.nodes[m].value == Pos ensures w'.reg.DepsOf(m) <= PosIn(w') {
      assert Pullable(w, up, m) && Pullable(w', up, m);
      assert w.reg.DepsOf(m) <= PosIn(w) * up;
    }
  }

  /** The work of a push holds no demand, and pushes every demanded reader of a node that moved. */
  ghost predicate Tells(w: World, up: set<Uid>, id: Uid, demanded: set<Uid>, work: seq<WorkItem>) {
    && (forall item :: item in work ==> !item.DemandItem?)
    && (id in up && Ripe(w, id) ==> forall m :: m in demanded && id in w.reg.DepsOf(m) ==> Push(m) in work)
  }

  lemma MovesServed(w: World, items: seq<WorkItem>, demanded: set<Uid>, up: set<Uid>, id: Uid, w': World, work: seq<WorkItem>, m: Uid)
    requires Moves(w, up, id, w') && Tells(w, up, id, demanded, work) && Pullable(w, up, m) && m in up && m in demanded
    requires items != [] && items[0] == Push(id) && Served(w, items, demanded, m)
    ensures Served(w', items[1..] + work, demanded, m)
  {
    TakenFront(items);
    MovesPos(w, up, id, w');
    assert w'.reg.DepsOf(m) == w.reg.DepsOf(m);
    forall d | d in w'.reg.DepsOf(m) ensures d in PosIn(w') || d in demanded || DemandItem(d) in items[1..] + work {
      assert d in up;
    }
    if Ripe(w', m) && Push(m) !in work {
      forall d | d in w.reg.DepsOf(m) ensures d in PosIn(w) { assert d in PosIn(w') && d in up; }
      assert Ripe(w, m) && m != id;
    }
  }

  lemma MovesDemanding(w: World, items: seq<WorkItem>, demanded: set<Uid>, up: set<Uid>, n: Uid, now: ProductTime,
                       w': World, work: seq<WorkItem>)
    requires Steady(w, up, now) && Demanding(w, items, demanded, up, n) && items != [] && items[0].Push?
    requires Moves(w, up, items[0].id, w') && Tells(w, up, items[0].id, demanded, work)
    ensures Demanding(w', items[1..] + work, demanded, up, n)
  {
    TakenFront(items);
    forall m | m in demanded ensures Served(w', items[1..] + work, demanded, m) {
      assert Pullable(w, up, m);
      MovesServed(w, items, demanded, up, items[0].id, w', work, m);
    }
  }

  // ---- the push step has those effects -------------------------------------------------------

  lemma EffectMovesOutside(w: World, up: set<Uid>, id: Uid, ctx: Ctx, o: Outcome, next: T, to: seq<Uid>, extra: seq<WorkItem>)
    requires Wired(w) && id in w.nodes && Effect(w, id, ctx, o, next, to, extra)
    requires id in up ==> Ripe(w, id) && next == Pos
    ensures Wired(o.world) && Moves(w, up, id, o.world)
  {
    EffectWrote(w, id, ctx, o, next, to, extra);
    WroteWired(w, o.world, id, next);
    WroteSameGraph(w, o.world, id, next);
  }

  lemma NoDemandsIn(to: seq<Uid>, extra: seq<WorkItem>)
    requires extra == [] || (|extra| == 1 && extra[0].StabilizeItem?)
    ensures forall item :: item in Pushes(to) + extra ==> !item.DemandItem?
  {
    PushesElements(to);
  }

  /** The accepted subscribers of a ripe node include its demanded readers. */
  lemma RipeTells(w: World, up: set<Uid>, id: Uid, ctx: Ctx)
    requires Related(w.reg) && GatesOpenIn(w, up, ctx.now) && ctx.auth == map[]
    requires id in up && Ripe(w, id)
    ensures Tells(w, up, id, ctx.demanded, Pushes(Accepted(w.reg, id, Ascending(w.reg.SubsOf(id)), ctx)))
  {
    PushedItems(w.reg, id, ctx);
    forall m | m in ctx.demanded && id in w.reg.DepsOf(m) ensures Accepts(w.reg, id, m, ctx) && m in w.reg.SubsOf(id) {
      assert m in w.reg.SubsOf(id) && (id, m) in w.reg.meta;
      var meta := w.reg.meta[(id, m)];
      assert Attribute in meta.mask && ctx.now.Get(Attribute) > meta.lastSeen.Get(Attribute);
    }
  }

  /** In a steady world a node of the set reads no Zero, so its step fires exactly when it is ripe
      or already Pos. */
  lemma ReadsNoZero(w: World, up: set<Uid>, id: Uid, now: ProductTime)
    requires w.Wf() && Mirrored(w) && ListsRight(w, id) && Steady(w, up, now) && id in up
    ensures StateOf(w.DepVals(id)) == if w.reg.DepsOf(id) <= PosIn(w) then Ready else Pending
    ensures |w.DepVals(id)| == |w.reg.OrderedDepsOf(id)|
  {
    DepValsAre(w, id);
    var ids, vals := w.reg.OrderedDepsOf(id), w.DepVals(id);
    assert Pullable(w, up, id);
    forall k | 0 <= k < |ids| ensures vals[k] != Zero && (vals[k] == Pos <==> ids[k] in PosIn(w)) {
      assert ids[k] in ids && Pullable(w, up, ids[k]);
    }
    if w.reg.DepsOf(id) <= PosIn(w) {
      forall k | 0 <= k < |ids| ensures vals[k] == Pos { assert ids[k] in ids; }
    } else {
      var d :| d in w.reg.DepsOf(id) && d !in PosIn(w);
      assert d in ids;
      var k :| 0 <= k < |ids| && ids[k] == d;
      assert vals[k] == Neg;
    }
  }

  /** A push in this setting: what moved and what was queued. */
  ghost predicate Pulls(w: World, up: set<Uid>, id: Uid, demanded: set<Uid>, o: Outcome) {
    Wired(o.world) && Moves(w, up, id, o.world) && Tells(w, up, id, demanded, o.work)
  }

  lemma QuietPulls(w: World, up: set<Uid>, id: Uid, demanded: set<Uid>, o: Outcome)
    requires Wired(w) && o.world == w && o.work == [] && (id in up ==> !Ripe(w, id))
    ensures Pulls(w, up, id, demanded, o)
  {}

  lemma RipePulls(w: World, up: set<Uid>, id: Uid, ctx: Ctx, o: Outcome)
    requires Wired(w) && Steady(w, up, ctx.now) && ctx.auth == map[] && id in up && Ripe(w, id)
    requires Effect(w, id, ctx, o, Pos, Accepted(w.reg, id, Ascending(w.reg.SubsOf(id)), ctx), [])
    ensures Pulls(w, up, id, ctx.demanded, o)
  {
    var to := Accepted(w.reg, id, Ascending(w.reg.SubsOf(id)), ctx);
    EffectMovesOutside(w, up, id, ctx, o, Pos, to, []);
    RipeTells(w, up, id, ctx);
    assert o.work == Pushes(to) by { assert Pushes(to) + [] == Pushes(to); }
  }

  lemma PushInside(w: World, up: set<Uid>, id: Uid, ctx: Ctx, stats: Stats)
    requires Wired(w) && Steady(w, up, ctx.now) && ctx.auth == map[] && id in up
    ensures Pulls(w, up, id, ctx.demanded, StepPush(w, id, ctx, stats))
  {
    assert Pullable(w, up, id);
    if w.nodes[id].kind.Input? {
      QuietPulls(w, up, id, ctx.demanded, StepPush(w, id, ctx, stats));
    } else {
      WiredPushIsScan(w, id, ctx, stats);
      ComputedInside(w, up, id, ctx, stats);
    }
  }

  lemma ComputedInside(w: World, up: set<Uid>, id: Uid, ctx: Ctx, stats: Stats)
    requires Wired(w) && Steady(w, up, ctx.now) && ctx.auth == map[] && id in up
    requires id in w.nodes && w.nodes[id].kind.Computed?
    ensures Pulls(w, up, id, ctx.demanded, StepScan(w, id, ctx, stats))
  {
    assert ListsRight(w, id) && Pullable(w, up, id);
    ReadsNoZero(w, up, id, ctx.now);
    if w.reg.DepsOf(id) <= PosIn(w) {
      AllPosEval(w.nodes[id].kind.rule, w.DepVals(id));
      if w.nodes[id].value == Neg {
        ScanEffect(w, id, ctx, stats);
        RipePulls(w, up, id, ctx, StepScan(w, id, ctx, stats));
      } else {
        QuietPulls(w, up, id, ctx.demanded, StepScan(w, id, ctx, stats));
      }
    } else {
      QuietPulls(w, up, id, ctx.demanded, StepScan(w, id, ctx, stats));
    }
  }

  lemma PushOutside(w: World, up: set<Uid>, id: Uid, ctx: Ctx, stats: Stats)
    requires Wired(w) && id !in up
    ensures Pulls(w, up, id, ctx.demanded, StepPush(w, id, ctx, stats))
  {
    assert w.Wf();
    hide Wired;
    if id in w.nodes && w.nodes[id].kind.Computed? {
      StepEffect(w, id, ctx, stats);
      var o := StepPush(w, id, ctx, stats);
      NoDemandsIn(StepTo(w, id, ctx), StepExtra(w, id));
      hide StepPush, StepNext, StepTo, Moves;
      EffectMovesOutside(w, up, id, ctx, o, StepNext(w, id), StepTo(w, id, ctx), StepExtra(w, id));
    } else {
      QuietPulls(w, up, id, ctx.demanded, StepPush(w, id, ctx, stats));
    }
  }

  lemma PushPulls(w: World, up: set<Uid>, id: Uid, ctx: Ctx, stats: Stats)
    requires Wired(w) && Steady(w, up, ctx.now) && ctx.auth == map[]
    ensures Pulls(w, up, id, ctx.demanded, StepPush(w, id, ctx, stats))
  {
    if id in up { PushInside(w, up, id, ctx, stats); } else { PushOutside(w, up, id, ctx, stats); }
  }

  // ---- drains -----------------------------------------------------------------------------------

  lemma StabilizeDemanding(w: World, items: seq<WorkItem>, demanded: set<Uid>, up: set<Uid>, n: Uid)
    requires Demanding(w, items, demanded, up, n) && items != [] && items[0].StabilizeItem?
    ensures Demanding(w, items[1..], demanded, up, n)
  {
    TakenFront(items);
    forall m | m in demanded ensures Served(w, items[1..], demanded, m) { assert Served(w, items, demanded, m); }
  }

  lemma PullStepPush(q: Queue, up: set<Uid>, n: Uid, now: ProductTime, o: Outcome)
    requires Pulling(q, up, n, now) && q.items != [] && q.items[0].Push? && Pulls(q.world, up, q.items[0].id, q.demanded, o)
    ensures Pulling(Queue(o.world, q.items[1..] + o.work, q.events + o.events, o.stats, q.demanded, q.frontier), up, n, now)
  {
    MovesSteady(q.world, up, q.items[0].id, o.world, now);
    MovesDemanding(q.world, q.items, q.demanded, up, n, now, o.world, o.work);
  }

  lemma DrainStepPulls(q: Queue, up: set<Uid>, n: Uid, now: ProductTime)
    requires Pulling(q, up, n, now) && q.items != []
    ensures Pulling(DrainStep(q, now, map[], []), up, n, now)
  {
    match q.items[0] {
      case Push(id) =>
        var s0 := q.stats.(maxDepth := Larger(q.stats.maxDepth, |q.items|));
        PushPulls(q.world, up, id, Ctx(now, map[], q.demanded), s0);
        PullStepPush(q, up, n, now, StepPush(q.world, id, Ctx(now, map[], q.demanded), s0));
      case DemandItem(id) => DemandStep(q.world, q.items, q.demanded, up, n, now);
      case StabilizeItem(_) => StabilizeDemanding(q.world, q.items, q.demanded, up, n);
    }
  }

  /** Once nothing is queued, every demanded node is Pos. */
  lemma {:induction false} DemandedPos(w: World, demanded: set<Uid>, up: set<Uid>, n: Uid, now: ProductTime,
                                       rank: map<Uid, nat>, m: Uid)
    requires Steady(w, up, now) && Demanding(w, [], demanded, up, n)
    requires Ranked(w.reg, rank) && up <= rank.Keys && m in demanded
    ensures m in PosIn(w)
    decreases rank[m]
  {
    assert Pullable(w, up, m) && Served(w, [], demanded, m);
    forall d | d in w.reg.DepsOf(m) ensures d in PosIn(w) {
      if d !in PosIn(w) { DemandedPos(w, demanded, up, n, now, rank, d); }
    }
    assert !Ripe(w, m);
  }

  /** Below a Pos node of the set, everything is Pos. */
  lemma {:induction false} BelowPos(w: World, up: set<Uid>, n: Uid, now: ProductTime, m: Uid, hops: nat)
    requires Steady(w, up, now) && n in up && n in PosIn(w) && Within(w.reg, n, m, hops)
    ensures m in up && m in PosIn(w)
    decreases hops
  {
    if m != n {
      var k :| m in w.reg.DepsOf(k) && Within(w.reg, n, k, hops - 1);
      BelowPos(w, up, n, now, k, hops - 1);
      assert Pullable(w, up, k);
    }
  }

  lemma DrainPulls(q: Queue, up: set<Uid>, n: Uid, now: ProductTime, budget: nat) returns (last: Queue)
    requires Pulling(q, up, n, now) && Drain(q, now, map[], [], budget).Idle?
    ensures Pulling(last, up, n, now) && last.items == []
    ensures Drain(q, now, map[], [], budget).q == last.(demanded := {})
  {
    var inv := p => Pulling(p, up, n, now);
    forall p: Queue | p.world.Wf() && p.items != [] && inv(p) ensures inv(DrainStep(p, now, map[], [])) {
      DrainStepPulls(p, up, n, now);
    }
    last := DrainInduction(q, now, map[], [], budget, inv);
  }

  // ---- the theorem -----------------------------------------------------------------------------

  /** Before the demand: inputs above n are Pos and read nothing, computed nodes above n are Neg
      with rules that map all-Pos dependencies to Pos, and their pairs observe the attribute
      dimension. Modes are free; in particular every node may be Lazy. */
  ghost predicate Unevaluated(w: World, n: Uid) {
    var up := Ancestors(w, n);
    && (forall m :: m in up && w.nodes[m].kind.Input? ==> w.nodes[m].value == Pos && w.reg.DepsOf(m) == {})
    && (forall m :: m in up && w.nodes[m].kind.Computed? ==>
          w.nodes[m].value == Neg && MapsPosToPos(w.nodes[m].kind.rule, |w.reg.OrderedDepsOf(m)|))
    && forall p: (Uid, Uid) :: p in w.reg.meta && p.0 in up ==> Attribute in w.reg.meta[p].mask
  }

  lemma AncestorsClosed(w: World, n: Uid, m: Uid)
    requires Wired(w) && n in w.nodes && m in Ancestors(w, n)
    ensures n in Ancestors(w, n) && w.reg.DepsOf(m) <= Ancestors(w, n)
  {
    assert Within(w.reg, n, n, 0);
    var hops: nat :| Within(w.reg, n, m, hops);
    assert ListsRight(w, m);
    forall d | d in w.reg.DepsOf(m) ensures d in Ancestors(w, n) {
      assert d in w.reg.OrderedDepsOf(m);
      assert Within(w.reg, n, d, hops + 1);
    }
  }

  lemma DemandStarts(w: World, n: Uid, now: ProductTime, stats: Stats)
    requires Wired(w) && n in w.nodes && Unevaluated(w, n) && ClockAhead(w.reg, now)
    ensures Pulling(DemandQueue(w, n, stats), Ancestors(w, n), n, now.Advance(Attribute))
  {
    var up := Ancestors(w, n);
    assert Within(w.reg, n, n, 0);
    forall m | m in up ensures Pullable(w, up, m) { AncestorsClosed(w, n, m); }
  }

  function DemandQueue(w: World, n: Uid, stats: Stats): Queue { Queue(w, [DemandItem(n)], [], stats, {}, 1) }

  lemma DemandMeasure(w: World, n: Uid, now: ProductTime, stats: Stats, rank: map<Uid, nat>)
    requires Ranked(w.reg, rank) && n in rank
    ensures Measure(DemandQueue(w, n, stats), now, Weights(w.reg, rank)) <= Weights(w.reg, rank)[n] + 2 * |w.reg.meta|
  {
    Writes.OpenPairsFew(w.reg.meta, now);
    var weight, item := Weights(w.reg, rank), DemandItem(n);
    assert n in weight && ItemWeight(weight, item) == weight[n];
    assert QueueWeight(weight, [item]) == weight[n] by {
      hide Weights;
      assert [item][..0] == [] && [item][0] == item;
      assert QueueWeight(weight, []) == 0;
    }
  }

  /** A demand on an acyclic graph of Neg nodes over Pos inputs ends idle, and makes the node and
      everything it reads, directly or not, Pos. */
  lemma DemandEvaluates(w: World, n: Uid, now: ProductTime, stats: Stats, rank: map<Uid, nat>, budget: nat)
    requires Wired(w) && n in w.nodes && Unevaluated(w, n) && ClockAhead(w.reg, now)
    requires Ranked(w.reg, rank) && Ancestors(w, n) <= rank.Keys && n in rank
    requires budget >= Weights(w.reg, rank)[n] + 2 * |w.reg.meta|
    ensures var d := Drain(DemandQueue(w, n, stats), now.Advance(Attribute), map[], [], budget);
      d.Idle? && forall m :: m in Ancestors(w, n) ==> m in d.q.world.nodes && d.q.world.nodes[m].value == Pos
  {
    DemandStarts(w, n, now, stats);
    DemandRuns(w, n, now.Advance(Attribute), stats, rank, budget);
    var q, now' := DemandQueue(w, n, stats), now.Advance(Attribute);
    assert n in Ancestors(w, n) by { assert Within(w.reg, n, n, 0); }
    assert q.world == w && Coherent(w);
    hide *;
    var last := DrainPulls(q, Ancestors(w, n), n, now', budget);
    DrainKeeps(q, now', map[], [], budget);
    AllPulled(w, last, Ancestors(w, n), n, now', rank);
    PosInIs(last.world);
  }

  lemma PosInIs(w: World)
    ensures forall m :: m in PosIn(w) <==> m in w.nodes && w.nodes[m].value == Pos
  {}

  lemma DemandRuns(w: World, n: Uid, now: ProductTime, stats: Stats, rank: map<Uid, nat>, budget: nat)
    requires Wired(w) && Ranked(w.reg, rank) && n in rank && budget >= Weights(w.reg, rank)[n] + 2 * |w.reg.meta|
    ensures Drain(DemandQueue(w, n, stats), now, map[], [], budget).Idle?
  {
    DemandMeasure(w, n, now, stats, rank);
    RelatedIsGated(w.reg);
    hide Wired, Weights, Drain, Measure;
    DrainEndsOnAcyclicGraph(DemandQueue(w, n, stats), now, map[], [], rank, budget);
  }

  lemma AllPulled(w: World, last: Queue, up: set<Uid>, n: Uid, now: ProductTime, rank: map<Uid, nat>)
    requires Pulling(last, up, n, now) && last.items == [] && SameGraph(w, last.world)
    requires up == Ancestors(w, n) && n in up && Ranked(w.reg, rank) && up <= rank.Keys
    ensures forall m :: m in up ==> m in PosIn(last.world)
  {
    forall k, d | k in rank && d in last.world.reg.DepsOf(k) ensures d in rank && rank[d] < rank[k] {
      assert d in w.reg.DepsOf(k);
    }
    DemandedPos(last.world, last.demanded, up, n, now, rank, n);
    forall m | m in up ensures m in PosIn(last.world) {
      var hops: nat :| Within(w.reg, n, m, hops);
      WithinSame(w.reg, last.world.reg, n, m, hops);
      BelowPos(last.world, up, n, now, m, hops);
    }
  }

  lemma {:induction false} WithinSame(r0: Registry, r1: Registry, root: Uid, n: Uid, hops: nat)
    requires r0.deps == r1.deps && Within(r0, root, n, hops)
    ensures Within(r1, root, n, hops)
    decreases hops
  {
    if n != root {
      var m :| n in r0.DepsOf(m) && Within(r0, root, m, hops - 1);
      WithinSame(r0, r1, root, m, hops - 1);
      assert n in r1.DepsOf(m);
    }
  }
}
