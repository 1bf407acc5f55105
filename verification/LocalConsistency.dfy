/** Local consistency at quiescence: a write whose effects reach no node by two paths leaves every
    Eager equation that held still holding. */
module LocalConsistency {
  import opened Base
  import opened Ternary
  import opened Rules
  import opened Time
  import opened Isa
  import opened ValueStores
  import opened Deps
  import opened Propagation
  import opened StepFacts
  import opened Draining
  import opened Coherence
  import opened Writes

  // ---- paths ---------------------------------------------------------------------------

  /** A walk along subscriptions. */
  ghost predicate Path(reg: Registry, p: seq<Uid>) {
    |p| > 0 && forall i :: 0 <= i < |p| - 1 ==> p[i] in reg.DepsOf(p[i + 1])
  }

  ghost predicate PathTo(reg: Registry, v: Uid, t: Uid, p: seq<Uid>) {
    Path(reg, p) && p[0] == v && p[|p| - 1] == t
  }

  /** No node is reached from v by two paths. */
  ghost predicate UniquePaths(reg: Registry, v: Uid) {
    forall t: Uid, p: seq<Uid>, q: seq<Uid> :: PathTo(reg, v, t, p) && PathTo(reg, v, t, q) ==> p == q
  }

  ghost predicate Down(reg: Registry, v: Uid, t: Uid) {
    exists p: seq<Uid> :: PathTo(reg, v, t, p)
  }

  lemma DownSelf(reg: Registry, v: Uid)
    ensures Down(reg, v, v)
  {
    assert PathTo(reg, v, v, [v]);
  }

  lemma Extend(reg: Registry, v: Uid, d: Uid, t: Uid, p: seq<Uid>)
    requires PathTo(reg, v, d, p) && d in reg.DepsOf(t)
    ensures PathTo(reg, v, t, p + [t]) && Down(reg, v, t)
  {
    var q := p + [t];
    forall i | 0 <= i < |q| - 1 ensures q[i] in reg.DepsOf(q[i + 1]) {
      if i < |p| - 1 { assert p[i] in reg.DepsOf(p[i + 1]); }
    }
    assert PathTo(reg, v, t, q);
  }

  /** With unique paths, v reads nothing it reaches, no reached node reads itself, and a reached
      node reads only one reached node. */
  lemma OneParent(reg: Registry, v: Uid, t: Uid, d: Uid, e: Uid)
    requires UniquePaths(reg, v) && d in reg.DepsOf(t) && Down(reg, v, d)
    ensures t != v && t != d
    ensures e in reg.DepsOf(t) && Down(reg, v, e) ==> e == d
  {
    var p: seq<Uid> :| PathTo(reg, v, d, p);
    Extend(reg, v, d, t, p);
    DownSelf(reg, v);
    assert PathTo(reg, v, v, [v]);
    assert p + [t] != [v] && p + [t] != p;
    if e in reg.DepsOf(t) && Down(reg, v, e) {
      var q: seq<Uid> :| PathTo(reg, v, e, q);
      Extend(reg, v, e, t, q);
      assert p + [t] == q + [t];
      assert p == (p + [t])[..|p|] && q == (q + [t])[..|q|];
    }
  }

  // ---- the invariant --------------------------------------------------------------------------

  /** m's equation: a Zero dependency gives Zero, all-Pos dependencies give the rule's value, and
      with a Neg dependency (and no Zero) any value stands. */
  ghost predicate Consistent(w: World, m: Uid)
    requires w.Wf() && m in w.nodes && w.nodes[m].kind.Computed?
  {
    w.nodes[m].value == ScanNext(w, m)
  }

  /** The Eager equations the theorem speaks about. */
  ghost predicate Watched(w: World, v: Uid, m: Uid)
    requires w.Wf()
  {
    m in w.nodes && m != v && w.nodes[m].kind.Computed? && w.reg.ModeOf(m) == Eager
  }

  /** t was reached through a node that is done. */
  ghost predicate ParentDone(reg: Registry, v: Uid, done: set<Uid>, t: Uid) {
    exists d :: d in reg.DepsOf(t) && Down(reg, v, d) && d in done
  }

  /** The pairs out of nodes not done are still open. */
  ghost predicate GatesLeft(reg: Registry, done: set<Uid>, now: ProductTime) {
    forall p: (Uid, Uid) :: p in reg.meta ==>
      Attribute in reg.meta[p].mask && (p.0 !in done ==> reg.meta[p].lastSeen.Get(Attribute) < now.Get(Attribute))
  }

  /** Done nodes are reached, each through a done node; queued nodes are Eager, reached through a
      done node, not done themselves and queued once. */
  ghost predicate Wave(reg: Registry, v: Uid, items: seq<WorkItem>, done: set<Uid>) {
    && v in done
    && (forall t :: t in done ==> Down(reg, v, t) && (t != v ==> ParentDone(reg, v, done, t)))
    && Distinct(items)
    && forall item :: item in items ==>
         item.Push? && reg.ModeOf(item.id) == Eager && item.id !in done && ParentDone(reg, v, done, item.id)
  }

  /** Every watched equation that held in w0 holds or its node is queued. */
  ghost predicate Settling(w0: World, w: World, v: Uid, items: seq<WorkItem>)
    requires w0.Wf() && w.Wf() && SameGraph(w0, w)
  {
    forall m :: Watched(w0, v, m) && Consistent(w0, m) ==> Consistent(w, m) || Push(m) in items
  }

  // ---- the wave advances ------------------------------------------------------------------------

  lemma WaveItem(reg: Registry, v: Uid, items: seq<WorkItem>, done: set<Uid>)
    requires UniquePaths(reg, v) && Wave(reg, v, items, done) && items != []
    ensures items[0].Push? && Down(reg, v, items[0].id) && items[0].id != v && items[0].id !in reg.DepsOf(items[0].id)
  {
    assert items[0] in items;
    var id := items[0].id;
    var d :| d in reg.DepsOf(id) && Down(reg, v, d) && d in done;
    var p: seq<Uid> :| PathTo(reg, v, d, p);
    Extend(reg, v, d, id, p);
    OneParent(reg, v, id, d, d);
    if id in reg.DepsOf(id) { OneParent(reg, v, id, id, id); }
  }

  lemma RestOfItems(items: seq<WorkItem>)
    requires items != [] && Distinct(items)
    ensures Distinct(items[1..]) && items[0] !in items[1..]
    ensures forall item :: item in items <==> item == items[0] || item in items[1..]
  {
    assert items == [items[0]] + items[1..];
  }

  /** A subscriber of the node being done is new: not done, not queued, not the written node. */
  lemma ChildIsNew(reg: Registry, v: Uid, items: seq<WorkItem>, done: set<Uid>, id: Uid, s: Uid)
    requires UniquePaths(reg, v) && Wave(reg, v, items, done) && Down(reg, v, id) && id !in done && id in reg.DepsOf(s)
    ensures s !in done && s != id && s != v && Push(s) !in items
  {
    OneParent(reg, v, s, id, id);
    if ParentDone(reg, v, done, s) {
      var d :| d in reg.DepsOf(s) && Down(reg, v, d) && d in done;
      OneParent(reg, v, s, id, d);
    }
  }

  lemma ParentStillDone(reg: Registry, v: Uid, done: set<Uid>, id: Uid, t: Uid)
    requires ParentDone(reg, v, done, t)
    ensures ParentDone(reg, v, done + {id}, t)
  {
    var d :| d in reg.DepsOf(t) && Down(reg, v, d) && d in done;
    assert d in done + {id};
  }

  /** Doing the front node and queueing some of its Eager subscribers keeps the wave. */
  lemma WaveStep(reg: Registry, v: Uid, items: seq<WorkItem>, done: set<Uid>, to: seq<Uid>)
    requires UniquePaths(reg, v) && Wave(reg, v, items, done) && items != [] && Distinct(to)
    requires items[0].Push? && forall s :: s in to ==> items[0].id in reg.DepsOf(s) && reg.ModeOf(s) == Eager
    ensures Wave(reg, v, items[1..] + Pushes(to), done + {items[0].id})
  {
    var id, rest := items[0].id, items[1..];
    var done', items' := done + {id}, rest + Pushes(to);
    WaveItem(reg, v, items, done);
    RestOfItems(items);
    PushesElements(to);
    forall t | t in done' ensures Down(reg, v, t) && (t != v ==> ParentDone(reg, v, done', t)) {
      assert items[0] in items;
      if t != v { ParentStillDone(reg, v, done, id, t); }
    }
    forall s | s in to ensures s !in done' && Push(s) !in items && ParentDone(reg, v, done', s) {
      assert items[0] in items;
      ChildIsNew(reg, v, items, done, id, s);
    }
    forall item | item in items'
      ensures item.Push? && reg.ModeOf(item.id) == Eager && item.id !in done' && ParentDone(reg, v, done', item.id)
    {
      if item in rest { ParentStillDone(reg, v, done, id, item.id); }
    }
    JoinDistinct(rest, to);
  }

  lemma JoinDistinct(rest: seq<WorkItem>, to: seq<Uid>)
    requires Distinct(rest) && Distinct(to) && forall s :: s in to ==> Push(s) !in rest
    ensures Distinct(rest + Pushes(to))
  {
    var items := rest + Pushes(to);
    forall i, j | 0 <= i < j < |items| ensures items[i] != items[j] {
      if i < |rest| <= j { assert items[i] in rest && to[j - |rest|] in to; }
    }
  }

  // ---- equations across a write -------------------------------------------------------------------

  lemma SameReads(w: World, w': World, m: Uid)
    requires w.Wf() && w'.Wf() && m in w.nodes && m in w'.nodes && w.nodes[m].kind.Computed?
    requires w'.nodes[m] == w.nodes[m] && w'.DepVals(m) == w.DepVals(m)
    ensures Consistent(w', m) <==> Consistent(w, m)
  {}

  /** A write elsewhere leaves the equations of nodes that do not read it. */
  lemma ConsistentStands(w: World, w': World, id: Uid, next: T, m: Uid)
    requires Wired(w) && Wired(w') && id in w.nodes && Wrote(w, w', id, next)
    requires m in w.nodes && w.nodes[m].kind.Computed? && m != id && (id !in w.reg.DepsOf(m) || next == w.nodes[id].value)
    ensures m in w'.nodes && w'.nodes[m] == w.nodes[m] && (Consistent(w', m) <==> Consistent(w, m))
  {
    WroteSameGraph(w, w', id, next);
    assert ListsRight(w, m) && ListsRight(w', m);
    if id !in w.reg.DepsOf(m) {
      DepValsStand(w, w', id, next, m);
    } else {
      assert w'.DepVals(m) == w.DepVals(m);
    }
    SameReads(w, w', m);
  }

  /** A node that took its equation's value satisfies it. */
  lemma ConsistentAfter(w: World, w': World, id: Uid)
    requires Wired(w) && Wired(w') && id in w.nodes && w.nodes[id].kind.Computed?
    requires Wrote(w, w', id, ScanNext(w, id)) && id !in w.reg.DepsOf(id)
    ensures id in w'.nodes && w'.nodes[id].kind.Computed? && Consistent(w', id)
  {
    WroteSameGraph(w, w', id, ScanNext(w, id));
    assert ListsRight(w, id) && ListsRight(w', id);
    DepValsStand(w, w', id, ScanNext(w, id), id);
  }

  /** The Eager readers of the node are pushed, or its value stayed. */
  ghost predicate Informs(w: World, id: Uid, next: T, work: seq<WorkItem>)
    requires id in w.nodes
  {
    next == w.nodes[id].value || forall m :: m in w.nodes && id in w.reg.DepsOf(m) && w.reg.ModeOf(m) == Eager ==> Push(m) in work
  }

  lemma SettleOne(w: World, w': World, items: seq<WorkItem>, id: Uid, work: seq<WorkItem>, m: Uid)
    requires w.Wf() && w'.Wf() && Wired(w) && Wired(w') && id in w.nodes && w.nodes[id].kind.Computed?
    requires Wrote(w, w', id, ScanNext(w, id)) && id !in w.reg.DepsOf(id) && Informs(w, id, ScanNext(w, id), work)
    requires m in w.nodes && m in w'.nodes && w.nodes[m].kind.Computed? && w'.nodes[m].kind.Computed? && w.reg.ModeOf(m) == Eager
    requires items != [] && items[0] == Push(id) && (Consistent(w, m) || Push(m) in items)
    ensures Consistent(w', m) || Push(m) in items[1..] + work
  {
    hide Wired, Wrote, Consistent, ScanNext, StateOf, World.DepVals;
    assert items == [items[0]] + items[1..];
    if m == id {
      ConsistentAfter(w, w', id);
    } else if id in w.reg.DepsOf(m) && ScanNext(w, id) != w.nodes[id].value {
      assert Push(m) in work;
    } else {
      ConsistentStands(w, w', id, ScanNext(w, id), m);
    }
  }

  /** A scan's work informs the readers of the node. */
  lemma ScanInforms(w: World, id: Uid, ctx: Ctx, done: set<Uid>)
    requires Wired(w) && id in w.nodes && w.nodes[id].kind.Computed? && w.reg.ModeOf(id) == Eager
    requires GatesLeft(w.reg, done, ctx.now) && id !in done && ctx.auth == map[]
    ensures Informs(w, id, ScanNext(w, id), Pushes(ScanTo(w, id, ctx)))
  {
    if ScanPushes(w, id) { AcceptedInform(w, id, ctx, done, ScanNext(w, id)); }
  }

  lemma AcceptedInform(w: World, id: Uid, ctx: Ctx, done: set<Uid>, next: T)
    requires Related(w.reg) && id in w.nodes && GatesLeft(w.reg, done, ctx.now) && id !in done && ctx.auth == map[]
    ensures Informs(w, id, next, Pushes(Accepted(w.reg, id, Ascending(w.reg.SubsOf(id)), ctx)))
  {
    PushedItems(w.reg, id, ctx);
    forall m | m in w.nodes && id in w.reg.DepsOf(m) && w.reg.ModeOf(m) == Eager
      ensures m in w.reg.SubsOf(id) && Accepts(w.reg, id, m, ctx)
    {
      assert m in w.reg.SubsOf(id) && (id, m) in w.reg.meta;
      var meta := w.reg.meta[(id, m)];
      assert Attribute in meta.mask && ctx.now.Get(Attribute) > meta.lastSeen.Get(Attribute);
    }
  }

  /** Everyone accepted outside a demand is an Eager subscriber, once. */
  lemma AcceptedAreEager(reg: Registry, id: Uid, ctx: Ctx)
    requires Related(reg) && ctx.demanded == {}
    ensures var to := Accepted(reg, id, Ascending(reg.SubsOf(id)), ctx);
      Distinct(to) && forall s :: s in to ==> id in reg.DepsOf(s) && reg.ModeOf(s) == Eager
  {
    AscendingDistinct(reg.SubsOf(id));
    AscendingElements(reg.SubsOf(id));
    AcceptedElements(reg, id, Ascending(reg.SubsOf(id)), ctx);
  }

  lemma StampedGates(reg: Registry, reg': Registry, id: Uid, to: seq<Uid>, done: set<Uid>, now: ProductTime)
    requires GatesLeft(reg, done, now) && reg'.meta == Stamped(reg.meta, id, to, now)
    ensures GatesLeft(reg', done + {id}, now)
  {}

  // ---- the drain ---------------------------------------------------------------------------------

  /** What every step keeps after the write of v on w0. */
  ghost predicate Spreading(q: Queue, w0: World, v: Uid, now: ProductTime, done: set<Uid>)
    requires w0.Wf()
  {
    && Wired(q.world) && SameGraph(w0, q.world) && q.demanded == {}
    && GatesLeft(q.world.reg, done, now) && Wave(w0.reg, v, q.items, done) && Settling(w0, q.world, v, q.items)
  }

  lemma SettleAll(w0: World, w: World, w': World, v: Uid, items: seq<WorkItem>, id: Uid, work: seq<WorkItem>)
    requires w0.Wf() && Wired(w) && Wired(w') && SameGraph(w0, w) && SameGraph(w0, w')
    requires id in w.nodes && w.nodes[id].kind.Computed?
    requires Wrote(w, w', id, ScanNext(w, id)) && id !in w.reg.DepsOf(id) && Informs(w, id, ScanNext(w, id), work)
    requires items != [] && items[0] == Push(id) && Settling(w0, w, v, items)
    ensures Settling(w0, w', v, items[1..] + work)
  {
    forall m | Watched(w0, v, m) && Consistent(w0, m) ensures Consistent(w', m) || Push(m) in items[1..] + work {
      SettleOne(w, w', items, id, work, m);
    }
  }

  /** A push of a node that does not compute. */
  lemma IdleSettles(w0: World, w: World, v: Uid, items: seq<WorkItem>)
    requires w0.Wf() && w.Wf() && SameGraph(w0, w) && Settling(w0, w, v, items) && items != [] && items[0].Push?
    requires items[0].id !in w.nodes || w.nodes[items[0].id].kind.Input?
    ensures Settling(w0, w, v, items[1..] + [])
  {
    assert items[1..] + [] == items[1..];
    assert items == [items[0]] + items[1..];
  }

  /** The step's write, stamps and pushes. */
  lemma ComputedWrites(w0: World, w: World, id: Uid, ctx: Ctx, stats: Stats, done: set<Uid>)
    requires Wired(w) && SameGraph(w0, w) && id in w.nodes && w.nodes[id].kind.Computed? && w.reg.ModeOf(id) == Eager
    requires GatesLeft(w.reg, done, ctx.now)
    ensures var o, to := StepScan(w, id, ctx, stats), ScanTo(w, id, ctx);
      && Wired(o.world) && SameGraph(w0, o.world) && Wrote(w, o.world, id, ScanNext(w, id))
      && GatesLeft(o.world.reg, done + {id}, ctx.now) && o.work == Pushes(to)
  {
    var o, to := StepScan(w, id, ctx, stats), ScanTo(w, id, ctx);
    ScanEffect(w, id, ctx, stats);
    assert Pushes(to) + [] == Pushes(to);
    hide StepScan, ScanTo, ScanNext;
    EffectWrote(w, id, ctx, o, ScanNext(w, id), to, []);
    StampedGates(w.reg, o.world.reg, id, to, done, ctx.now);
    hide Effect, GatesLeft, Stamped;
    WroteWired(w, o.world, id, ScanNext(w, id));
    WroteSameGraph(w, o.world, id, ScanNext(w, id));
    hide Wired, Wrote;
    SameGraphTransitive(w0, w, o.world);
  }

  lemma ComputedSpreads(q: Queue, w0: World, v: Uid, now: ProductTime, done: set<Uid>, stats: Stats, o: Outcome)
    requires Wired(w0) && UniquePaths(w0.reg, v) && Spreading(q, w0, v, now, done) && q.items != [] && q.items[0].Push?
    requires q.items[0].id in q.world.nodes && q.world.nodes[q.items[0].id].kind.Computed?
    requires o == StepScan(q.world, q.items[0].id, Ctx(now, map[], {}), stats)
    ensures Spreading(Queue(o.world, q.items[1..] + o.work, q.events + o.events, o.stats, {}, q.frontier), w0, v, now,
                      done + {q.items[0].id})
  {
    var w, id, ctx := q.world, q.items[0].id, Ctx(now, map[], {});
    var to := ScanTo(w, id, ctx);
    SpreadingParts(q, w0, v, now, done);
    hide *;
    WaveItem(w0.reg, v, q.items, done);
    ComputedWrites(w0, w, id, ctx, stats, done);
    ScanInforms(w, id, ctx, done);
    SettleAll(w0, w, o.world, v, q.items, id, o.work);
    ScanToEager(w0, w, id, ctx);
    WaveStep(w0.reg, v, q.items, done, to);
    SpreadingFrom(Queue(o.world, q.items[1..] + o.work, q.events + o.events, o.stats, {}, q.frontier), w0, v, now, done + {id});
  }

  lemma SpreadingFrom(q: Queue, w0: World, v: Uid, now: ProductTime, done: set<Uid>)
    requires w0.Wf() && Wired(q.world) && SameGraph(w0, q.world) && q.demanded == {}
    requires GatesLeft(q.world.reg, done, now) && Wave(w0.reg, v, q.items, done) && Settling(w0, q.world, v, q.items)
    ensures Spreading(q, w0, v, now, done)
  {}

  lemma SpreadingParts(q: Queue, w0: World, v: Uid, now: ProductTime, done: set<Uid>)
    requires w0.Wf() && Spreading(q, w0, v, now, done) && q.items != [] && q.items[0].Push?
    ensures Wired(q.world) && q.world.Wf() && Related(q.world.reg) && SameGraph(w0, q.world) && GatesLeft(q.world.reg, done, now)
    ensures Wave(w0.reg, v, q.items, done) && Settling(w0, q.world, v, q.items)
    ensures var id := q.items[0].id;
      q.world.reg.ModeOf(id) == Eager && q.world.reg.DepsOf(id) == w0.reg.DepsOf(id) && id !in done
  {
    assert q.items[0] in q.items;
    hide Settling, GatesLeft;
  }

  lemma ScanToEager(w0: World, w: World, id: Uid, ctx: Ctx)
    requires w.Wf() && Related(w.reg) && SameGraph(w0, w) && ctx.demanded == {} && id in w.nodes && w.nodes[id].kind.Computed?
    ensures var to := ScanTo(w, id, ctx);
      Distinct(to) && forall s :: s in to ==> id in w0.reg.DepsOf(s) && w0.reg.ModeOf(s) == Eager
  {
    AcceptedAreEager(w.reg, id, ctx);
    forall s | s in ScanTo(w, id, ctx) ensures id in w0.reg.DepsOf(s) && w0.reg.ModeOf(s) == Eager {
      assert w.reg.DepsOf(s) == w0.reg.DepsOf(s) && w.reg.ModeOf(s) == w0.reg.ModeOf(s);
    }
  }

  lemma IdleSpreads(q: Queue, w0: World, v: Uid, now: ProductTime, done: set<Uid>, s: Stats)
    requires Wired(w0) && UniquePaths(w0.reg, v) && Spreading(q, w0, v, now, done) && q.items != [] && q.items[0].Push?
    requires q.items[0].id !in q.world.nodes || q.world.nodes[q.items[0].id].kind.Input?
    ensures Spreading(Queue(q.world, q.items[1..] + [], q.events + [], s, {}, q.frontier), w0, v, now, done + {q.items[0].id})
  {
    IdleSettles(w0, q.world, v, q.items);
    WaveStep(w0.reg, v, q.items, done, []);
    assert Pushes([]) == [];
  }

  lemma DrainStepSpreads(q: Queue, w0: World, v: Uid, now: ProductTime, done: set<Uid>)
    requires Wired(w0) && UniquePaths(w0.reg, v) && Spreading(q, w0, v, now, done) && q.items != []
    ensures exists done' :: Spreading(DrainStep(q, now, map[], []), w0, v, now, done')
  {
    assert q.items[0] in q.items;
    var id := q.items[0].id;
    var s0 := q.stats.(maxDepth := Larger(q.stats.maxDepth, |q.items|));
    var o := StepPush(q.world, id, Ctx(now, map[], {}), s0);
    if id in q.world.nodes && q.world.nodes[id].kind.Computed? {
      WiredPushIsScan(q.world, id, Ctx(now, map[], {}), s0);
      ComputedSpreads(q, w0, v, now, done, s0, o);
    } else {
      IdleSpreads(q, w0, v, now, done, s0);
    }
    assert Spreading(DrainStep(q, now, map[], []), w0, v, now, done + {id});
  }

  /** The queue a write leaves starts the wave. */
  lemma WriteSpreads(w: World, n: Uid, v: T, now: ProductTime, stats: Stats)
    requires Wired(w) && n in w.nodes && v != w.nodes[n].value && UniquePaths(w.reg, n) && GatesLeft(w.reg, {}, now)
    ensures Spreading(WriteQueue(w, n, v, now, stats), w, n, now, {n})
  {
    var q, ctx := WriteQueue(w, n, v, now, stats), WriteCtx(now);
    var to := Accepted(w.reg, n, Ascending(w.reg.SubsOf(n)), ctx);
    WriteKeeps(w, n, v, now);
    WriteEffect(w, n, v, now);
    assert q.items == Pushes(to) by { assert Pushes(to) + [] == Pushes(to); }
    StampedGates(w.reg, q.world.reg, n, to, {}, now);
    assert {} + {n} == {n};
    AcceptedAreEager(w.reg, n, ctx);
    FirstWave(w.reg, n, to);
    WriteSettling(w, n, v, now);
  }

  lemma FirstWave(reg: Registry, n: Uid, to: seq<Uid>)
    requires UniquePaths(reg, n) && Distinct(to) && forall s :: s in to ==> n in reg.DepsOf(s) && reg.ModeOf(s) == Eager
    ensures Wave(reg, n, Pushes(to), {n})
  {
    DownSelf(reg, n);
    PushesElements(to);
    forall s | s in to ensures s != n && ParentDone(reg, n, {n}, s) { OneParent(reg, n, s, n, n); }
    JoinDistinct([], to);
    assert [] + Pushes(to) == Pushes(to);
  }

  lemma WriteSettling(w: World, n: Uid, v: T, now: ProductTime)
    requires Wired(w) && n in w.nodes && v != w.nodes[n].value && UniquePaths(w.reg, n) && GatesLeft(w.reg, {}, now)
    ensures var w' := WriteWorld(w, n, v, now);
      w'.Wf() && SameGraph(w, w') && Settling(w, w', n, Pushes(Accepted(w.reg, n, Ascending(w.reg.SubsOf(n)), WriteCtx(now))))
  {
    var w', ctx := WriteWorld(w, n, v, now), WriteCtx(now);
    var work := Pushes(Accepted(w.reg, n, Ascending(w.reg.SubsOf(n)), ctx));
    WriteKeeps(w, n, v, now);
    WriteWrote(w, n, v, now);
    AcceptedInform(w, n, ctx, {}, v);
    forall m | Watched(w, n, m) && Consistent(w, m) ensures Consistent(w', m) || Push(m) in work {
      if n !in w.reg.DepsOf(m) { ConsistentStands(w, w', n, v, m); }
    }
  }

  lemma WriteWrote(w: World, n: Uid, v: T, now: ProductTime)
    requires Coherent(w) && n in w.nodes && v != w.nodes[n].value
    ensures Wrote(w, WriteWorld(w, n, v, now), n, v)
  {
    var ctx := WriteCtx(now);
    WriteEffect(w, n, v, now);
    EffectWrote(w, n, ctx, Outcome(WriteWorld(w, n, v, now), Some(v), [ValueChanged(n, w.nodes[n].value, v)],
                                   WriteItems(w, n, v, now), NO_STATS),
                v, Accepted(w.reg, n, Ascending(w.reg.SubsOf(n)), ctx), []);
  }

  lemma DrainSpreads(q: Queue, w0: World, v: Uid, now: ProductTime, done: set<Uid>, budget: nat)
    requires Wired(w0) && UniquePaths(w0.reg, v) && Spreading(q, w0, v, now, done) && Drain(q, now, map[], [], budget).Idle?
    ensures var w' := Drain(q, now, map[], [], budget).q.world;
      Wired(w') && SameGraph(w0, w') && Settling(w0, w', v, [])
  {
    var inv := p => exists d :: Spreading(p, w0, v, now, d);
    forall p: Queue | p.world.Wf() && p.items != [] && inv(p) ensures inv(DrainStep(p, now, map[], [])) {
      var d :| Spreading(p, w0, v, now, d);
      DrainStepSpreads(p, w0, v, now, d);
    }
    var last := DrainInduction(q, now, map[], [], budget, inv);
  }

  lemma ClockLeavesGates(reg: Registry, now: ProductTime)
    requires ClockAhead(reg, now) && forall p :: p in reg.meta ==> Attribute in reg.meta[p].mask
    ensures GatesLeft(reg, {}, now.Advance(Attribute))
  {}

  /** Whatever value is written to n, and whatever the modes: if no node is reached from n by two
      paths and every pair observes the attribute dimension, the drain ends idle and every Eager
      computed node other than n whose equation held before still satisfies it. */
  lemma WriteStaysConsistent(w: World, n: Uid, v: T, now: ProductTime, stats: Stats, budget: nat)
    requires Wired(w) && ClockAhead(w.reg, now) && n in w.nodes && v != w.nodes[n].value && UniquePaths(w.reg, n)
    requires forall p :: p in w.reg.meta ==> Attribute in w.reg.meta[p].mask
    requires budget >= 2 * |w.reg.meta|
    ensures var now' := now.Advance(Attribute);
      WriteQueue(w, n, v, now', stats).world.Wf() && Drain(WriteQueue(w, n, v, now', stats), now', map[], [], budget).Idle?
    ensures var w' := Drain(WriteQueue(w, n, v, now.Advance(Attribute), stats), now.Advance(Attribute), map[], [], budget).q.world;
      && w'.Wf() && SameGraph(w, w')
      && forall m :: m in w.nodes && m != n && w.nodes[m].kind.Computed? && w.reg.ModeOf(m) == Eager && Consistent(w, m)
           ==> Consistent(w', m)
  {
    var now' := now.Advance(Attribute);
    ClockLeavesGates(w.reg, now);
    WriteSpreads(w, n, v, now', stats);
    WriteDrains(w, n, v, now', stats, map[], budget);
    DrainSpreads(WriteQueue(w, n, v, now', stats), w, n, now', {n}, budget);
  }
}
