/** What one push step can change, on every world: the frame that the run theorems stand on. */
module StepFacts {
  import opened Base
  import Bits
  import opened Ternary
  import opened Rules
  import opened Time
  import opened Isa
  import opened ValueStores
  import opened Deps
  import opened Propagation
  import CounterPath

  // ---- the subscriber loop in closed form ------------------------------------------------

  /** All three gates let the pair through. */
  predicate Accepts(reg: Registry, n: Uid, sub: Uid, ctx: Ctx) {
    reg.Open(n, sub, ctx.now) && (reg.ModeOf(sub) == Eager || sub in ctx.demanded) && ctx.VerdictOf(n, sub) != Deny
  }

  function Accepted(reg: Registry, n: Uid, subs: seq<Uid>, ctx: Ctx): seq<Uid> {
    if subs == [] then []
    else Accepted(reg, n, subs[..|subs| - 1], ctx)
         + (if Accepts(reg, n, subs[|subs| - 1], ctx) then [subs[|subs| - 1]] else [])
  }

  lemma {:induction false} AcceptedElements(reg: Registry, n: Uid, subs: seq<Uid>, ctx: Ctx)
    ensures forall s :: s in Accepted(reg, n, subs, ctx) <==> s in subs && Accepts(reg, n, s, ctx)
    ensures Distinct(subs) ==> Distinct(Accepted(reg, n, subs, ctx))
    decreases |subs|
  {
    if subs != [] {
      var front, last := subs[..|subs| - 1], subs[|subs| - 1];
      assert subs == front + [last];
      AcceptedElements(reg, n, front, ctx);
      if Distinct(subs) {
        forall i | 0 <= i < |front| ensures front[i] != last { assert subs[i] == front[i] && subs[|subs| - 1] == last; }
        assert last !in front;
      }
    }
  }

  function Pushes(ids: seq<Uid>): (items: seq<WorkItem>)
    ensures |items| == |ids| && forall i :: 0 <= i < |ids| ==> items[i] == Push(ids[i])
  {
    seq(|ids|, i requires 0 <= i < |ids| => Push(ids[i]))
  }

  /** What an accepted list queues: exactly the subscribers that all gates let through. */
  lemma PushedItems(reg: Registry, n: Uid, ctx: Ctx)
    ensures forall item :: item in Pushes(Accepted(reg, n, Ascending(reg.SubsOf(n)), ctx)) <==>
                             item.Push? && item.id in reg.SubsOf(n) && Accepts(reg, n, item.id, ctx)
  {
    var to := Accepted(reg, n, Ascending(reg.SubsOf(n)), ctx);
    AscendingElements(reg.SubsOf(n));
    AcceptedElements(reg, n, Ascending(reg.SubsOf(n)), ctx);
    PushesElements(to);
  }

  lemma PushesElements(ids: seq<Uid>)
    ensures forall item :: item in Pushes(ids) <==> item.Push? && item.id in ids
  {
    forall item ensures item in Pushes(ids) <==> item.Push? && item.id in ids {
      if item in Pushes(ids) {
        var k :| 0 <= k < |ids| && Pushes(ids)[k] == item;
      }
      if item.Push? && item.id in ids {
        var k :| 0 <= k < |ids| && ids[k] == item.id;
        assert Pushes(ids)[k] == item;
      }
    }
  }

  /** The metadata after stamping the pairs (n, s) for s in a list. */
  function Stamped(meta: map<(Uid, Uid), DepMeta>, n: Uid, to: seq<Uid>, now: ProductTime): map<(Uid, Uid), DepMeta> {
    map p | p in meta :: if p.0 == n && p.1 in to then meta[p].(lastSeen := meta[p].lastSeen.Join(now)) else meta[p]
  }

  lemma StampOne(meta: map<(Uid, Uid), DepMeta>, reg: Registry, n: Uid, to: seq<Uid>, s: Uid, now: ProductTime)
    requires reg.meta == Stamped(meta, n, to, now) && s !in to
    ensures reg.UpdateLastSeen(n, s, now).meta == Stamped(meta, n, to + [s], now)
  {}

  lemma LastIsFresh(subs: seq<Uid>)
    requires Distinct(subs) && subs != []
    ensures Distinct(subs[..|subs| - 1]) && subs[|subs| - 1] !in subs[..|subs| - 1]
    ensures subs == subs[..|subs| - 1] + [subs[|subs| - 1]]
  {}

  /** b is a's loop state after the accepted subscribers `to`. */
  ghost predicate PushedTo(a: Acc, b: Acc, n: Uid, to: seq<Uid>, now: ProductTime) {
    && b.reg == a.reg.(meta := Stamped(a.reg.meta, n, to, now))
    && b.work == a.work + Pushes(to)
    && a.events <= b.events
    && forall i :: |a.events| <= i < |b.events| ==> b.events[i].AuthViolation?
  }

  lemma PushSubStep(a: Acc, b: Acc, n: Uid, to: seq<Uid>, s: Uid, ctx: Ctx)
    requires PushedTo(a, b, n, to, ctx.now) && s !in to
    ensures PushedTo(a, PushSub(b, n, s, ctx), n, if Accepts(a.reg, n, s, ctx) then to + [s] else to, ctx.now)
  {
    assert b.reg.Open(n, s, ctx.now) == a.reg.Open(n, s, ctx.now);
    if Accepts(a.reg, n, s, ctx) {
      StampOne(a.reg.meta, b.reg, n, to, s, ctx.now);
      assert Pushes(to + [s]) == Pushes(to) + [Push(s)];
      assert b.work + [Push(s)] == a.work + (Pushes(to) + [Push(s)]);
    }
  }

  /** The loop enqueues exactly the accepted subscribers, in order, and stamps exactly their
      pairs; it touches nothing else in the registry and reports only authority violations. */
  lemma {:induction false} PushSubsResult(a: Acc, n: Uid, subs: seq<Uid>, ctx: Ctx)
    requires Distinct(subs)
    ensures PushedTo(a, PushSubs(a, n, subs, ctx), n, Accepted(a.reg, n, subs, ctx), ctx.now)
    decreases |subs|
  {
    if subs == [] {
      assert Stamped(a.reg.meta, n, [], ctx.now) == a.reg.meta;
    } else {
      LastIsFresh(subs);
      var front, last := subs[..|subs| - 1], subs[|subs| - 1];
      PushSubsResult(a, n, front, ctx);
      AcceptedElements(a.reg, n, front, ctx);
      PushSubStep(a, PushSubs(a, n, front, ctx), n, Accepted(a.reg, n, front, ctx), last, ctx);
    }
  }

  lemma AscendingDistinct(s: set<Uid>)
    ensures Distinct(Ascending(s))
  {
    AscendingSorted(s);
  }

  /** The counters after one transition is recorded for the listed subscribers. */
  ghost predicate Bumped(c0: map<Uid, Counters>, c1: map<Uid, Counters>, subs: seq<Uid>, prior: T, next: T) {
    && c1.Keys == c0.Keys
    && forall t :: t in c0 ==> c1[t] == if t in subs then c0[t].Update(prior, next) else c0[t]
  }

  lemma BumpStep(c0: map<Uid, Counters>, r: Registry, front: seq<Uid>, s: Uid, prior: T, next: T)
    requires Bumped(c0, r.counters, front, prior, next) && s !in front
    ensures Bumped(c0, r.UpdateCounter(s, prior, next).counters, front + [s], prior, next)
  {
    if s in c0 { assert r.counters[s] == c0[s]; }
  }

  /** Bumping touches nothing but counters, and each listed one once. */
  lemma {:induction false} BumpAllResult(reg: Registry, subs: seq<Uid>, prior: T, next: T)
    requires Distinct(subs)
    ensures BumpAll(reg, subs, prior, next) == reg.(counters := BumpAll(reg, subs, prior, next).counters)
    ensures Bumped(reg.counters, BumpAll(reg, subs, prior, next).counters, subs, prior, next)
    decreases |subs|
  {
    if subs != [] {
      LastIsFresh(subs);
      var front, last := subs[..|subs| - 1], subs[|subs| - 1];
      BumpAllResult(reg, front, prior, next);
      BumpStep(reg.counters, BumpAll(reg, front, prior, next), front, last, prior, next);
    }
  }

  lemma {:induction false} AcceptedFrame(r0: Registry, r1: Registry, n: Uid, subs: seq<Uid>, ctx: Ctx)
    requires r0.meta == r1.meta && r0.modes == r1.modes
    ensures Accepted(r0, n, subs, ctx) == Accepted(r1, n, subs, ctx)
    decreases |subs|
  {
    if subs != [] { AcceptedFrame(r0, r1, n, subs[..|subs| - 1], ctx); }
  }

  // ---- the effect of a push ----------------------------------------------------------------

  /** The value changes an event list reports. */
  function ChangesIn(events: seq<PropEvent>): seq<PropEvent> {
    if events == [] then []
    else ChangesIn(events[..|events| - 1]) + (if events[|events| - 1].ValueChanged? then [events[|events| - 1]] else [])
  }

  lemma {:induction false} ChangesInAppend(a: seq<PropEvent>, b: seq<PropEvent>)
    ensures ChangesIn(a + b) == ChangesIn(a) + ChangesIn(b)
    decreases |b|
  {
    if b == [] {
      assert a + b == a;
    } else {
      ChangesInAppend(a, b[..|b| - 1]);
      assert (a + b)[..|a + b| - 1] == a + b[..|b| - 1];
    }
  }

  lemma {:induction false} NoChangesIn(events: seq<PropEvent>)
    requires forall i :: 0 <= i < |events| ==> !events[i].ValueChanged?
    ensures ChangesIn(events) == []
    decreases |events|
  {
    if events != [] { NoChangesIn(events[..|events| - 1]); }
  }

  function ReportOf(n: Uid, prior: T, next: T): seq<PropEvent> {
    if next != prior then [ValueChanged(n, prior, next)] else []
  }

  /** n now holds `next`, the counters of its subscribers follow, the pairs to the subscribers
      in `to` are stamped and those subscribers queued, then the extra items. */
  ghost predicate Effect(w: World, n: Uid, ctx: Ctx, o: Outcome, next: T, to: seq<Uid>, extra: seq<WorkItem>)
    requires w.Wf() && n in w.nodes
  {
    var prior := w.nodes[n].value;
    && o.world.nodes == (if next != prior then w.Put(n, next).nodes else w.nodes)
    && o.world.store == (if next != prior then w.Put(n, next).store else w.store)
    && o.world.reg == w.reg.(counters := o.world.reg.counters, meta := Stamped(w.reg.meta, n, to, ctx.now))
    && (if next != prior then Bumped(w.reg.counters, o.world.reg.counters, Ascending(w.reg.SubsOf(n)), prior, next)
        else o.world.reg.counters == w.reg.counters)
    && o.work == Pushes(to) + extra
    && ChangesIn(o.events) == ReportOf(n, prior, next)
  }

  lemma NoEffect(w: World, n: Uid, ctx: Ctx, stats: Stats, val: Option<T>)
    requires w.Wf() && n in w.nodes
    ensures Effect(w, n, ctx, Outcome(w, val, [], [], stats), w.nodes[n].value, [], [])
  {
    assert Stamped(w.reg.meta, n, [], ctx.now) == w.reg.meta;
  }

  /** Events appended without value changes leave the report. */
  lemma QuietSuffix(e0: seq<PropEvent>, e1: seq<PropEvent>)
    requires e0 <= e1 && forall i :: |e0| <= i < |e1| ==> !e1[i].ValueChanged?
    ensures ChangesIn(e1) == ChangesIn(e0)
  {
    assert e1 == e0 + e1[|e0|..];
    NoChangesIn(e1[|e0|..]);
    ChangesInAppend(e0, e1[|e0|..]);
  }

  /** The accumulator a step enters its subscriber loop with: value written, counters bumped. */
  ghost predicate Entered(w: World, n: Uid, next: T, a: Acc)
    requires n in w.nodes
  {
    var prior := w.nodes[n].value;
    && a.reg == (if next != prior then BumpAll(w.reg, Ascending(w.reg.SubsOf(n)), prior, next) else w.reg)
    && a.work == []
    && ChangesIn(a.events) == ReportOf(n, prior, next)
  }

  function Written(w: World, n: Uid, next: T): World
    requires w.Wf() && n in w.nodes
  {
    if next != w.nodes[n].value then w.Put(n, next) else w
  }

  /** The outcome of a step that wrote `next` and left its subscriber loop with b. */
  function Finish(w: World, n: Uid, next: T, b: Acc): Outcome
    requires w.Wf() && n in w.nodes
  {
    Outcome(Written(w, n, next).(reg := b.reg), Some(next), b.events, b.work, b.stats)
  }

  /** A write that does not push. */
  lemma QuietEffect(w: World, n: Uid, ctx: Ctx, next: T, a: Acc, b: Acc)
    requires w.Wf() && n in w.nodes && Entered(w, n, next, a)
    requires b.reg == a.reg && a.events <= b.events
    requires forall i :: |a.events| <= i < |b.events| ==> !b.events[i].ValueChanged?
    ensures Effect(w, n, ctx, Finish(w, n, next, b), next, [], b.work)
  {
    AscendingDistinct(w.reg.SubsOf(n));
    BumpAllResult(w.reg, Ascending(w.reg.SubsOf(n)), w.nodes[n].value, next);
    assert Stamped(w.reg.meta, n, [], ctx.now) == w.reg.meta;
    QuietSuffix(a.events, b.events);
  }

  /** A write followed by the subscriber loop. */
  lemma PushEffect(w: World, n: Uid, ctx: Ctx, next: T, a: Acc, b: Acc)
    requires w.Wf() && n in w.nodes && Entered(w, n, next, a)
    requires b == PushSubs(a, n, Ascending(w.reg.SubsOf(n)), ctx)
    ensures Effect(w, n, ctx, Finish(w, n, next, b), next, Accepted(w.reg, n, Ascending(w.reg.SubsOf(n)), ctx), [])
  {
    var subs := Ascending(w.reg.SubsOf(n));
    AscendingDistinct(w.reg.SubsOf(n));
    BumpAllResult(w.reg, subs, w.nodes[n].value, next);
    AcceptedFrame(a.reg, w.reg, n, subs, ctx);
    PushSubsResult(a, n, subs, ctx);
    QuietSuffix(a.events, b.events);
  }

  /** What the general path writes and whom it pushes to, from the state of the dependencies. */
  function ScanNext(w: World, n: Uid): T
    requires w.Wf() && n in w.nodes && w.nodes[n].kind.Computed?
  {
    var vals := w.DepVals(n);
    match StateOf(vals)
    case Pending => w.nodes[n].value
    case Ready => EvalOrNeg(w.nodes[n].kind.rule, vals)
    case Conflicted => Zero
  }

  predicate ScanPushes(w: World, n: Uid)
    requires w.Wf() && n in w.nodes && w.nodes[n].kind.Computed?
  {
    match StateOf(w.DepVals(n))
    case Pending => false
    case Ready => ScanNext(w, n) != w.nodes[n].value
    case Conflicted => w.reg.ModeOf(n) == Eager
  }

  function ScanExtra(w: World, n: Uid): seq<WorkItem>
    requires w.Wf() && n in w.nodes && w.nodes[n].kind.Computed?
  {
    if StateOf(w.DepVals(n)) == Conflicted && w.reg.ModeOf(n) == Stabilizing
    then [StabilizeItem(w.reg.OrderedDepsOf(n) + [n])] else []
  }

  function ScanTo(w: World, n: Uid, ctx: Ctx): seq<Uid>
    requires w.Wf() && n in w.nodes && w.nodes[n].kind.Computed?
  {
    if ScanPushes(w, n) then Accepted(w.reg, n, Ascending(w.reg.SubsOf(n)), ctx) else []
  }

  lemma ScanEffect(w: World, n: Uid, ctx: Ctx, stats: Stats)
    requires w.Wf() && n in w.nodes && w.nodes[n].kind.Computed?
    ensures Effect(w, n, ctx, StepScan(w, n, ctx, stats), ScanNext(w, n), ScanTo(w, n, ctx), ScanExtra(w, n))
  {
    match StateOf(w.DepVals(n)) {
      case Pending => NoEffect(w, n, ctx, stats, None);
      case Ready => ScanReadyEffect(w, n, ctx, stats);
      case Conflicted => ScanConflictedEffect(w, n, ctx, stats);
    }
  }

  lemma SingleReport(n: Uid, prior: T, next: T)
    ensures ChangesIn([ValueChanged(n, prior, next)]) == [ValueChanged(n, prior, next)]
    ensures ChangesIn([BochvarInfected(n, None), ValueChanged(n, prior, next)]) == [ValueChanged(n, prior, next)]
    ensures ChangesIn([BochvarInfected(n, None)]) == []
  {
    var b, c := BochvarInfected(n, None), ValueChanged(n, prior, next);
    assert [b, c][..1] == [b] && [b][..0] == [] && [c][..0] == [];
  }

  /** Where a step stands after writing a new value, before its subscriber loop. */
  function WriteAcc(w: World, n: Uid, next: T, stats: Stats): Acc
    requires n in w.nodes
  {
    Acc(w.reg, [ValueChanged(n, w.nodes[n].value, next)], [], stats.(materialized := stats.materialized + 1))
  }

  /** Where a conflicted step stands after writing Zero and bumping the counters. */
  function ConflictAcc(w: World, n: Uid, stats: Stats): Acc
    requires n in w.nodes
  {
    var prior := w.nodes[n].value;
    Acc(if Zero != prior then BumpAll(w.reg, Ascending(w.reg.SubsOf(n)), prior, Zero) else w.reg,
        [BochvarInfected(n, None)] + ReportOf(n, prior, Zero), [],
        if Zero != prior then stats.(materialized := stats.materialized + 1) else stats)
  }

  lemma WriteAndPush(w: World, n: Uid, ctx: Ctx, next: T, stats: Stats)
    requires w.Wf() && n in w.nodes && next != w.nodes[n].value
    ensures var subs := Ascending(w.reg.SubsOf(n));
      Effect(w, n, ctx, Finish(w, n, next, BumpAndPush(WriteAcc(w, n, next, stats), n, subs, w.nodes[n].value, next, ctx)),
             next, Accepted(w.reg, n, subs, ctx), [])
  {
    var prior, subs, a := w.nodes[n].value, Ascending(w.reg.SubsOf(n)), WriteAcc(w, n, next, stats);
    var a1 := a.(reg := BumpAll(w.reg, subs, prior, next));
    CounterPath.BumpThenPush(a, n, subs, prior, next, ctx);
    SingleReport(n, prior, next);
    PushEffect(w, n, ctx, next, a1, PushSubs(a1, n, subs, ctx));
  }

  lemma ConflictEntered(w: World, n: Uid, stats: Stats)
    requires n in w.nodes
    ensures Entered(w, n, Zero, ConflictAcc(w, n, stats))
  {
    var prior := w.nodes[n].value;
    SingleReport(n, prior, Zero);
    assert ConflictAcc(w, n, stats).events
        == if Zero != prior then [BochvarInfected(n, None), ValueChanged(n, prior, Zero)] else [BochvarInfected(n, None)];
  }

  lemma ScanReadyEffect(w: World, n: Uid, ctx: Ctx, stats: Stats)
    requires w.Wf() && n in w.nodes && w.nodes[n].kind.Computed? && StateOf(w.DepVals(n)) == Ready
    ensures Effect(w, n, ctx, StepScan(w, n, ctx, stats), ScanNext(w, n), ScanTo(w, n, ctx), [])
  {
    var prior, next, subs := w.nodes[n].value, ScanNext(w, n), Ascending(w.reg.SubsOf(n));
    if next == prior {
      NoEffect(w, n, ctx, stats, Some(next));
    } else {
      WriteAndPush(w, n, ctx, next, stats);
      ScanReadyShape(w, n, ctx, stats);
    }
  }

  lemma ScanReadyShape(w: World, n: Uid, ctx: Ctx, stats: Stats)
    requires w.Wf() && n in w.nodes && w.nodes[n].kind.Computed? && StateOf(w.DepVals(n)) == Ready
    requires ScanNext(w, n) != w.nodes[n].value
    ensures var next := ScanNext(w, n);
      StepScan(w, n, ctx, stats) == Finish(w, n, next,
        BumpAndPush(WriteAcc(w, n, next, stats), n, Ascending(w.reg.SubsOf(n)), w.nodes[n].value, next, ctx))
  {}

  lemma ConflictPushed(w: World, n: Uid, ctx: Ctx, stats: Stats)
    requires w.Wf() && n in w.nodes
    ensures var subs := Ascending(w.reg.SubsOf(n));
      Effect(w, n, ctx, Finish(w, n, Zero, PushSubs(ConflictAcc(w, n, stats), n, subs, ctx)), Zero, Accepted(w.reg, n, subs, ctx), [])
  {
    var a := ConflictAcc(w, n, stats);
    ConflictEntered(w, n, stats);
    PushEffect(w, n, ctx, Zero, a, PushSubs(a, n, Ascending(w.reg.SubsOf(n)), ctx));
  }

  lemma ConflictQuiet(w: World, n: Uid, ctx: Ctx, stats: Stats)
    requires w.Wf() && n in w.nodes && w.nodes[n].kind.Computed? && StateOf(w.DepVals(n)) == Conflicted && w.reg.ModeOf(n) != Eager
    ensures Effect(w, n, ctx, StepScan(w, n, ctx, stats), Zero, ScanTo(w, n, ctx), ScanExtra(w, n))
  {
    ConflictEntered(w, n, stats);
    ScanConflictQuietShape(w, n, ctx, stats);
    hide StepScan;
    QuietEffect(w, n, ctx, Zero, ConflictAcc(w, n, stats), ScanQuietAcc(w, n, stats));
    hide Effect, Finish;
  }

  lemma ScanConflictedEffect(w: World, n: Uid, ctx: Ctx, stats: Stats)
    requires w.Wf() && n in w.nodes && w.nodes[n].kind.Computed? && StateOf(w.DepVals(n)) == Conflicted
    ensures Effect(w, n, ctx, StepScan(w, n, ctx, stats), Zero, ScanTo(w, n, ctx), ScanExtra(w, n))
  {
    if w.reg.ModeOf(n) == Eager {
      ConflictPushed(w, n, ctx, stats);
      ScanConflictPushShape(w, n, ctx, stats);
      hide Effect, StepScan, ConflictAcc, PushSubs, Finish;
    } else {
      ConflictQuiet(w, n, ctx, stats);
    }
  }

  /** Where a conflicted step that does not push ends: a Stabilizing node asks for its region. */
  function ScanQuietAcc(w: World, n: Uid, stats: Stats): Acc
    requires w.Wf() && n in w.nodes && w.nodes[n].kind.Computed?
  {
    var a, region := ConflictAcc(w, n, stats), w.reg.OrderedDepsOf(n) + [n];
    if w.reg.ModeOf(n) == Stabilizing
    then a.(work := [StabilizeItem(region)], events := a.events + [StabilizeQueued(region)])
    else a
  }

  lemma ScanConflictQuietShape(w: World, n: Uid, ctx: Ctx, stats: Stats)
    requires w.Wf() && n in w.nodes && w.nodes[n].kind.Computed? && StateOf(w.DepVals(n)) == Conflicted
    requires w.reg.ModeOf(n) != Eager
    ensures StepScan(w, n, ctx, stats) == Finish(w, n, Zero, ScanQuietAcc(w, n, stats))
    ensures ScanQuietAcc(w, n, stats).work == ScanExtra(w, n)
  {
    assert [BochvarInfected(n, None)] + [] == [BochvarInfected(n, None)];
  }

  lemma ScanConflictPushShape(w: World, n: Uid, ctx: Ctx, stats: Stats)
    requires w.Wf() && n in w.nodes && w.nodes[n].kind.Computed? && StateOf(w.DepVals(n)) == Conflicted
    requires w.reg.ModeOf(n) == Eager
    ensures StepScan(w, n, ctx, stats) == Finish(w, n, Zero, PushSubs(ConflictAcc(w, n, stats), n, Ascending(w.reg.SubsOf(n)), ctx))
  {
    assert [BochvarInfected(n, None)] + [] == [BochvarInfected(n, None)];
  }

  // ---- the same for the counter path, and for whichever path a push takes -------------------

  function StepNext(w: World, n: Uid): T
    requires w.Wf() && n in w.nodes && w.nodes[n].kind.Computed?
  {
    if !FastPath(w, n) then ScanNext(w, n)
    else if w.reg.counters[n].Aggregate() == Neg then w.nodes[n].value
    else w.reg.counters[n].Aggregate()
  }

  predicate StepPushes(w: World, n: Uid)
    requires w.Wf() && n in w.nodes && w.nodes[n].kind.Computed?
  {
    if !FastPath(w, n) then ScanPushes(w, n)
    else match w.reg.counters[n].Aggregate()
      case Neg => false
      case Pos => w.nodes[n].value != Pos
      case Zero => w.reg.ModeOf(n) == Eager
  }

  function StepTo(w: World, n: Uid, ctx: Ctx): seq<Uid>
    requires w.Wf() && n in w.nodes && w.nodes[n].kind.Computed?
  {
    if StepPushes(w, n) then Accepted(w.reg, n, Ascending(w.reg.SubsOf(n)), ctx) else []
  }

  function StepExtra(w: World, n: Uid): seq<WorkItem>
    requires w.Wf() && n in w.nodes && w.nodes[n].kind.Computed?
  {
    if FastPath(w, n) then [] else ScanExtra(w, n)
  }

  lemma FastReadyEffect(w: World, n: Uid, ctx: Ctx, stats: Stats)
    requires w.Wf() && n in w.nodes && w.nodes[n].kind.Computed? && FastPath(w, n)
    requires w.reg.counters[n].Aggregate() == Pos
    ensures Effect(w, n, ctx, StepFast(w, n, ctx, stats), Pos, StepTo(w, n, ctx), [])
  {
    if w.nodes[n].value == Pos {
      NoEffect(w, n, ctx, stats, Some(Pos));
    } else {
      WriteAndPush(w, n, ctx, Pos, stats);
      FastReadyShape(w, n, ctx, stats);
    }
  }

  lemma FastReadyShape(w: World, n: Uid, ctx: Ctx, stats: Stats)
    requires w.Wf() && n in w.nodes && w.nodes[n].kind.Computed? && FastPath(w, n)
    requires w.reg.counters[n].Aggregate() == Pos && w.nodes[n].value != Pos
    ensures StepFast(w, n, ctx, stats) == Finish(w, n, Pos,
      BumpAndPush(WriteAcc(w, n, Pos, stats), n, Ascending(w.reg.SubsOf(n)), w.nodes[n].value, Pos, ctx))
  {}

  lemma FastConflictEffect(w: World, n: Uid, ctx: Ctx, stats: Stats)
    requires w.Wf() && n in w.nodes && w.nodes[n].kind.Computed? && FastPath(w, n)
    requires w.reg.counters[n].Aggregate() == Zero
    ensures Effect(w, n, ctx, StepFast(w, n, ctx, stats), Zero, StepTo(w, n, ctx), [])
  {
    if w.reg.ModeOf(n) == Eager {
      ConflictPushed(w, n, ctx, stats);
      FastConflictPushShape(w, n, ctx, stats);
    } else {
      ConflictEntered(w, n, stats);
      QuietEffect(w, n, ctx, Zero, ConflictAcc(w, n, stats), ConflictAcc(w, n, stats));
      FastConflictQuietShape(w, n, ctx, stats);
    }
  }

  lemma FastConflictPushShape(w: World, n: Uid, ctx: Ctx, stats: Stats)
    requires w.Wf() && n in w.nodes && w.nodes[n].kind.Computed? && FastPath(w, n)
    requires w.reg.counters[n].Aggregate() == Zero && w.reg.ModeOf(n) == Eager
    ensures StepFast(w, n, ctx, stats) == Finish(w, n, Zero, PushSubs(ConflictAcc(w, n, stats), n, Ascending(w.reg.SubsOf(n)), ctx))
  {
    var prior, subs := w.nodes[n].value, Ascending(w.reg.SubsOf(n));
    if Zero != prior {
      CounterPath.BumpThenPush(ConflictAcc(w, n, stats).(reg := w.reg), n, subs, prior, Zero, ctx);
    }
  }

  lemma FastConflictQuietShape(w: World, n: Uid, ctx: Ctx, stats: Stats)
    requires w.Wf() && n in w.nodes && w.nodes[n].kind.Computed? && FastPath(w, n)
    requires w.reg.counters[n].Aggregate() == Zero && w.reg.ModeOf(n) != Eager
    ensures StepFast(w, n, ctx, stats) == Finish(w, n, Zero, ConflictAcc(w, n, stats))
  {}

  /** Every push of a computed node has one closed-form effect. */
  lemma StepEffect(w: World, n: Uid, ctx: Ctx, stats: Stats)
    requires w.Wf() && n in w.nodes && w.nodes[n].kind.Computed?
    ensures Effect(w, n, ctx, StepPush(w, n, ctx, stats), StepNext(w, n), StepTo(w, n, ctx), StepExtra(w, n))
  {
    if FastPath(w, n) {
      match w.reg.counters[n].Aggregate() {
        case Neg => NoEffect(w, n, ctx, stats, None);
        case Pos => FastReadyEffect(w, n, ctx, stats);
        case Zero => FastConflictEffect(w, n, ctx, stats);
      }
    } else {
      ScanEffect(w, n, ctx, stats);
    }
  }

  /** A push keeps the store valid and every dense index in range. */
  lemma StepPushWf(w: World, n: Uid, ctx: Ctx, stats: Stats)
    requires w.Wf()
    ensures StepPush(w, n, ctx, stats).world.Wf()
  {
    if n in w.nodes && w.nodes[n].kind.Computed? {
      StepEffect(w, n, ctx, stats);
      PutWf(w, n, StepNext(w, n));
    }
  }

  lemma DrainStepWf(q: Queue, now: ProductTime, auth: map<(Uid, Uid), Verdict>, handled: seq<Bits.Word>)
    requires q.world.Wf() && q.items != []
    ensures DrainStep(q, now, auth, handled).world.Wf()
  {
    if q.items[0].Push? {
      var s0 := q.stats.(maxDepth := Larger(q.stats.maxDepth, |q.items|));
      StepPushWf(q.world, q.items[0].id, Ctx(now, auth, q.demanded), s0);
    }
  }
}
