/** The counter shortcut of the push step refines the general scan. */
module CounterPath {
  import opened Base
  import opened Ternary
  import opened Rules
  import opened Isa
  import opened Deps
  import opened Propagation

  /** The counters of n are the exact histogram of its dependency values. */
  ghost predicate Exact(w: World, n: Uid)
    requires w.Wf()
  {
    n in w.reg.counters && w.reg.counters[n] == Histogram(w.DepVals(n))
  }

  lemma UpdatesCommute(r: Registry, n: Uid, sub: Uid, ctx: Ctx, s: Uid, prior: T, next: T)
    ensures r.UpdateCounter(s, prior, next).UpdateLastSeen(n, sub, ctx.now)
         == r.UpdateLastSeen(n, sub, ctx.now).UpdateCounter(s, prior, next)
  {}

  /** Bumping a counter commutes with pushing to a subscriber: they touch disjoint fields. */
  lemma PushSubCommutes(a: Acc, n: Uid, sub: Uid, ctx: Ctx, s: Uid, prior: T, next: T)
    ensures PushSub(a.(reg := a.reg.UpdateCounter(s, prior, next)), n, sub, ctx)
         == (var b := PushSub(a, n, sub, ctx); b.(reg := b.reg.UpdateCounter(s, prior, next)))
  {
    UpdatesCommute(a.reg, n, sub, ctx, s, prior, next);
    var bumped := a.reg.UpdateCounter(s, prior, next);
    assert bumped.Open(n, sub, ctx.now) == a.reg.Open(n, sub, ctx.now);
    assert bumped.ModeOf(sub) == a.reg.ModeOf(sub);
    if a.reg.Open(n, sub, ctx.now) {
      match ctx.VerdictOf(n, sub) {
        case Deny =>
        case Allow =>
        case AllowLogged =>
      }
    }
  }

  lemma {:induction false} PushSubsCommutes(a: Acc, n: Uid, subs: seq<Uid>, ctx: Ctx, s: Uid, prior: T, next: T)
    ensures PushSubs(a.(reg := a.reg.UpdateCounter(s, prior, next)), n, subs, ctx)
         == (var b := PushSubs(a, n, subs, ctx); b.(reg := b.reg.UpdateCounter(s, prior, next)))
    decreases |subs|
  {
    if subs != [] {
      var front, last := subs[..|subs| - 1], subs[|subs| - 1];
      PushSubsCommutes(a, n, front, ctx, s, prior, next);
      PushSubCommutes(PushSubs(a, n, front, ctx), n, last, ctx, s, prior, next);
    }
  }

  /** The interleaved loop equals all the bumps followed by all the pushes. */
  lemma {:induction false} BumpThenPush(a: Acc, n: Uid, subs: seq<Uid>, prior: T, next: T, ctx: Ctx)
    ensures BumpAndPush(a, n, subs, prior, next, ctx)
         == PushSubs(a.(reg := BumpAll(a.reg, subs, prior, next)), n, subs, ctx)
    decreases |subs|
  {
    if subs != [] {
      var front, last := subs[..|subs| - 1], subs[|subs| - 1];
      BumpThenPush(a, n, front, prior, next, ctx);
      PushSubsCommutes(a.(reg := BumpAll(a.reg, front, prior, next)), n, front, ctx, last, prior, next);
    }
  }

  lemma FastRefinesReady(w: World, n: Uid, ctx: Ctx, stats: Stats)
    requires w.Wf() && n in w.nodes && w.nodes[n].kind.Computed? && FastPath(w, n)
    requires StateOf(w.DepVals(n)) == Ready && w.reg.counters[n].Aggregate() == Pos
    ensures StepFast(w, n, ctx, stats) == StepScan(w, n, ctx, stats)
  {
    AllPosEval(w.nodes[n].kind.rule, w.DepVals(n));
  }

  lemma FastRefinesConflicted(w: World, n: Uid, ctx: Ctx, stats: Stats)
    requires w.Wf() && n in w.nodes && w.nodes[n].kind.Computed? && FastPath(w, n)
    requires StateOf(w.DepVals(n)) == Conflicted && w.reg.counters[n].Aggregate() == Zero
    ensures StepFast(w, n, ctx, stats) == StepScan(w, n, ctx, stats)
  {
    var prior := w.nodes[n].value;
    if prior != Zero {
      var a := Acc(w.Put(n, Zero).reg, [BochvarInfected(n, None)] + [ValueChanged(n, prior, Zero)], [],
                   stats.(materialized := stats.materialized + 1));
      BumpThenPush(a, n, Ascending(w.reg.SubsOf(n)), prior, Zero, ctx);
    }
  }

  /** With exact counters the shortcut returns the scan's value, events, work, statistics and
      final world, whatever the node's mode, value and subscribers. */
  lemma FastRefinesScan(w: World, n: Uid, ctx: Ctx, stats: Stats)
    requires w.Wf() && n in w.nodes && w.nodes[n].kind.Computed? && FastPath(w, n) && Exact(w, n)
    ensures StepFast(w, n, ctx, stats) == StepScan(w, n, ctx, stats)
  {
    AggregateIsState(w.DepVals(n));
    match StateOf(w.DepVals(n)) {
      case Pending =>
      case Ready => FastRefinesReady(w, n, ctx, stats);
      case Conflicted => FastRefinesConflicted(w, n, ctx, stats);
    }
  }

  /** Hence a push is the general scan on every node whose counters are exact when used. */
  lemma PushIsScan(w: World, n: Uid, ctx: Ctx, stats: Stats)
    requires w.Wf() && n in w.nodes && w.nodes[n].kind.Computed?
    requires FastPath(w, n) ==> Exact(w, n)
    ensures StepPush(w, n, ctx, stats) == StepScan(w, n, ctx, stats)
  {
    if FastPath(w, n) { FastRefinesScan(w, n, ctx, stats); }
  }

  /** The counters answer what the propagation state of the dependency values calls for. */
  predicate Answers(w: World, n: Uid)
    requires w.Wf() && n in w.reg.counters
  {
    w.reg.counters[n].Aggregate() == match StateOf(w.DepVals(n)) case Conflicted => Zero case Pending => Neg case Ready => Pos
  }

  /** What the scan of an aggregate rule returns: nothing, Pos or Zero with the state. */
  lemma ScanAnswers(w: World, n: Uid, ctx: Ctx, stats: Stats)
    requires w.Wf() && n in w.nodes && w.nodes[n].kind.Computed? && FastPath(w, n)
    ensures StepScan(w, n, ctx, stats).val ==
      match StateOf(w.DepVals(n)) case Conflicted => Some(Zero) case Pending => None case Ready => Some(Pos)
  {
    if StateOf(w.DepVals(n)) == Ready { AllPosEval(w.nodes[n].kind.rule, w.DepVals(n)); }
    hide BumpAndPush, PushSubs, BumpAll;
  }

  lemma FastAnswers(w: World, n: Uid, ctx: Ctx, stats: Stats)
    requires w.Wf() && n in w.nodes && w.nodes[n].kind.Computed? && FastPath(w, n)
    ensures StepFast(w, n, ctx, stats).val ==
      match w.reg.counters[n].Aggregate() case Zero => Some(Zero) case Neg => None case Pos => Some(Pos)
  {
    hide BumpAndPush, PushSubs, BumpAll;
  }

  /** Where its guard lets it run, the shortcut is the scan exactly when the counters answer the
      propagation state; exact counters do, and so do some that are not exact. */
  lemma FastIsScanExactly(w: World, n: Uid, ctx: Ctx, stats: Stats)
    requires w.Wf() && n in w.nodes && w.nodes[n].kind.Computed? && FastPath(w, n)
    ensures StepFast(w, n, ctx, stats) == StepScan(w, n, ctx, stats) <==> Answers(w, n)
    ensures Exact(w, n) ==> Answers(w, n)
  {
    AggregateIsState(w.DepVals(n));
    ScanAnswers(w, n, ctx, stats);
    FastAnswers(w, n, ctx, stats);
    if Answers(w, n) {
      match StateOf(w.DepVals(n)) {
        case Pending => PendingIsNothing(w, n, ctx, stats);
        case Ready => FastRefinesReady(w, n, ctx, stats);
        case Conflicted => FastRefinesConflicted(w, n, ctx, stats);
      }
    }
    hide StepFast, StepScan;
  }

  lemma PendingIsNothing(w: World, n: Uid, ctx: Ctx, stats: Stats)
    requires w.Wf() && n in w.nodes && w.nodes[n].kind.Computed? && FastPath(w, n)
    requires StateOf(w.DepVals(n)) == Pending && w.reg.counters[n].Aggregate() == Neg
    ensures StepFast(w, n, ctx, stats) == StepScan(w, n, ctx, stats) == Nothing(w, stats)
  {}

  /** A list and counters of it that are not exact and answer all the same. */
  lemma InexactCanAnswer()
    ensures var c := Counters(1, 0, 1);
      c != Histogram([Neg, Neg]) && c.Total() == 2 && StateOf([Neg, Neg]) == Pending && c.Aggregate() == Neg
  {
    HistogramIs([Neg, Neg]);
    assert Zero !in [Neg, Neg];
    assert [Neg, Neg][0] == Neg;
  }
}
