/** Skipping the pushes of nodes a compiled region has evaluated. */
module HandledPush {
  import opened Base
  import opened Ternary
  import opened Rules
  import opened Isa
  import opened ValueStores
  import opened Deps
  import opened Propagation
  import opened StepFacts
  import opened Coherence
  import opened Regions
  import opened RegionCompile

  /** Row i of the region is node n's equation as the scan path reads it. */
  ghost predicate RowIsNode(w: World, r: Region, i: nat, n: Uid)
    requires w.Wf() && r.Shaped() && r.Fits(|w.store.cache|) && i < r.Rows()
  {
    && n in w.nodes && w.nodes[n].kind == Computed(r.rules[i])
    && n in w.store.idx && r.outputs[i] == w.store.idx[n]
    && w.DepVals(n) == Gather(w.store.cache, r.Deps(i))
  }

  /** A member compiled from its recorded index list has its scan equation as its row. */
  lemma CompiledRowIsNode(w: World, members: seq<Uid>, r: Region, i: nat)
    requires Coherent(w) && CompiledFrom(w, members, r) && r.Fits(|w.store.cache|) && i < r.Rows()
    requires r.members[i] in w.nodes && w.nodes[r.members[i]].kind.Computed? && w.reg.OrderedIdxOf(r.members[i]) != []
    ensures RowIsNode(w, r, i, r.members[i])
  {}

  /** On a row that is satisfied the scan finds nothing to change: its Zero dependencies, if any, give
      Zero; on a row with too few dependencies for its rule the value is the one the scan would write. */
  predicate Harmless(rule: ComputeRule, vals: seq<T>, value: T) {
    if |vals| >= Arity(rule) then Zero in vals ==> ZeroInfectious(rule, vals)
    else match StateOf(vals) case Conflicted => value == Zero case Ready => value == Neg case Pending => true
  }

  /** The scan of a node whose row holds leaves the graph and the store exactly when that is harmless. */
  lemma HandledPushIsNoOp(w: World, r: Region, i: nat, n: Uid, ctx: Ctx, stats: Stats)
    requires Coherent(w) && r.Shaped() && r.Fits(|w.store.cache|) && i < r.Rows() && RowIsNode(w, r, i, n)
    requires Satisfied(r, i, w.store.cache)
    ensures var o, vals := StepScan(w, n, ctx, stats), Gather(w.store.cache, r.Deps(i));
      (o.world.nodes == w.nodes && o.world.store == w.store <==> Harmless(r.rules[i], vals, w.nodes[n].value))
  {
    RowNext(w, r, i, n);
    NextDecides(w, n, ctx, stats);
    hide StepScan;
  }

  lemma RowNext(w: World, r: Region, i: nat, n: Uid)
    requires Coherent(w) && r.Shaped() && r.Fits(|w.store.cache|) && i < r.Rows() && RowIsNode(w, r, i, n)
    requires Satisfied(r, i, w.store.cache)
    ensures ScanNext(w, n) == w.nodes[n].value <==> Harmless(r.rules[i], w.DepVals(n), w.nodes[n].value)
  {
    var vals := w.DepVals(n);
    assert RowValue(r, i, w.store.cache) == Eval(r.rules[i], vals);
    if |vals| >= Arity(r.rules[i]) {
      assert Some(w.nodes[n].value) == Eval(r.rules[i], vals);
      if Zero in vals { ZeroEval(r.rules[i], vals); }
    }
  }

  lemma NextDecides(w: World, n: Uid, ctx: Ctx, stats: Stats)
    requires Coherent(w) && n in w.nodes && w.nodes[n].kind.Computed?
    ensures StepScan(w, n, ctx, stats).world.nodes == w.nodes && StepScan(w, n, ctx, stats).world.store == w.store
      <==> ScanNext(w, n) == w.nodes[n].value
  {
    ScanEffect(w, n, ctx, stats);
    if ScanNext(w, n) != w.nodes[n].value {
      assert StepScan(w, n, ctx, stats).world.nodes[n].value == ScanNext(w, n);
    }
  }

  /** Skipping the push is not seen at all exactly when it is harmless and no dependency is Zero: with a
      Zero the scan reports an infection. */
  lemma SkipIsInvisible(w: World, r: Region, i: nat, n: Uid, ctx: Ctx, stats: Stats)
    requires Coherent(w) && r.Shaped() && r.Fits(|w.store.cache|) && i < r.Rows() && RowIsNode(w, r, i, n)
    requires Satisfied(r, i, w.store.cache)
    ensures var o, vals := StepScan(w, n, ctx, stats), Gather(w.store.cache, r.Deps(i));
      (o.world == w && o.events == [] && o.work == [] <==> Zero !in vals && Harmless(r.rules[i], vals, w.nodes[n].value))
  {
    RowNext(w, r, i, n);
    NextDecides(w, n, ctx, stats);
    if StateOf(w.DepVals(n)) == Conflicted { InfectionReported(w, n, ctx, stats); } else { UnchangedIsSilent(w, n, ctx, stats); }
    hide StepScan, ScanNext;
  }

  lemma UnchangedIsSilent(w: World, n: Uid, ctx: Ctx, stats: Stats)
    requires Coherent(w) && n in w.nodes && w.nodes[n].kind.Computed? && StateOf(w.DepVals(n)) != Conflicted
    ensures ScanNext(w, n) == w.nodes[n].value ==>
      var o := StepScan(w, n, ctx, stats); o.world == w && o.events == [] && o.work == []
  {}

  lemma {:induction false} PushSubsPrefix(a: Acc, n: Uid, subs: seq<Uid>, ctx: Ctx)
    ensures a.events <= PushSubs(a, n, subs, ctx).events
    decreases |subs|
  {
    if subs != [] { PushSubsPrefix(a, n, subs[..|subs| - 1], ctx); }
  }

  lemma InfectionReported(w: World, n: Uid, ctx: Ctx, stats: Stats)
    requires w.Wf() && n in w.nodes && w.nodes[n].kind.Computed? && StateOf(w.DepVals(n)) == Conflicted
    ensures var o := StepScan(w, n, ctx, stats); o.events != [] && o.events[0] == BochvarInfected(n, None)
  {
    var prior, subs := w.nodes[n].value, Ascending(w.reg.SubsOf(n));
    var changed := Zero != prior;
    var w1 := if changed then w.Put(n, Zero) else w;
    var a := Acc(if changed then BumpAll(w1.reg, subs, prior, Zero) else w1.reg,
                 [BochvarInfected(n, None)] + (if changed then [ValueChanged(n, prior, Zero)] else []), [],
                 if changed then stats.(materialized := stats.materialized + 1) else stats);
    PushSubsPrefix(a, n, subs, ctx);
    hide PushSubs, BumpAll;
  }

  /** What skipping a harmless push of a conflicted node leaves undone besides the report: an Eager node's
      subscribers whose gates are open are not pushed, a Stabilizing node's section is not queued. */
  lemma SkippedWork(w: World, n: Uid, ctx: Ctx, stats: Stats)
    requires Coherent(w) && n in w.nodes && w.nodes[n].kind.Computed? && Zero in w.DepVals(n)
    ensures StepScan(w, n, ctx, stats).work == match w.reg.ModeOf(n)
      case Eager => Pushes(Accepted(w.reg, n, Ascending(w.reg.SubsOf(n)), ctx))
      case Lazy => []
      case Stabilizing => [StabilizeItem(w.reg.OrderedDepsOf(n) + [n])]
  {
    ScanEffect(w, n, ctx, stats);
    var to := Accepted(w.reg, n, Ascending(w.reg.SubsOf(n)), ctx);
    assert Pushes(to) + [] == Pushes(to);
    hide StepScan;
  }

  /** A compiled member whose push is skipped: the same, for the region `compile_region` builds. */
  lemma CompiledPushIsNoOp(w: World, members: seq<Uid>, r: Region, i: nat, ctx: Ctx, stats: Stats)
    requires Coherent(w) && CompiledFrom(w, members, r) && r.Fits(|w.store.cache|) && i < r.Rows()
    requires r.members[i] in w.nodes && w.nodes[r.members[i]].kind.Computed? && w.reg.OrderedIdxOf(r.members[i]) != []
    requires Satisfied(r, i, w.store.cache)
    ensures var n, vals := r.members[i], Gather(w.store.cache, r.Deps(i));
      var o := StepScan(w, n, ctx, stats);
      (o.world.nodes == w.nodes && o.world.store == w.store <==> Harmless(r.rules[i], vals, w.nodes[n].value))
  {
    CompiledRowIsNode(w, members, r, i);
    HandledPushIsNoOp(w, r, i, r.members[i], ctx, stats);
  }

  /** A one-dependency copy or negation, and a Bochvar fold, always answer Zero to a Zero. */
  lemma AlwaysInfectious(rule: ComputeRule, vals: seq<T>)
    requires rule.BochvarFold? || ((rule.Identity? || rule.MvNegRule?) && |vals| == 1)
    requires Zero in vals
    ensures ZeroInfectious(rule, vals)
  {}

  /** A copy with a second, Zero dependency does not: in every coherent world where its row is satisfied
      over Pos and Zero, the node holds Pos, and the push that is skipped would make it Zero. */
  lemma CopyOfTwoDiffers(w: World, r: Region, i: nat, n: Uid, ctx: Ctx, stats: Stats)
    requires Coherent(w) && r.Shaped() && r.Fits(|w.store.cache|) && i < r.Rows() && RowIsNode(w, r, i, n)
    requires Satisfied(r, i, w.store.cache) && r.rules[i] == Identity && w.DepVals(n) == [Pos, Zero]
    ensures w.nodes[n].value == Pos
    ensures var o := StepScan(w, n, ctx, stats); n in o.world.nodes && o.world.nodes[n].value == Zero
  {
    assert [Pos, Zero][1] == Zero;
    assert RowValue(r, i, w.store.cache) == Some(Pos);
    ScanEffect(w, n, ctx, stats);
    hide StepScan;
  }
}
