/** What a reply reports is what happened: replaying the reported value changes over the values and versions before a
    call gives those after it. */
module Reports {
  import opened Base
  import opened Bits
  import opened Ternary
  import opened Rules
  import opened Time
  import opened Isa
  import opened ValueStores
  import opened Deps
  import opened Propagation
  import opened StepFacts
  import opened Draining
  import opened Coherence
  import opened Regions
  import opened RegionRun
  import opened Writes
  import opened EngineModel
  import opened EngineValues
  import opened EngineInvariant
  import opened EngineRuns
  import opened StabilisationRounds
  import opened EngineEffects

  /** A node's value and its version. */
  datatype Reading = Reading(value: T, version: nat)

  function ReadingsOf(w: World): map<Uid, Reading> { map n | n in w.nodes :: Reading(w.nodes[n].value, w.nodes[n].version) }

  /** The readings once the reported changes are replayed in order, each moving the version by one; None when a change
      does not start from its node's value, or is none. Changes of nodes that are not there are passed over. */
  function Replay(vals: map<Uid, Reading>, events: seq<PropEvent>): Option<map<Uid, Reading>> {
    if events == [] then Some(vals)
    else
      var before, last := Replay(vals, events[..|events| - 1]), events[|events| - 1];
      if before.None? || !last.ValueChanged? || last.node !in before.value then before
      else if before.value[last.node].value != last.prior || last.next == last.prior then None
      else Some(before.value[last.node := Reading(last.next, before.value[last.node].version + 1)])
  }

  lemma {:induction false} ReplayAppend(vals: map<Uid, Reading>, a: seq<PropEvent>, b: seq<PropEvent>)
    ensures Replay(vals, a + b) == if Replay(vals, a).None? then None else Replay(Replay(vals, a).value, b)
    decreases |b|
  {
    if b == [] {
      assert a + b == a;
    } else {
      ReplayAppend(vals, a, b[..|b| - 1]);
      assert (a + b)[..|a + b| - 1] == a + b[..|b| - 1];
    }
  }

  lemma {:induction false} ReplayChanges(vals: map<Uid, Reading>, events: seq<PropEvent>)
    ensures Replay(vals, events) == Replay(vals, ChangesIn(events))
    decreases |events|
  {
    if events != [] {
      var front, last := events[..|events| - 1], events[|events| - 1];
      ReplayChanges(vals, front);
      assert events == front + [last] && ChangesIn(front) + [] == ChangesIn(front);
      ReplayAppend(vals, front, [last]);
      ReplayAppend(vals, ChangesIn(front), if last.ValueChanged? then [last] else []);
    }
  }

  lemma {:induction false} ReplayKept(vals: map<Uid, Reading>, events: seq<PropEvent>)
    ensures Replay(vals, WithoutRequests(events)) == Replay(vals, events)
    decreases |events|
  {
    if events != [] {
      var front, last := events[..|events| - 1], events[|events| - 1];
      ReplayKept(vals, front);
      assert events == front + [last] && WithoutRequests(front) + [] == WithoutRequests(front);
      ReplayAppend(vals, front, [last]);
      ReplayAppend(vals, WithoutRequests(front), if last.StabilizeQueued? then [] else [last]);
    }
  }

  lemma ReplayOne(vals: map<Uid, Reading>, n: Uid, prior: T, next: T)
    ensures Replay(vals, [ValueChanged(n, prior, next)])
         == if n !in vals then Some(vals)
            else if vals[n].value != prior || next == prior then None
            else Some(vals[n := Reading(next, vals[n].version + 1)])
  {
    assert [ValueChanged(n, prior, next)][..0] == [];
  }

  /** The events so far lead from vals to the world's readings. */
  ghost predicate Told(vals: map<Uid, Reading>, w: World, events: seq<PropEvent>) { Replay(vals, events) == Some(ReadingsOf(w)) }

  lemma ToldStart(w: World)
    ensures Told(ReadingsOf(w), w, [])
  {}

  /** Events without value changes while no value moves. */
  lemma ToldQuiet(vals: map<Uid, Reading>, w: World, events: seq<PropEvent>, w': World, more: seq<PropEvent>)
    requires Told(vals, w, events) && ReadingsOf(w') == ReadingsOf(w) && ChangesIn(more) == []
    ensures Told(vals, w', events + more)
  {
    ReplayAppend(vals, events, more);
    ReplayChanges(ReadingsOf(w), more);
  }

  /** One node's change and its report. */
  lemma ToldChange(vals: map<Uid, Reading>, w: World, events: seq<PropEvent>, w': World, more: seq<PropEvent>, n: Uid, prior: T, next: T)
    requires Told(vals, w, events) && ChangesIn(more) == [ValueChanged(n, prior, next)]
    requires next != prior && (n in w.nodes ==> w.nodes[n].value == prior)
    requires ReadingsOf(w') == if n in w.nodes then ReadingsOf(w)[n := Reading(next, w.nodes[n].version + 1)] else ReadingsOf(w)
    ensures Told(vals, w', events + more)
  {
    ReplayAppend(vals, events, more);
    ReplayChanges(ReadingsOf(w), more);
    ReplayOne(ReadingsOf(w), n, prior, next);
  }

  // ---- the drain -------------------------------------------------------------------------------------

  lemma PushTold(vals: map<Uid, Reading>, w: World, events: seq<PropEvent>, n: Uid, ctx: Ctx, stats: Stats)
    requires w.Wf() && Told(vals, w, events)
    ensures var o := StepPush(w, n, ctx, stats); Told(vals, o.world, events + o.events)
  {
    var o := StepPush(w, n, ctx, stats);
    if n in w.nodes && w.nodes[n].kind.Computed? {
      var prior, next := w.nodes[n].value, StepNext(w, n);
      StepEffect(w, n, ctx, stats);
      EffectValues(w, n, ctx, o, next, StepTo(w, n, ctx), StepExtra(w, n));
      hide StepPush, Effect, StepNext, StepTo, StepExtra, Told, ReadingsOf, ChangesIn;
      if next == prior {
        ToldQuiet(vals, w, events, o.world, o.events);
      } else {
        ToldChange(vals, w, events, o.world, o.events, n, prior, next);
      }
    } else {
      ToldQuiet(vals, w, events, w, []);
      assert o == Nothing(w, stats);
      hide Told;
    }
  }

  lemma EffectValues(w: World, n: Uid, ctx: Ctx, o: Outcome, next: T, to: seq<Uid>, extra: seq<WorkItem>)
    requires w.Wf() && n in w.nodes && Effect(w, n, ctx, o, next, to, extra)
    ensures ChangesIn(o.events) == if next != w.nodes[n].value then [ValueChanged(n, w.nodes[n].value, next)] else []
    ensures ReadingsOf(o.world) ==
      if next != w.nodes[n].value then ReadingsOf(w)[n := Reading(next, w.nodes[n].version + 1)] else ReadingsOf(w)
  {
    hide Stamped, Bumped, ChangesIn, Pushes, Ascending;
  }

  lemma DrainStepTold(vals: map<Uid, Reading>, q: Queue, now: ProductTime, auth: map<(Uid, Uid), Verdict>, handled: seq<Word>)
    requires q.world.Wf() && q.items != [] && Told(vals, q.world, q.events)
    ensures var q' := DrainStep(q, now, auth, handled); Told(vals, q'.world, q'.events)
  {
    var s0 := q.stats.(maxDepth := Larger(q.stats.maxDepth, |q.items|));
    match q.items[0] {
      case Push(id) =>
        if !Handled(q.world, handled, id) {
          PushTold(vals, q.world, q.events, id, Ctx(now, auth, q.demanded), s0);
          PushStep(q, id, now, auth, handled);
          hide DrainStep, StepPush, Told;
        }
      case DemandItem(id) => ToldQuiet(vals, q.world, q.events, q.world, [DemandFired(id)]);
      case StabilizeItem(region) => ToldQuiet(vals, q.world, q.events, q.world, [StabilizeQueued(region)]);
    }
    hide StepPush, Told;
  }

  lemma DrainTold(vals: map<Uid, Reading>, q: Queue, now: ProductTime, auth: map<(Uid, Uid), Verdict>, handled: seq<Word>, budget: nat)
    requires q.world.Wf() && Told(vals, q.world, q.events)
    ensures var d := Drain(q, now, auth, handled, budget); Told(vals, d.q.world, d.q.events)
  {
    var inv := (p: Queue) => Told(vals, p.world, p.events);
    forall p: Queue | p.world.Wf() && p.items != [] && inv(p) ensures inv(DrainStep(p, now, auth, handled)) {
      DrainStepTold(vals, p, now, auth, handled);
    }
    hide DrainStep, Told;
    var last := DrainInductionAny(q, now, auth, handled, budget, inv);
  }

  // ---- stabilisation --------------------------------------------------------------------------------------

  ghost predicate Tells(vals: map<Uid, Reading>, e: EngineState) { Told(vals, e.world, e.events) }

  lemma ResolveOneTells(vals: map<Uid, Reading>, e: EngineState, id: Uid, v: T)
    requires e.world.Wf() && Tells(vals, e) && v != Zero
    ensures Tells(vals, ResolveOne(e, id, v))
  {
    var out := ResolveOne(e, id, v);
    if id in e.world.nodes && e.world.nodes[id].value == Zero {
      ChangesOfOne(id, Zero, v);
      assert ReadingsOf(out.world) == ReadingsOf(e.world)[id := Reading(v, e.world.nodes[id].version + 1)] by { hide PushSubs; }
      ToldChange(vals, e.world, e.events, out.world, [ValueChanged(id, Zero, v)], id, Zero, v);
    }
    hide PushSubs, Told, ChangesIn, ReadingsOf;
  }

  lemma ChangesOfOne(n: Uid, prior: T, next: T)
    ensures ChangesIn([ValueChanged(n, prior, next)]) == [ValueChanged(n, prior, next)] && ChangesIn([]) == []
  {
    assert [ValueChanged(n, prior, next)][..0] == [];
  }

  lemma {:induction false} ResolveAllTells(vals: map<Uid, Reading>, e: EngineState, ids: seq<Uid>, v: T)
    requires e.world.Wf() && Tells(vals, e) && v != Zero
    ensures Tells(vals, ResolveAll(e, ids, v))
    decreases |ids|
  {
    if ids != [] {
      var before := ResolveAll(e, ids[..|ids| - 1], v);
      ResolveAllTells(vals, e, ids[..|ids| - 1], v);
      ResolveOneTells(vals, before, ids[|ids| - 1], v);
      assert ResolveAll(e, ids, v) == ResolveOne(before, ids[|ids| - 1], v);
    }
    hide ResolveAll, ResolveOne, Tells;
  }

  /** A section settles on a value other than Zero, as the acceptance test guarantees. */
  predicate Decided(s: Stabilized) { s.verdict.Settled? && s.verdict.value.Some? ==> s.verdict.value.value != Zero }

  lemma StabiliseTells(vals: map<Uid, Reading>, e: EngineState, seeds: seq<Uid>, s: Stabilized)
    requires e.world.Wf() && Tells(vals, e) && Decided(s)
    ensures Tells(vals, Stabilise(e, seeds, s))
  {
    if seeds != [] {
      DemandNegWf(e, Ascending(s.members));
      match s.verdict {
        case Settled(v) => if v.Some? { ResolveAllTells(vals, e, Ascending(s.members), v.value); }
        case Boundary =>
          NoChangesIn(Infections(Ascending(s.members)));
          ToldQuiet(vals, e.world, e.events, e.world, Infections(Ascending(s.members)));
        case _ =>
      }
    }
    hide ResolveAll, DemandNeg, Told, ChangesIn, Ascending;
  }

  lemma {:induction false} EachTells(vals: map<Uid, Reading>, e: EngineState, requests: seq<seq<Uid>>, answers: seq<Stabilized>)
    requires e.world.Wf() && Tells(vals, e) && forall i :: 0 <= i < |answers| ==> Decided(answers[i])
    ensures Tells(vals, StabiliseEach(e, requests, answers))
    decreases |requests|
  {
    if requests != [] && answers != [] {
      StabiliseTells(vals, e, requests[0], answers[0]);
      EachTells(vals, Stabilise(e, requests[0], answers[0]), requests[1..], answers[1..]);
    }
    hide Stabilise, Tells;
  }

  predicate AllDecided(rounds: seq<seq<Stabilized>>) {
    forall i, j :: 0 <= i < |rounds| && 0 <= j < |rounds[i]| ==> Decided(rounds[i][j])
  }

  /** A settled call reports what happened since vals. */
  lemma {:induction false} SettleTells(vals: map<Uid, Reading>, e: EngineState, auth: map<(Uid, Uid), Verdict>, rounds: seq<seq<Stabilized>>)
    requires e.world.Wf() && Tells(vals, e) && AllDecided(rounds)
    ensures var r := Settle(e, auth, rounds); r.Done? ==> Told(vals, r.e.world, r.events)
    decreases |rounds|
  {
    DrainWf(QueueOf(e), e.now, auth, e.handled, e.maxSteps);
    DrainTold(vals, QueueOf(e), e.now, auth, e.handled, e.maxSteps);
    var d := Drain(QueueOf(e), e.now, auth, e.handled, e.maxSteps);
    var e1 := WithQueue(e, d.q);
    if d.Idle? && Requests(e1.events) != [] && rounds != [] {
      ReplayKept(vals, e1.events);
      var e2 := e1.(events := WithoutRequests(e1.events));
      EachTells(vals, e2, Requests(e1.events), rounds[0]);
      SettleTells(vals, StabiliseEach(e2, Requests(e1.events), rounds[0]), auth, rounds[1..]);
    }
    hide Drain, StabiliseEach, Requests, WithoutRequests, Replay, ReadingsOf;
  }

  // ---- the compiled tier ---------------------------------------------------------------------------------------

  /** The next changed output of a region that is being synced has the value the report starts from. */
  lemma SyncPrior(w: World, r: Region, c0: seq<T>, c1: seq<T>, i: nat)
    requires r.Shaped() && i < r.Rows() && Placed(w, r) && SyncedTo(w, r, c0, c1, i) && r.members[i] in w.nodes
    ensures r.outputs[i] < |c0| && w.nodes[r.members[i]].value == c0[r.outputs[i]]
  {
    assert r.outputs[i] !in r.outputs[..i];
  }

  lemma NotifiedTells(vals: map<Uid, Reading>, e: EngineState, n: Uid, subs: seq<Uid>, prior: T, next: T)
    requires Tells(vals, e)
    ensures Tells(vals, Notified(e, n, subs, prior, next))
  {
    hide BumpAndPush, Replay;
  }

  lemma SyncChangeTells(vals: map<Uid, Reading>, e: EngineState, members: seq<Uid>, n: Uid, prior: T, next: T)
    requires Tells(vals, e) && next != prior && (n in e.world.nodes ==> e.world.nodes[n].value == prior)
    ensures Tells(vals, SyncChange(e, members, (n, prior, next)))
  {
    var e1 := SyncWrite(e, n, prior, next);
    ChangesOfOne(n, prior, next);
    ToldChange(vals, e.world, e.events, e1.world, [ValueChanged(n, prior, next)], n, prior, next);
    assert Tells(vals, e1);
    NotifiedTells(vals, e1, n, OutsideOf(Ascending(e1.world.reg.SubsOf(n)), members), prior, next);
    hide Told, ChangesIn, Notified, OutsideOf, Ascending;
  }

  lemma PartTells(vals: map<Uid, Reading>, e: EngineState, r: Region, c0: seq<T>, c1: seq<T>, i: nat)
    requires r.Shaped() && r.Fits(|c0|) && |c0| == |c1| && i < r.Rows() && PartSynced(e, r, c0, c1, i)
    requires Tells(vals, SyncChanges(e, r.members, Changes(r, c0, c1, i)))
    ensures Tells(vals, SyncChanges(e, r.members, Changes(r, c0, c1, i + 1)))
  {
    var before, n, d := SyncChanges(e, r.members, Changes(r, c0, c1, i)), r.members[i], r.outputs[i];
    SyncChangesNext(e, r, c0, c1, i + 1);
    assert Placed(before.world, r) && SyncedTo(before.world, r, c0, c1, i);
    if n in before.world.nodes { SyncPrior(before.world, r, c0, c1, i); }
    hide Tells, SyncChange, SyncChanges, Changes, PartSynced, SyncedTo, Placed, Region.Fits;
    if c0[d] != c1[d] { SyncChangeTells(vals, before, r.members, n, c0[d], c1[d]); }
  }

  lemma SyncTells(vals: map<Uid, Reading>, e: EngineState, r: Region, c0: seq<T>, c1: seq<T>)
    requires r.Shaped() && r.Fits(|c0|) && |c0| == |c1| && Syncing(e, r, c0, c1, 0) && Tells(vals, e)
    ensures Tells(vals, SyncChanges(e, r.members, Changes(r, c0, c1, r.Rows())))
  {
    MovedRefl(e);
    assert Changes(r, c0, c1, 0) == [];
    assert PartSynced(e, r, c0, c1, 0);
    hide Tells, PartSynced, Syncing, SyncChanges, Changes, Region.Fits;
    assert SyncChanges(e, r.members, []) == e by { SyncNone(e, r.members); }
    for i := 0 to r.Rows()
      invariant PartSynced(e, r, c0, c1, i) && Tells(vals, SyncChanges(e, r.members, Changes(r, c0, c1, i)))
    {
      PartTells(vals, e, r, c0, c1, i);
      PartSyncedNext(e, r, c0, c1, i);
    }
  }

  lemma SyncNone(e: EngineState, members: seq<Uid>)
    ensures SyncChanges(e, members, []) == e
  {}

  lemma RunRegionTells(vals: map<Uid, Reading>, e: EngineState, root: Uid)
    requires Inv(e) && Tells(vals, e)
    ensures CacheRunnable(e) && Tells(vals, RunRegion(e, root))
  {
    InvReady(e);
    if root in e.cache.regions {
      var r, c0 := e.cache.regions[root], e.world.store.cache;
      assert Placed(e.world, r) by { hide Coherent; }
      RanSyncing(e, r);
      assert Tells(vals, Ran(e, r)) by { hide IncEval, Redirtied, MarkHandled, Replay, Changes, Inv; }
      hide Inv, Tells, Syncing, SyncChanges, Changes, Ran, IncEval;
      SyncTells(vals, Ran(e, r), r, c0, IncEval(r, c0, e.dirtySlots));
    }
  }

  lemma {:induction false} RunRegionsTell(vals: map<Uid, Reading>, e: EngineState, roots: seq<Uid>)
    requires Inv(e) && Tells(vals, e)
    ensures e.world.Wf() && CacheRunnable(e) && Tells(vals, RunRegions(e, roots))
    decreases |roots|
  {
    InvReady(e);
    if roots != [] {
      var before := RunRegions(e, roots[..|roots| - 1]);
      RunRegionsTell(vals, e, roots[..|roots| - 1]);
      RunRegionsKeep(e, roots[..|roots| - 1]);
      KeptInv(e, before);
      RunRegionTells(vals, before, roots[|roots| - 1]);
      assert RunRegions(e, roots) == RunRegion(before, roots[|roots| - 1]);
    }
    hide Inv, Tells, RunRegion, RunRegions;
  }

  // ---- whole calls -----------------------------------------------------------------------------------------------

  lemma WrittenTells(e: EngineState, n: Uid, v: T)
    requires e.world.Wf() && n in e.world.nodes && e.events == [] && v != e.world.nodes[n].value
    ensures Tells(ReadingsOf(e.world), WriteValue(e, n, v))
  {
    var e2, prior := PutValue(e, n, v), e.world.nodes[n].value;
    ToldStart(e.world);
    ChangesOfOne(n, prior, v);
    ToldChange(ReadingsOf(e.world), e.world, [], e2.world, [ValueChanged(n, prior, v)], n, prior, v);
    assert [] + [ValueChanged(n, prior, v)] == e2.events;
    NotifiedTells(ReadingsOf(e.world), e2, n, Ascending(e2.world.reg.SubsOf(n)), prior, v);
    hide Told, Notified, ChangesIn, Ascending;
  }

  /** What the reports of a call start from: reflecting a node that is Zero moves its version without a report. */
  function Start(w: World, op: IsaOp): map<Uid, Reading> {
    if op.Reflect? && op.node in w.nodes && w.nodes[op.node].value == Zero then
      ReadingsOf(w)[op.node := Reading(Zero, w.nodes[op.node].version + 1)]
    else ReadingsOf(w)
  }

  lemma ReflectedTells(e: EngineState, n: Uid)
    requires e.world.Wf() && n in e.world.nodes && e.events == []
    ensures Tells(Start(e.world, Reflect(n)), ReflectValue(e, n))
  {
    var out, prior := ReflectValue(e, n), e.world.nodes[n].value;
    ReflectedParts(e, n);
    assert ReadingsOf(out.world) == ReadingsOf(e.world)[n := Reading(MvNeg(prior), e.world.nodes[n].version + 1)] by {
      hide ReflectValue, BumpAndPush;
    }
    ToldStart(e.world);
    ToldStart(out.world);
    ChangesOfOne(n, prior, MvNeg(prior));
    hide ReflectValue, BumpAndPush, ChangesIn, Told, Ascending, ReadingsOf;
    if MvNeg(prior) != prior {
      ToldChange(ReadingsOf(e.world), e.world, [], out.world, ReportOf(n, prior, MvNeg(prior)), n, prior, MvNeg(prior));
    }
  }

  lemma LoadedTells(e: EngineState, op: IsaOp)
    requires e.world.Wf() && Drains(e, op) && e.events == []
    ensures Tells(Start(e.world, op), Loaded(e, op))
  {
    match op {
      case SetValue(node, v) => WrittenTells(e, node, v);
      case Reflect(node) => ReflectedTells(e.Log(Attribute), node);
      case _ => ToldStart(e.world);
    }
    hide WriteValue, ReflectValue, Told, ReadingsOf;
  }

  lemma WarmTells(vals: map<Uid, Reading>, e: EngineState, op: IsaOp, ch: Choices)
    requires Inv(e) && Drains(e.(events := []), op) && vals == Start(e.world, op)
    ensures Tells(vals, Warm(e, op, ch))
  {
    InvReady(e);
    LoadedKeeps(e, op);
    LoadedTells(e.(events := []), op);
    var e1 := Loaded(e.(events := []), op);
    var e2 := e1.(cache := e1.cache.(dirty := {}));
    OnlyQueues(e1, e2);
    SameTold(vals, e1, e2);
    hide Inv, Tells, Loaded, RunRegions, ReadingsOf, Start;
    RunRegionsTell(vals, e2, ch.roots);
    SameTold(vals, RunRegions(e2, ch.roots), Warm(e, op, ch));
  }

  lemma SameTold(vals: map<Uid, Reading>, e: EngineState, e': EngineState)
    requires e'.world == e.world && e'.events == e.events
    ensures Tells(vals, e') <==> Tells(vals, e)
  {}

  lemma StabilisedTells(e: EngineState, seeds: seq<Uid>, s: Stabilized)
    requires e.world.Wf() && e.events == [] && Decided(s)
    ensures Told(ReadingsOf(e.world), Stabilise(e, seeds, s).world, Stabilise(e, seeds, s).events)
  {
    ToldStart(e.world);
    hide Told, ReadingsOf, Stabilise;
    StabiliseTells(ReadingsOf(e.world), e, seeds, s);
  }

  /** Whatever moves values reports it: for every successful call of a value instruction, each reported change starts
      from the value its node had at that point, and replaying the reports gives exactly the values and the versions after
      the call, through region runs, drains and stabilisation. A version so counts its node's reported changes, and the
      reflections of Zero. */
  lemma RepliesTell(e: EngineState, op: IsaOp, ch: Choices)
    requires Inv(e) && MovesValues(op) && AllDecided(ch.rounds) && Decided(ch.explicitRun)
    ensures var r := Call(e, op, ch); r.Done? ==> Replay(Start(e.world, op), r.events) == Some(ReadingsOf(r.e.world))
  {
    InvReady(e);
    var e0 := e.(events := []);
    if Drains(e0, op) {
      DrainedCall(e, op, ch);
      WarmTells(Start(e.world, op), e, op, ch);
      hide Inv, Call, Warm, Replay, ReadingsOf, Settle, Drains, Start, AllDecided;
      SettleTells(Start(e.world, op), Warm(e, op, ch), ch.auth, ch.rounds);
    } else if op.Stabilize? {
      StabilisedTells(e0, if op.region.Some? then op.region.value else Ascending(ZeroNodes(e0.world)), ch.explicitRun);
      hide Stabilise, Replay, ReadingsOf, Inv, AllDecided;
    } else {
      ToldStart(e.world);
      QuietCallValues(e, op, ch);
      hide Inv, Call, Replay, ReadingsOf, AllDecided;
    }
  }

  lemma QuietCallValues(e: EngineState, op: IsaOp, ch: Choices)
    requires Inv(e) && MovesValues(op) && !op.Stabilize? && !Drains(e.(events := []), op)
    ensures Call(e, op, ch).Done? ==> Call(e, op, ch).events == [] && Call(e, op, ch).e.world == e.world
  {
    hide Inv;
  }

  /** The other instructions report nothing and move no value; a created node starts at Neg. */
  lemma OthersStand(e: EngineState, op: IsaOp, ch: Choices, n: Uid)
    requires Inv(e) && !MovesValues(op)
    ensures var r := Call(e, op, ch);
      && (r.Done? ==> r.events == [])
      && (n in r.e.world.nodes ==> r.e.world.nodes[n].value == if op.NodeCreate? && op.id == n then Neg else e.world.ValueOr(n))
  {
    var e0 := e.(events := []);
    QuietCall(e, op, ch);
    InvReady(e);
    if ChangesGraph(op) { GraphValues(e0, op, n); } else { TableValues(e0, op, ch); }
    hide Inv, ApplyGraph, ApplyTables;
  }

  lemma GraphValues(e: EngineState, op: IsaOp, n: Uid)
    requires e.world.Wf() && ChangesGraph(op)
    ensures var w := ApplyGraph(e, op).e.world;
      n in w.nodes ==> w.nodes[n].value == if op.NodeCreate? && op.id == n then Neg else e.world.ValueOr(n)
  {
    hide Registry.RemoveNode, Registry.Subscribe, Registry.Unsubscribe, RegionCache.Invalidate, InferMode;
  }

  lemma TableValues(e: EngineState, op: IsaOp, ch: Choices)
    requires !ChangesGraph(op) && !MovesValues(op)
    ensures ApplyTables(e, op, ch).e.world.nodes == e.world.nodes
  {}

  // ---- runs ---------------------------------------------------------------------------------------------------------

  /** Successful calls of value instructions other than `Reflect`, each from the state the one before left. */
  ghost predicate ValueRun(states: seq<EngineState>, ops: seq<IsaOp>, choices: seq<Choices>, replies: seq<Reply>) {
    && |states| == |ops| + 1 && |choices| == |replies| == |ops|
    && (forall i :: 0 <= i < |ops| ==> Inv(states[i]) && MovesValues(ops[i]) && !ops[i].Reflect?)
    && (forall i :: 0 <= i < |ops| ==> AllDecided(choices[i].rounds) && Decided(choices[i].explicitRun))
    && forall i :: 0 <= i < |ops| ==> replies[i] == Call(states[i], ops[i], choices[i]) && replies[i].Done? && states[i + 1] == replies[i].e
  }

  /** Over any such run the concatenated reports turn the first state's values and versions into the last's. */
  lemma RunsReplay(states: seq<EngineState>, ops: seq<IsaOp>, choices: seq<Choices>, replies: seq<Reply>)
    requires ValueRun(states, ops, choices, replies)
    ensures Replay(ReadingsOf(states[0].world), Reported(replies)) == Some(ReadingsOf(states[|ops|].world))
  {
    var vals := ReadingsOf(states[0].world);
    assert replies[..0] == [];
    hide Inv, Call, Replay, ReadingsOf, Reported;
    ReplayStarts(vals);
    for k := 0 to |ops|
      invariant Replay(vals, Reported(replies[..k])) == Some(ReadingsOf(states[k].world))
    {
      RepliesTell(states[k], ops[k], choices[k]);
      ReportedNext(replies, k);
      ReplayAppend(vals, Reported(replies[..k]), replies[k].events);
    }
    assert replies[..|replies|] == replies;
  }

  lemma ReplayStarts(vals: map<Uid, Reading>)
    ensures Reported([]) == [] && Replay(vals, []) == Some(vals)
  {}
}
