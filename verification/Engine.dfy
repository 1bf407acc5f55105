/** The engine in place: the graph, the registry, the work queue, the store, the artifact cache and
    the dirty bits, moved by one instruction at a time. */
module Engines {
  import opened Base
  import opened Bits
  import opened Ternary
  import opened Rules
  import opened Time
  import opened Isa
  import opened ValueStores
  import opened Deps
  import opened DepRegistries
  import opened Propagation
  import opened StepFacts
  import opened PropEngines
  import opened Coherence
  import opened Regions
  import opened RegionRun
  import opened RegionCaches
  import opened Writes
  import opened EngineModel
  import opened EngineValues
  import opened EngineInvariant
  import opened RegionCompile
  import opened DepClosure
  import TopoSort
  import Draining

  /** Outside a demand and without authority, a push is the delta gate and the Eager gate. */
  lemma PushOutsideDemand(a: Acc, node: Uid, sub: Uid, now: ProductTime)
    ensures var b, open := PushSub(a, node, sub, WriteCtx(now)), a.reg.Open(node, sub, now) && a.reg.ModeOf(sub) == Eager;
      b.reg == (if open then a.reg.UpdateLastSeen(node, sub, now) else a.reg)
      && b.work == (if open then a.work + [Push(sub)] else a.work)
  {}

  lemma {:induction false} RedirtiedTests(dirty: seq<Word>, r: Region, c0: seq<T>, c1: seq<T>, i: nat, d: nat)
    requires r.Shaped() && r.Fits(|c0|) && |c1| == |c0| && i <= r.Rows()
    ensures |Redirtied(dirty, r, c0, c1, i)| == |dirty|
    ensures Test(Redirtied(dirty, r, c0, c1, i), d) <==>
      Test(dirty, d) || (d / WORD < |dirty| && exists j :: 0 <= j < i && r.outputs[j] == d && c0[d] != c1[d])
    decreases i
  {
    if i > 0 {
      var before, out := Redirtied(dirty, r, c0, c1, i - 1), r.outputs[i - 1];
      RedirtiedTests(dirty, r, c0, c1, i - 1, d);
      if out / WORD < |before| { TestSet(before, out, d); }
      if exists j :: 0 <= j < i && r.outputs[j] == d && c0[d] != c1[d] {
        var j :| 0 <= j < i && r.outputs[j] == d && c0[d] != c1[d];
        assert j < i - 1 || out == d;
      }
    }
  }

  /** The dirty bits a run leaves are the ones the state function computes. */
  lemma DirtyIsRedirtied(r: Region, c0: seq<T>, c1: seq<T>, before: seq<Word>, after: seq<Word>)
    requires r.Shaped() && r.Fits(|c0|) && |c0| == |c1| && DirtyAfter(r, c0, c1, before, after, r.Rows())
    ensures after == Redirtied(before, r, c0, c1, r.Rows())
  {
    forall d: nat ensures Test(after, d) <==> Test(Redirtied(before, r, c0, c1, r.Rows()), d) {
      RedirtiedTests(before, r, c0, c1, r.Rows(), d);
    }
    RedirtiedTests(before, r, c0, c1, r.Rows(), 0);
    SameBits(after, Redirtied(before, r, c0, c1, r.Rows()));
  }

  lemma OutsideNext(subs: seq<Uid>, members: seq<Uid>, i: nat)
    requires i < |subs|
    ensures OutsideOf(subs[..i + 1], members) == OutsideOf(subs[..i], members) + (if subs[i] in members then [] else [subs[i]])
  {
    assert subs[..i + 1][..i] == subs[..i];
  }

  lemma BumpAndPushNext(a: Acc, n: Uid, subs: seq<Uid>, sub: Uid, prior: T, next: T, ctx: Ctx)
    ensures var before := BumpAndPush(a, n, subs, prior, next, ctx);
      BumpAndPush(a, n, subs + [sub], prior, next, ctx)
        == PushSub(before.(reg := before.reg.UpdateCounter(sub, prior, next)), n, sub, ctx)
  {
    assert (subs + [sub])[..|subs|] == subs;
  }

  lemma PushSubsNext(a: Acc, n: Uid, subs: seq<Uid>, i: nat, ctx: Ctx)
    requires i < |subs|
    ensures PushSubs(a, n, subs[..i + 1], ctx) == PushSub(PushSubs(a, n, subs[..i], ctx), n, subs[i], ctx)
  {
    assert subs[..i + 1][..i] == subs[..i];
  }

  lemma StabiliseEachNext(e: EngineState, requests: seq<seq<Uid>>, answers: seq<Stabilized>, i: nat)
    requires e.world.Wf() && i < |requests| && i < |answers|
    ensures StabiliseEach(e, requests[i..], answers[i..])
         == StabiliseEach(Stabilise(e, requests[i], answers[i]), requests[i + 1..], answers[i + 1..])
  {
    assert requests[i..][1..] == requests[i + 1..] && answers[i..][1..] == answers[i + 1..];
  }

  lemma StabiliseEachDone(e: EngineState, requests: seq<seq<Uid>>, answers: seq<Stabilized>)
    requires e.world.Wf() && (requests == [] || answers == [])
    ensures StabiliseEach(e, requests, answers) == e
  {}

  lemma QueueKeeps(e: EngineState, item: WorkItem)
    requires Inv(e)
    ensures Inv(e.Enqueue(item).Log(Attribute))
  {
    OnlyQueues(e, e.Enqueue(item));
    LogKeeps(e.Enqueue(item), Attribute);
  }

  /** One round of draining and stabilising. */
  lemma SettleUnfold(e: EngineState, auth: map<(Uid, Uid), Verdict>, rounds: seq<seq<Stabilized>>, e1: EngineState, ok: bool)
    requires e.world.Wf()
    requires var d := Draining.Drain(QueueOf(e), e.now, auth, e.handled, e.maxSteps); ok == d.Idle? && e1 == WithQueue(e, d.q)
    ensures e1.world.Wf()
    ensures Settle(e, auth, rounds) ==
      if !ok then Failed(e1, StepLimitExceeded)
      else if Requests(e1.events) == [] then EngineModel.Finish(e1)
      else if rounds == [] then Failed(e1, RoundsExhausted)
      else Settle(StabiliseEach(e1.(events := WithoutRequests(e1.events)), Requests(e1.events), rounds[0]), auth, rounds[1..])
  {
    DrainWf(QueueOf(e), e.now, auth, e.handled, e.maxSteps);
  }

  // ---- region declaration -----------------------------------------------------------------

  function BoundTo(partitions: map<Uid, PartitionId>, pid: PartitionId): set<Uid> {
    set n | n in partitions && partitions[n] == pid
  }

  /** The list names the members of the boundary: the given list itself, the nodes within the depth
      limit of the root, or the nodes bound to the partition. */
  ghost predicate Members(e: EngineState, root: Uid, boundary: RegionBoundary, members: seq<Uid>) {
    match boundary
    case ExplicitSet(ids) => members == ids
    case DepClosure(maxDepth) => Distinct(members) && forall n :: n in members <==> Within(e.world.reg, root, n, maxDepth)
    case PartitionScoped(pid) => Distinct(members) && forall n :: n in members <==> n in e.partitions && e.partitions[n] == pid
  }

  /** The boundary's members compile exactly when they are duplicate-free, acyclic and mapped. */
  ghost predicate CompilationOf(e: EngineState, root: Uid, boundary: RegionBoundary, members: seq<Uid>, compiled: Option<Region>) {
    && Members(e, root, boundary, members)
    && (compiled.Some? <==>
        Distinct(members) && TopoSort.Acyclic(e.world.reg, Elements(members)) && forall n :: n in members ==> Mapped(e.world, n))
    && (compiled.Some? ==> CompiledFrom(e.world, members, compiled.value))
  }

  // ---- replies ---------------------------------------------------------------------------------

  /** The state and the result are those of a value-moving instruction. */
  ghost predicate ValuesReply(e: EngineState, op: IsaOp, ch: Choices, e': EngineState, result: Result<seq<PropEvent>, EngineError>)
    requires e.world.Wf() && CacheRunnable(e) && MovesValues(op)
  {
    var r := ApplyValues(e, op, ch); e' == r.e && result == r.Result() && RootsListed(e, op, ch)
  }

  ghost predicate GraphReply(e: EngineState, op: IsaOp, e': EngineState, result: Result<seq<PropEvent>, EngineError>)
    requires e.world.Wf() && ChangesGraph(op)
  {
    var r := ApplyGraph(e, op); e' == r.e && result == r.Result()
  }

  ghost predicate TablesReply(e: EngineState, op: IsaOp, compiled: Option<Region>, e': EngineState, result: Result<seq<PropEvent>, EngineError>)
    requires !ChangesGraph(op) && !MovesValues(op)
  {
    forall ch: Choices :: ch.compiled == compiled ==> var r := ApplyTables(e, op, ch); e' == r.e && result == r.Result()
  }

  /** The three kinds of instruction together. */
  lemma RepliesApply(e0: EngineState, op: IsaOp, ch: Choices, e': EngineState, result: Result<seq<PropEvent>, EngineError>)
    requires e0.world.Wf() && CacheRunnable(e0)
    requires var e := e0.(events := []);
      if ChangesGraph(op) then GraphReply(e, op, e', result)
      else if MovesValues(op) then ValuesReply(e, op, ch, e', result)
      else TablesReply(e, op, ch.compiled, e', result)
    ensures e' == EngineModel.Apply(e0, op, ch).e && result == EngineModel.Apply(e0, op, ch).Result()
    ensures RootsListed(e0.(events := []), op, ch)
  {}

  lemma SetValueReply(e: EngineState, node: Uid, v: T, ch: Choices, e': EngineState, result: Result<seq<PropEvent>, EngineError>)
    requires e.world.Wf() && CacheRunnable(e) && node in e.world.nodes && v != e.world.nodes[node].value
    requires var w := WriteValue(e, node, v);
      w.world.Wf() && CacheRunnable(w)
      && Lists(w.cache.dirty, ch.roots)
      && var r := DrainAndStabilize(w, ch.roots, ch.auth, ch.rounds); e' == r.e && result == r.Result()
    ensures ValuesReply(e, SetValue(node, v), ch, e', result)
  {}

  lemma ReflectReply(e: EngineState, node: Uid, ch: Choices, e': EngineState, result: Result<seq<PropEvent>, EngineError>)
    requires e.world.Wf() && CacheRunnable(e) && node in e.world.nodes
    requires var w := ReflectValue(e.Log(Attribute), node);
      w.world.Wf() && CacheRunnable(w)
      && Lists(w.cache.dirty, ch.roots)
      && var r := DrainAndStabilize(w, ch.roots, ch.auth, ch.rounds); e' == r.e && result == r.Result()
    ensures ValuesReply(e, Reflect(node), ch, e', result)
  {}

  lemma ReflectMissing(e: EngineState, node: Uid, ch: Choices)
    requires e.world.Wf() && CacheRunnable(e) && ch.roots == []
    ensures node !in e.world.nodes ==> ValuesReply(e, Reflect(node), ch, e.Log(Attribute), Err(NodeNotFound(node)))
  {
    hide DrainAndStabilize, ReflectValue;
  }

  lemma StabilizeReply(e: EngineState, region: Option<seq<Uid>>, ch: Choices, seeds: seq<Uid>)
    requires e.world.Wf() && CacheRunnable(e) && seeds == if region.Some? then region.value else Ascending(ZeroNodes(e.world))
    ensures var e1 := Stabilise(e, seeds, ch.explicitRun).Log(Egraph);
      ValuesReply(e, Stabilize(region), ch, TakeEvents(e1).e, Ok(e1.events))
  {}

  /** What the compiler answers for an instruction: a region only for a declaration, and for an
      Eager one the compilation of the members its boundary names. */
  ghost predicate CompiledFor(e: EngineState, op: IsaOp, compiled: Option<Region>) {
    && (compiled.Some? ==> op.RegionDeclare? && EngineValues.Placed(e.world, compiled.value))
    && (op.RegionDeclare? && op.compile == CompileEager ==>
        exists members :: CompilationOf(e, op.root, op.boundary, members, compiled))
  }

  lemma ApplyLegal(e: EngineState, op: IsaOp, ch: Choices)
    requires CreatesOutsideRegions(e, op)
    requires CompiledFor(e.(events := []), op, ch.compiled)
    ensures Legal(e, op, ch) && CompiledFor(e, op, ch.compiled)
  {
    if op.RegionDeclare? && op.compile == CompileEager {
      var members :| CompilationOf(e.(events := []), op.root, op.boundary, members, ch.compiled);
      assert CompilationOf(e, op.root, op.boundary, members, ch.compiled);
    }
  }

  lemma NothingCompiled(e: EngineState, op: IsaOp)
    requires ChangesGraph(op) || MovesValues(op) || !op.RegionDeclare?
    ensures CompiledFor(e, op, None)
  {}

  /** A node that is created is a member of no cached artifact. */
  predicate CreatesOutsideRegions(e: EngineState, op: IsaOp) {
    op.NodeCreate? ==> InNoRegion(e.cache.regions, op.id)
  }

  lemma StepApplied(e: EngineState, op: IsaOp, ch: Choices)
    requires Inv(e) && Legal(e, op, ch) && RootsListed(e.(events := []), op, ch)
    ensures Step(e, op, ch, EngineModel.Apply(e, op, ch).e)
  {
    InvReady(e);
  }

  lemma EventsCleared(e: EngineState)
    requires Inv(e)
    ensures Inv(e.(events := []))
  {}

  class Engine {
    const graph: Graph
    const deps: DepRegistry
    const prop: PropEngine
    const store: ValueStore
    const cache: RegionArtifactCache
    const maxSteps: nat
    var now: ProductTime
    var arrival: nat
    var partitions: map<Uid, PartitionId>
    /** One bit per dense slot: written in this cycle, and evaluated by the compiled tier. */
    var dirtySlots: array<Word>
    var handled: seq<Word>

    function Parts(): set<object>
      reads this
    {
      {this, graph, deps, prop, store, cache, dirtySlots}
    }

    /** The engine's state as a value. */
    function View(): EngineState
      reads Parts(), dirtySlots
    {
      EngineState(WorldOf(graph, deps, store), graph.edges, prop.queue, prop.events, prop.stats, prop.demanded,
                  now, arrival, partitions, cache.View(), dirtySlots[..], handled, maxSteps)
    }

    constructor ()
      ensures fresh(Parts()) && View() == EMPTY_ENGINE
    {
      graph := new Graph();
      deps := new DepRegistry();
      prop := new PropEngine();
      store := new ValueStore();
      cache := new RegionArtifactCache();
      maxSteps, now, arrival, partitions := 100_000, ZERO_TIME, 0, map[];
      dirtySlots := new Word[0];
      handled := [];
      new;
      assert dirtySlots[..] == [];
    }

    /** Advance one dimension of the causal clock and the arrival counter. */
    method Log(dim: TimeDim)
      modifies `now, `arrival
      ensures View() == old(View()).Log(dim)
    {
      now := now.Advance(dim);
      arrival := arrival + 1;
    }

    // ---- notifications -----------------------------------------------------------------

    /** One subscriber of a write, after its counters moved: gate, mode, enqueue, stamp. */
    method NotifyOne(node: Uid, sub: Uid, ghost a: Acc, ghost queued: seq<WorkItem>)
      requires a.reg == deps.View() && prop.queue == queued + a.work
      modifies deps, prop`queue
      ensures deps.View() == PushSub(a, node, sub, WriteCtx(now)).reg
      ensures prop.queue == queued + PushSub(a, node, sub, WriteCtx(now)).work
    {
      PushOutsideDemand(a, node, sub, now);
      var gate := deps.GateOpen(node, sub, now);
      if gate && deps.View().ModeOf(sub) == Eager {
        prop.Enqueue(Push(sub));
        deps.UpdateLastSeen(node, sub, now);
      }
    }

    /** The subscriber loop of a write: bump each subscriber's counters, then notify it. */
    method NotifySubs(node: Uid, subs: seq<Uid>, prior: T, next: T)
      modifies deps, prop`queue
      ensures View() == Notified(old(View()), node, subs, prior, next)
    {
      NotifyLoop(node, subs, prior, next);
    }

    method NotifyLoop(node: Uid, subs: seq<Uid>, prior: T, next: T)
      modifies deps, prop`queue
      ensures var a := BumpAndPush(Acc(old(deps.View()), [], [], NO_STATS), node, subs, prior, next, WriteCtx(now));
        deps.View() == a.reg && prop.queue == old(prop.queue) + a.work
    {
      ghost var a0 := Acc(deps.View(), [], [], NO_STATS);
      assert prop.queue + [] == prop.queue;
      for i := 0 to |subs|
        invariant deps.View() == BumpAndPush(a0, node, subs[..i], prior, next, WriteCtx(now)).reg
        invariant prop.queue == old(prop.queue) + BumpAndPush(a0, node, subs[..i], prior, next, WriteCtx(now)).work
      {
        assert subs[..i + 1][..i] == subs[..i];
        ghost var a := BumpAndPush(a0, node, subs[..i], prior, next, WriteCtx(now));
        deps.UpdateDepCounter(subs[i], prior, next);
        NotifyOne(node, subs[i], a.(reg := deps.View()), old(prop.queue));
        hide PushSub;
      }
      assert subs[..|subs|] == subs;
    }

    /** Mark the node's slot dirty and the regions that read it. */
    method TouchSlot(node: Uid)
      modifies cache`dirty, dirtySlots
      ensures View() == Touch(old(View()), node)
    {
      if node in store.idx {
        var dense := store.idx[node];
        cache.MarkDirtyForInput(dense);
        MarkSlot(dense);
      }
    }

    method MarkSlot(dense: nat)
      modifies dirtySlots
      ensures dirtySlots[..] == SetBitGuarded(old(dirtySlots[..]), dense)
    {
      if dense / 64 < dirtySlots.Length {
        dirtySlots[dense / 64] := Or(dirtySlots[dense / 64], Mask(dense % 64));
      }
    }

    // ---- the compiled tier ----------------------------------------------------------------

    /** Notify the subscribers outside the region of one changed output. */
    method NotifyOutside(node: Uid, members: seq<Uid>, prior: T, next: T)
      modifies deps, prop`queue
      ensures View() == Notified(old(View()), node, OutsideOf(Ascending(old(deps.View()).SubsOf(node)), members), prior, next)
    {
      var subs := Ascending(deps.View().SubsOf(node));
      NotifyOutsideLoop(node, subs, members, prior, next);
    }

    method NotifyOutsideLoop(node: Uid, subs: seq<Uid>, members: seq<Uid>, prior: T, next: T)
      modifies deps, prop`queue
      ensures var a := BumpAndPush(Acc(old(deps.View()), [], [], NO_STATS), node, OutsideOf(subs, members), prior, next, WriteCtx(now));
        deps.View() == a.reg && prop.queue == old(prop.queue) + a.work
    {
      ghost var a0 := Acc(deps.View(), [], [], NO_STATS);
      assert prop.queue + [] == prop.queue;
      for i := 0 to |subs|
        invariant deps.View() == BumpAndPush(a0, node, OutsideOf(subs[..i], members), prior, next, WriteCtx(now)).reg
        invariant prop.queue == old(prop.queue) + BumpAndPush(a0, node, OutsideOf(subs[..i], members), prior, next, WriteCtx(now)).work
      {
        OutsideNext(subs, members, i);
        ghost var outside := OutsideOf(subs[..i], members);
        if subs[i] in members {
          assert outside + [] == outside;
          continue;
        }
        ghost var a := BumpAndPush(a0, node, outside, prior, next, WriteCtx(now));
        BumpAndPushNext(a0, node, outside, subs[i], prior, next, WriteCtx(now));
        deps.UpdateDepCounter(subs[i], prior, next);
        NotifyOne(node, subs[i], a.(reg := deps.View()), old(prop.queue));
        hide PushSub, BumpAndPush;
      }
      assert subs[..|subs|] == subs;
    }

    /** Sync one changed output to the graph, report it and notify outside the region. */
    method SyncOneChange(members: seq<Uid>, change: (Uid, T, T))
      modifies graph`nodes, deps, prop`queue, prop`events
      ensures View() == SyncChange(old(View()), members, change)
    {
      var (node, prior, next) := change;
      if node in graph.nodes { graph.SetNodeValue(node, next); }
      prop.events := prop.events + [ValueChanged(node, prior, next)];
      NotifyOutside(node, members, prior, next);
    }

    method SyncAllChanges(members: seq<Uid>, changed: seq<(Uid, T, T)>)
      modifies graph`nodes, deps, prop`queue, prop`events
      ensures View() == SyncChanges(old(View()), members, changed)
    {
      for i := 0 to |changed|
        invariant View() == SyncChanges(old(View()), members, changed[..i])
      {
        assert changed[..i + 1][..i] == changed[..i];
        SyncOneChange(members, changed[i]);
      }
      assert changed[..|changed|] == changed;
    }

    /** Mark every member's slot as evaluated by the compiled tier. */
    method MarkMembers(members: seq<Uid>)
      modifies `handled
      ensures handled == MarkHandled(old(handled), store.idx, members)
    {
      for i := 0 to |members|
        invariant handled == MarkHandled(old(handled), store.idx, members[..i])
      {
        assert members[..i + 1][..i] == members[..i];
        if members[i] in store.idx {
          var dense := store.idx[members[i]];
          if dense / 64 < |handled| { handled := handled[dense / 64 := Or(handled[dense / 64], Mask(dense % 64))]; }
        }
      }
      assert members[..|members|] == members;
    }

    /** Execute a region over the store and account for it; the graph is synced afterwards. */
    method ExecuteRegion(r: Region) returns (changed: seq<(Uid, T, T)>)
      requires store.View().Valid() && r.Runnable(|store.cache|)
      modifies this`handled, store, dirtySlots, prop`stats
      ensures View() == Ran(old(View()), r) && changed == ChangedBy(old(View()), r)
    {
      ghost var c0, d0 := store.cache, dirtySlots[..];
      changed := RunCompiledRegion(r, store, dirtySlots);
      ValidIsStoreOf(store.View());
      DirtyIsRedirtied(r, c0, store.cache, d0, dirtySlots[..]);
      MarkMembers(r.members);
      prop.stats := prop.stats.(materialized := prop.stats.materialized + |changed|);
    }

    /** Run one dirty region, if its artifact is still there. */
    method RunOneRegion(root: Uid)
      requires Inv(View())
      modifies this`handled, graph`nodes, deps, prop, store, dirtySlots
      ensures CacheRunnable(old(View())) && View() == RunRegion(old(View()), root) && Inv(View())
    {
      RunRegionInv(View(), root);
      if root !in cache.regions { return; }
      var r := cache.regions[root];
      assert Placed(View().world, r);
      var changed := ExecuteRegion(r);
      SyncAllChanges(r.members, changed);
    }

    /** Run the dirty regions, in whatever order the dirty set yields their roots, and clear the
        dirty bits. */
    method RunDirtyRegions() returns (ghost roots: seq<Uid>)
      requires Inv(View())
      modifies this`handled, graph`nodes, deps, prop, store, cache, dirtySlots
      ensures Lists(old(View()).cache.dirty, roots)
      ensures var e0 := old(View()).(cache := old(View()).cache.(dirty := {}));
        e0.world.Wf() && CacheRunnable(e0) && var e1 := RunRegions(e0, roots);
        View() == e1.(dirtySlots := Cleared(|e1.dirtySlots|)) && Inv(View())
    {
      OnlyQueues(View(), View().(cache := View().cache.(dirty := {})));
      var list := cache.TakeDirty();
      roots := list;
      ghost var e0 := View();
      assert e0 == old(View()).(cache := old(View()).cache.(dirty := {}));
      InvReady(e0);
      for i := 0 to |list|
        invariant Inv(View()) && e0.world.Wf() && CacheRunnable(e0)
        invariant View() == RunRegions(e0, list[..i])
      {
        assert list[..i + 1][..i] == list[..i];
        RunOneRegion(list[i]);
      }
      assert list[..|list|] == list;
      OnlyQueues(View(), View().(dirtySlots := Cleared(|View().dirtySlots|)));
      ClearDirty();
    }

    method ClearDirty()
      modifies dirtySlots
      ensures View() == old(View()).(dirtySlots := Cleared(dirtySlots.Length))
    {
      forall w | 0 <= w < dirtySlots.Length { dirtySlots[w] := NO_BITS; }
      assert dirtySlots[..] == Cleared(dirtySlots.Length);
    }

    // ---- stabilisation ----------------------------------------------------------------------

    /** The subscriber loop of a resolved value: no counters move here. */
    method PushResolved(node: Uid, subs: seq<Uid>)
      modifies deps, prop`queue
      ensures var a := PushSubs(Acc(old(deps.View()), [], [], NO_STATS), node, subs, WriteCtx(now));
        deps.View() == a.reg && prop.queue == old(prop.queue) + a.work
    {
      ghost var a0 := Acc(deps.View(), [], [], NO_STATS);
      assert prop.queue + [] == prop.queue;
      for i := 0 to |subs|
        invariant deps.View() == PushSubs(a0, node, subs[..i], WriteCtx(now)).reg
        invariant prop.queue == old(prop.queue) + PushSubs(a0, node, subs[..i], WriteCtx(now)).work
      {
        PushSubsNext(a0, node, subs, i, WriteCtx(now));
        NotifyOne(node, subs[i], PushSubs(a0, node, subs[..i], WriteCtx(now)), old(prop.queue));
        hide PushSub, PushSubs;
      }
      assert subs[..|subs|] == subs;
    }

    /** Give one Zero member the resolved value and push to its Eager subscribers. */
    method ResolveMember(id: Uid, v: T)
      requires View().world.Wf()
      modifies graph`nodes, deps, store, prop`queue, prop`events
      ensures View() == ResolveOne(old(View()), id, v) && View().world.Wf()
    {
      ResolveOneWf(View(), id, v);
      if id in graph.nodes && graph.nodes[id].value == Zero {
        WriteNode(id, v, graph, deps, store);
        prop.events := prop.events + [ValueChanged(id, Zero, v)];
        PushResolved(id, Ascending(deps.View().SubsOf(id)));
      }
    }

    method ResolveMembers(ids: seq<Uid>, v: T)
      requires View().world.Wf()
      modifies graph`nodes, deps, store, prop`queue, prop`events
      ensures View() == ResolveAll(old(View()), ids, v) && View().world.Wf()
    {
      for i := 0 to |ids|
        invariant View().world.Wf() && View() == ResolveAll(old(View()), ids[..i], v)
      {
        assert ids[..i + 1][..i] == ids[..i];
        ResolveMember(ids[i], v);
      }
      assert ids[..|ids|] == ids;
    }

    /** Demand every Neg dependency of one member. */
    method DemandNegOf(id: Uid)
      modifies prop`queue
      ensures prop.queue == old(prop.queue) + Demands(NegNodes(View().world, Ascending(deps.View().DepsOf(id))))
    {
      var ids := Ascending(deps.View().DepsOf(id));
      assert prop.queue + [] == prop.queue;
      for i := 0 to |ids|
        invariant prop.queue == old(prop.queue) + Demands(NegNodes(View().world, ids[..i]))
      {
        assert ids[..i + 1][..i] == ids[..i];
        ghost var before := NegNodes(View().world, ids[..i]);
        assert before + [] == before;
        if ids[i] in graph.nodes && graph.nodes[ids[i]].value == Neg { prop.Enqueue(DemandItem(ids[i])); }
      }
      assert ids[..|ids|] == ids;
    }

    method DemandNegMembers(ids: seq<Uid>)
      modifies prop`queue
      ensures View() == DemandNeg(old(View()), ids)
    {
      for i := 0 to |ids|
        invariant View() == DemandNeg(old(View()), ids[..i])
      {
        assert ids[..i + 1][..i] == ids[..i];
        DemandNegWf(old(View()), ids[..i]);
        DemandNegOf(ids[i]);
      }
      assert ids[..|ids|] == ids;
    }

    /** `run_stabilize`, given the section built from the seeds and how its stabilisation ended. */
    method RunStabilize(seeds: seq<Uid>, s: Stabilized)
      requires View().world.Wf()
      modifies this`now, this`arrival, graph`nodes, deps, store, prop`queue, prop`events
      ensures View() == Stabilise(old(View()), seeds, s) && View().world.Wf()
    {
      if seeds == [] { return; }
      var members := Ascending(s.members);
      match s.verdict {
        case Settled(v) =>
          if v.Some? {
            ResolveMembers(members, v.value);
            Log(Egraph);
          }
        case Boundary => prop.events := prop.events + Infections(members);
        case Informational =>
          DemandNegWf(View(), members);
          DemandNegMembers(members);
        case Structural =>
      }
    }

    /** Serve each stabilisation request in turn. */
    method RunStabilizeEach(requests: seq<seq<Uid>>, answers: seq<Stabilized>)
      requires View().world.Wf()
      modifies this`now, this`arrival, graph`nodes, deps, store, prop`queue, prop`events
      ensures View() == StabiliseEach(old(View()), requests, answers) && View().world.Wf()
    {
      hide *;
      var i := 0;
      assert requests[0..] == requests && answers[0..] == answers;
      while i < |requests| && i < |answers|
        invariant 0 <= i <= |requests| && i <= |answers| && View().world.Wf()
        invariant StabiliseEach(View(), requests[i..], answers[i..]) == StabiliseEach(old(View()), requests, answers)
      {
        StabiliseEachNext(View(), requests, answers, i);
        RunStabilize(requests[i], answers[i]);
        i := i + 1;
      }
      StabiliseEachDone(View(), requests[i..], answers[i..]);
    }

    /** The regions of the stabilisation requests among the events. */
    method CollectRequests() returns (requests: seq<seq<Uid>>)
      ensures requests == Requests(prop.events)
    {
      requests := [];
      for i := 0 to |prop.events|
        invariant requests == Requests(prop.events[..i])
      {
        assert prop.events[..i + 1][..i] == prop.events[..i];
        assert requests + [] == requests;
        if prop.events[i].StabilizeQueued? { requests := requests + [prop.events[i].region]; }
      }
      assert prop.events[..|prop.events|] == prop.events;
    }

    /** `events.retain(..)`: drop the stabilisation requests. */
    method DropRequests()
      modifies prop`events
      ensures prop.events == WithoutRequests(old(prop.events))
    {
      var kept: seq<PropEvent> := [];
      for i := 0 to |prop.events|
        invariant kept == WithoutRequests(prop.events[..i])
      {
        assert prop.events[..i + 1][..i] == prop.events[..i];
        assert kept + [] == kept;
        if !prop.events[i].StabilizeQueued? { kept := kept + [prop.events[i]]; }
      }
      assert prop.events[..|prop.events|] == prop.events;
      prop.events := kept;
    }

    // ---- draining ----------------------------------------------------------------------------

    method DrainQueue(auth: map<(Uid, Uid), Verdict>) returns (ok: bool)
      requires View().world.Wf()
      modifies graph`nodes, deps, store, prop
      ensures View().world.Wf()
      ensures var e := old(View());
        var d := Draining.Drain(QueueOf(e), e.now, auth, e.handled, e.maxSteps);
        ok == d.Idle? && View() == WithQueue(e, d.q)
    {
      ghost var frontier;
      ok, frontier := prop.Drain(graph, deps, store, now, auth, handled, maxSteps);
      hide Draining.Drain;
    }

    /** Clear the handled bits and take the events. */
    method FinishCycle() returns (events: seq<PropEvent>)
      modifies `handled, prop`events
      ensures View() == EngineModel.Finish(old(View())).e && events == old(prop.events)
    {
      handled := Cleared(|handled|);
      events := prop.events;
      prop.events := [];
    }

    /** Drain, then serve the stabilisation requests the drain produced, until there are none. */
    method DrainRounds(auth: map<(Uid, Uid), Verdict>, rounds: seq<seq<Stabilized>>)
      returns (result: Result<seq<PropEvent>, EngineError>)
      requires View().world.Wf()
      modifies this`now, this`arrival, this`handled, graph`nodes, deps, store, prop
      ensures View() == Settle(old(View()), auth, rounds).e && result == Settle(old(View()), auth, rounds).Result()
    {
      var i := 0;
      while true
        invariant 0 <= i <= |rounds| && View().world.Wf()
        invariant Settle(View(), auth, rounds[i..]) == Settle(old(View()), auth, rounds)
        decreases |rounds| - i
      {
        ghost var e := View();
        var ok := DrainQueue(auth);
        SettleUnfold(e, auth, rounds[i..], View(), ok);
        if !ok { return Err(EngineError.StepLimitExceeded); }
        var requests := CollectRequests();
        if requests == [] {
          var events := FinishCycle();
          return Ok(events);
        }
        if i == |rounds| { return Err(RoundsExhausted); }
        DropRequests();
        RunStabilizeEach(requests, rounds[i]);
        assert rounds[i..][1..] == rounds[i + 1..];
        i := i + 1;
      }
    }

    /** `drain_and_stabilize` */
    method DrainAll(auth: map<(Uid, Uid), Verdict>, rounds: seq<seq<Stabilized>>)
      returns (result: Result<seq<PropEvent>, EngineError>, ghost roots: seq<Uid>)
      requires Inv(View())
      modifies this`now, this`arrival, this`handled, graph`nodes, deps, store, prop, cache, dirtySlots
      ensures old(View()).world.Wf() && CacheRunnable(old(View())) && Lists(old(View()).cache.dirty, roots)
      ensures var r := DrainAndStabilize(old(View()), roots, auth, rounds); View() == r.e && result == r.Result()
    {
      roots := RunDirtyRegions();
      result := DrainRounds(auth, rounds);
    }

    // ---- structural operations -----------------------------------------------------------------

    /** Grow the dirty bits by one zero word. */
    method GrowDirty()
      modifies `dirtySlots
      ensures fresh(dirtySlots) && dirtySlots[..] == old(dirtySlots[..]) + [NO_BITS]
    {
      var n, prior := dirtySlots.Length, dirtySlots;
      var wider := new Word[n + 1];
      forall i | 0 <= i < n { wider[i] := prior[i]; }
      wider[n] := NO_BITS;
      dirtySlots := wider;
      assert wider[..n] == prior[..n] && wider[..] == wider[..n] + [wider[n]];
    }

    method AddNode(id: Uid, kind: NodeKind)
      requires store.View().Valid()
      modifies this`dirtySlots, this`handled, graph`nodes, deps, store
      ensures View() == CreateNode(old(View()), id, kind)
      ensures dirtySlots == old(dirtySlots) || fresh(dirtySlots)
    {
      graph.AddNode(id, Node(kind, Neg, 0));
      deps.SetMode(id, Eager);
      var _ := store.Alloc(id);
      var neededWords := Words(|store.cache|);
      if dirtySlots.Length < neededWords {
        GrowDirty();
        handled := handled + [NO_BITS];
      }
    }

    /** Subscribe, with the source's slot when it has one, and count its current value. */
    method LinkNodes(src: Uid, tgt: Uid)
      requires store.View().Shaped()
      modifies deps
      ensures View() == old(View()).(world := Link(old(View()).world, src, tgt))
    {
      if src in store.idx {
        deps.SubscribeIndexed(src, tgt, store.idx[src]);
      } else {
        deps.Subscribe(src, tgt);
      }
      deps.AddDepToCounter(tgt, if src in store.idx then store.cache[store.idx[src]] else Neg);
    }

    method AddEdge(id: Uid, src: Uid, tgt: Uid, dep: DepKind)
      requires store.View().Shaped()
      modifies graph`edges, deps, cache
      ensures View() == Connect(old(View()), id, src, tgt, dep)
    {
      hide Link, Coherence.Coherent;
      var preferred := PortPreference(dep);
      if preferred.Some? && deps.View().ModeOf(tgt) == Eager { deps.SetMode(tgt, preferred.value); }
      graph.AddEdge(id, Edge(src, tgt, dep.Remote?));
      LinkNodes(src, tgt);
      cache.InvalidateForNode(src);
      cache.InvalidateForNode(tgt);
    }

    /** Uncount the source's current value and unsubscribe. */
    method UnlinkNodes(src: Uid, tgt: Uid)
      requires store.View().Shaped()
      modifies deps
      ensures View() == old(View()).(world := Unlink(old(View()).world, src, tgt))
    {
      deps.RemoveDepFromCounter(tgt, if src in store.idx then store.cache[store.idx[src]] else Neg);
      deps.Unsubscribe(src, tgt);
    }

    /** Remove the listed edges that are still there, each with its subscription. */
    method DropEdges(ids: seq<Uid>)
      requires store.View().Shaped()
      modifies graph`edges, deps
      ensures View() == RemoveEdges(old(View()), ids)
    {
      for i := 0 to |ids|
        invariant View() == RemoveEdges(old(View()), ids[..i])
      {
        assert ids[..i + 1][..i] == ids[..i];
        if ids[i] in graph.edges { DropEdge(ids[i]); }
      }
      assert ids[..|ids|] == ids;
    }

    method DropEdge(id: Uid)
      requires store.View().Shaped() && id in graph.edges
      modifies graph`edges, deps
      ensures View() == RemoveEdge(old(View()), id)
    {
      var edge := graph.RemoveEdge(id);
      UnlinkNodes(edge.value.src, edge.value.tgt);
    }

    method IncidentEdges(id: Uid) returns (ids: seq<Uid>)
      ensures ids == Ascending(Incident(View(), id))
    {
      ids := graph.DanglingEdges(id);
      AscendingUnique(Incident(View(), id), ids);
    }

    method DropNode(id: Uid)
      requires store.View().Valid()
      modifies graph, deps, store, cache
      ensures View() == DeleteNode(old(View()), id)
    {
      hide Incident, RemoveEdges, Ascending, Coherence.Coherent, Inv;
      var dangling := IncidentEdges(id);
      DropEdges(dangling);
      graph.RemoveNode(id);
      deps.RemoveNode(id);
      store.Dealloc(id);
      cache.InvalidateForNode(id);
    }

    /** Remove an edge and the artifacts that cover its ends. */
    method DropLocalEdge(id: Uid)
      requires store.View().Shaped() && id in graph.edges
      modifies graph`edges, deps, cache
      ensures View() == DeleteEdge(old(View()), id)
    {
      var edge := graph.edges[id];
      cache.InvalidateForNode(edge.src);
      cache.InvalidateForNode(edge.tgt);
      DropEdge(id);
    }

    /** Some edge at the node crosses a partition boundary. */
    method HasRemoteInterface(id: Uid) returns (remote: bool)
      ensures remote <==> exists edge :: edge in Incident(View(), id) && graph.edges[edge].remote
    {
      var dangling := graph.DanglingEdges(id);
      remote := false;
      for i := 0 to |dangling|
        invariant forall k :: 0 <= k < i ==> dangling[k] in graph.edges && !graph.edges[dangling[k]].remote
      {
        assert dangling[i] in dangling;
        if graph.edges[dangling[i]].remote { return true; }
      }
    }

    // ---- external writes ---------------------------------------------------------------------

    /** The value write of `SetValue`, with its event and tick. */
    method StoreExternal(node: Uid, v: T) returns (prior: T)
      requires View().world.Wf() && node in View().world.nodes
      modifies this`now, this`arrival, graph`nodes, store, prop`events, cache`dirty, dirtySlots
      ensures View() == PutValue(old(View()), node, v) && prior == old(View()).world.nodes[node].value
    {
      prior := graph.nodes[node].value;
      WriteNode(node, v, graph, deps, store);
      TouchSlot(node);
      prop.events := prop.events + [ValueChanged(node, prior, v)];
      Log(Attribute);
    }

    method WriteExternal(node: Uid, v: T)
      requires View().world.Wf() && node in View().world.nodes
      modifies this`now, this`arrival, graph`nodes, deps, store, prop`queue, prop`events, cache`dirty, dirtySlots
      ensures View() == WriteValue(old(View()), node, v)
    {
      hide PutValue, Notified, Coherence.Coherent;
      var prior := StoreExternal(node, v);
      NotifySubs(node, Ascending(deps.View().SubsOf(node)), prior, v);
    }

    /** `reflect` on a node, with its event. */
    method StoreReflected(node: Uid) returns (prior: T)
      requires View().world.Wf() && node in View().world.nodes
      modifies graph`nodes, store, prop`events, cache`dirty, dirtySlots
      ensures View() == PutReflected(old(View()), node) && prior == old(View()).world.nodes[node].value
    {
      prior := graph.nodes[node].value;
      var next := MvNeg(prior);
      graph.ReflectValue(node);
      store.Set(node, next);
      if next != prior {
        TouchSlot(node);
        prop.events := prop.events + [ValueChanged(node, prior, next)];
      }
    }

    method ReflectNode(node: Uid)
      requires View().world.Wf() && node in View().world.nodes
      modifies graph`nodes, deps, store, prop`queue, prop`events, cache`dirty, dirtySlots
      ensures View() == ReflectValue(old(View()), node)
    {
      hide PutReflected, Notified, Coherence.Coherent;
      var prior := StoreReflected(node);
      NotifySubs(node, Ascending(deps.View().SubsOf(node)), prior, MvNeg(prior));
    }

    // ---- region declaration --------------------------------------------------------------------

    /** The member list a boundary names. */
    method ResolveMemberList(root: Uid, boundary: RegionBoundary) returns (members: seq<Uid>)
      ensures Members(View(), root, boundary, members)
    {
      match boundary {
        case ExplicitSet(ids) => members := ids;
        case DepClosure(maxDepth) => members := BfsDepClosure(root, maxDepth, deps.View());
        case PartitionScoped(pid) =>
          AscendingElements(BoundTo(partitions, pid));
          AscendingSorted(BoundTo(partitions, pid));
          members := Ascending(BoundTo(partitions, pid));
      }
    }

    /** Register the contract and, for an Eager policy, compile the members and keep the artifact. */
    method DeclareRegion(root: Uid, boundary: RegionBoundary, stability: StabilityContract, compile: CompilePolicy, epoch: nat)
      returns (ghost compiled: Option<Region>)
      requires Inv(View())
      modifies cache
      ensures compile == CompileEager ==> exists members :: CompilationOf(old(View()), root, boundary, members, compiled)
      ensures compiled.Some? ==> EngineValues.Placed(old(View()).world, compiled.value)
      ensures var e1 := old(View()).(cache := old(View()).cache.(contracts := old(View()).cache.contracts[root := stability]));
        View() == if compiled.Some? then e1.(cache := e1.cache.Insert(root, compiled.value, stability)) else e1
      ensures compile != CompileEager ==> compiled.None?
    {
      var members := ResolveMemberList(root, boundary);
      cache.contracts := cache.contracts[root := stability];
      compiled := None;
      if compile == CompileEager {
        var region := CompileRegion(members, WorldOf(graph, deps, store), epoch);
        compiled := region;
        assert CompilationOf(old(View()), root, boundary, members, compiled);
        if region.Some? { cache.Insert(root, region.value, stability); }
      }
    }

    // ---- one instruction -----------------------------------------------------------------------

    method ClearEvents()
      modifies prop`events
      ensures View() == old(View()).(events := [])
    {
      prop.events := [];
    }

    method TakeAllEvents() returns (events: seq<PropEvent>)
      modifies prop`events
      ensures View() == TakeEvents(old(View())).e && events == old(prop.events)
    {
      events := prop.events;
      prop.events := [];
    }

    /** The instructions that change the graph. */
    method ApplyToGraph(op: IsaOp) returns (result: Result<seq<PropEvent>, EngineError>)
      requires View().world.Wf() && ChangesGraph(op)
      modifies this, graph, deps, store, prop`events, cache
      ensures GraphReply(old(View()), op, View(), result)
      ensures dirtySlots == old(dirtySlots) || fresh(dirtySlots)
    {
      hide CreateNode, Connect, Link, DeleteNode, DeleteEdge, Coherence.Coherent;
      match op {
        case NodeCreate(id, _, kind, _) =>
          AddNode(id, kind);
          Log(TimeDim.Identity);
        case EdgeConnect(id, _, src, tgt, dep) =>
          if src !in graph.nodes { return Err(NodeNotFound(src)); }
          if tgt !in graph.nodes { return Err(NodeNotFound(tgt)); }
          AddEdge(id, src, tgt, dep);
          Log(Dependency);
        case Subscribe(source, subscriber) =>
          LinkNodes(source, subscriber);
          Log(Dependency);
        case DelNode(id) =>
          var remote := HasRemoteInterface(id);
          if remote { return Err(DpoViolation(id)); }
          DropNode(id);
          Log(TimeDim.Identity);
        case DelEdge(id) =>
          if id in graph.edges {
            var edge := graph.edges[id];
            if edge.remote { return Err(DpoViolation(id)); }
            DropLocalEdge(id);
            Log(Dependency);
          }
      }
      var events := TakeAllEvents();
      result := Ok(events);
    }

    /** `RegionDeclare`. */
    method ApplyDeclare(op: IsaOp, epoch: nat) returns (result: Result<seq<PropEvent>, EngineError>, ghost compiled: Option<Region>)
      requires Inv(View()) && op.RegionDeclare?
      modifies this`now, this`arrival, prop`events, cache
      ensures TablesReply(old(View()), op, compiled, View(), result)
      ensures CompiledFor(old(View()), op, compiled)
    {
      hide Inv, EngineValues.Placed, CompilationOf;
      compiled := DeclareRegion(op.root, op.boundary, op.stability, op.compile, epoch);
      Log(TimeDim.Identity);
      var events := TakeAllEvents();
      result := Ok(events);
    }

    /** The instructions that change modes, labels and bindings. */
    method ApplyToTables(op: IsaOp) returns (result: Result<seq<PropEvent>, EngineError>)
      requires !ChangesGraph(op) && !MovesValues(op) && !op.RegionDeclare?
      modifies this`now, this`arrival, this`partitions, deps, prop`events
      ensures TablesReply(old(View()), op, None, View(), result)
    {
      match op {
        case SetMode(node, mode) =>
          if node !in graph.nodes { return Err(NodeNotFound(node)); }
          deps.SetMode(node, mode);
        case PartitionBind(node, partition) => partitions := partitions[node := partition];
        case SetEdgeLabel(source, target, edgeLabel) => deps.SetCompiledLabel(source, target, edgeLabel.projectionMask.dims);
        case PartitionCreate(_, _, _, _) =>
        case SetPartitionAuthority(_, _, _) =>
        case SetStabilizationConfig(_, _) =>
        case SetExecutionPolicy(_, _) =>
      }
      Log(TimeDim.Identity);
      var events := TakeAllEvents();
      result := Ok(events);
    }

    /** `graph.node(id)` */
    method NodeAt(id: Uid) returns (node: Option<Node>)
      ensures node == if id in View().world.nodes then Some(View().world.nodes[id]) else None
    {
      node := if id in graph.nodes then Some(graph.nodes[id]) else None;
    }

    /** `SetValue`: refused on a missing node, silent on the same value, else write and drain. */
    method ApplySetValue(node: Uid, v: T, auth: map<(Uid, Uid), Verdict>, rounds: seq<seq<Stabilized>>, ghost explicitRun: Stabilized)
      returns (result: Result<seq<PropEvent>, EngineError>, ghost roots: seq<Uid>)
      requires Inv(View()) && View().world.Wf() && CacheRunnable(View())
      modifies this`now, this`arrival, this`handled, graph`nodes, deps, store, prop, cache, dirtySlots
      ensures ValuesReply(old(View()), SetValue(node, v), Choices(auth, None, roots, rounds, explicitRun), View(), result)
    {
      roots := [];
      hide Inv, CacheRunnable, DrainAndStabilize, WriteValue;
      var n := NodeAt(node);
      ghost var e := View();
      if n.None? { return Err(NodeNotFound(node)), roots; }
      if v == n.value.value { return Ok([]), roots; }
      hide *;
      WriteValueKeeps(e, node, v);
      WriteExternal(node, v);
      result, roots := DrainAll(auth, rounds);
      SetValueReply(e, node, v, Choices(auth, None, roots, rounds, explicitRun), View(), result);
    }

    /** `Propagate` and `Demand`: queue the item and drain. */
    method ApplyQueued(item: WorkItem, auth: map<(Uid, Uid), Verdict>, rounds: seq<seq<Stabilized>>)
      returns (result: Result<seq<PropEvent>, EngineError>, ghost roots: seq<Uid>)
      requires Inv(View())
      modifies this`now, this`arrival, this`handled, graph`nodes, deps, store, prop, cache, dirtySlots
      ensures var e1 := old(View()).Enqueue(item).Log(Attribute);
        e1.world.Wf() && CacheRunnable(e1) && Lists(e1.cache.dirty, roots)
        && var r := DrainAndStabilize(e1, roots, auth, rounds); View() == r.e && result == r.Result()
    {
      QueueKeeps(View(), item);
      prop.Enqueue(item);
      Log(Attribute);
      hide DrainAndStabilize;
      result, roots := DrainAll(auth, rounds);
    }

    /** `Reflect`: the tick comes before the node is looked up. */
    method ApplyReflect(node: Uid, auth: map<(Uid, Uid), Verdict>, rounds: seq<seq<Stabilized>>, ghost explicitRun: Stabilized)
      returns (result: Result<seq<PropEvent>, EngineError>, ghost roots: seq<Uid>)
      requires Inv(View()) && View().world.Wf() && CacheRunnable(View())
      modifies this`now, this`arrival, this`handled, graph`nodes, deps, store, prop, cache, dirtySlots
      ensures ValuesReply(old(View()), Reflect(node), Choices(auth, None, roots, rounds, explicitRun), View(), result)
    {
      roots := [];
      ghost var e := View();
      LogKeeps(e, Attribute);
      ReflectMissing(e, node, Choices(auth, None, roots, rounds, explicitRun));
      assert Inv(e.Log(Attribute));
      hide *;
      Log(Attribute);
      var n := NodeAt(node);
      if n.None? { return Err(NodeNotFound(node)), roots; }
      ReflectValueKeeps(e.Log(Attribute), node);
      ReflectNode(node);
      result, roots := DrainAll(auth, rounds);
      ReflectReply(e, node, Choices(auth, None, roots, rounds, explicitRun), View(), result);
    }

    /** An explicit `Stabilize`, on the given region or on every Zero node. */
    method ApplyStabilize(region: Option<seq<Uid>>, explicitRun: Stabilized, ghost ch: Choices)
      returns (result: Result<seq<PropEvent>, EngineError>)
      requires View().world.Wf() && CacheRunnable(View()) && ch.explicitRun == explicitRun
      modifies this`now, this`arrival, graph`nodes, deps, store, prop`queue, prop`events
      ensures ValuesReply(old(View()), Stabilize(region), ch, View(), result)
    {
      var zeros := set n | n in graph.nodes && graph.nodes[n].value == Zero;
      assert zeros == ZeroNodes(View().world);
      ghost var e := View();
      var seeds := if region.Some? then region.value else Ascending(zeros);
      hide *;
      RunStabilize(seeds, explicitRun);
      Log(Egraph);
      StabilizeReply(e, region, ch, seeds);
      var events := TakeAllEvents();
      result := Ok(events);
    }

    /** The instructions that move values. */
    method ApplyToValues(op: IsaOp, auth: map<(Uid, Uid), Verdict>, rounds: seq<seq<Stabilized>>, explicitRun: Stabilized)
      returns (result: Result<seq<PropEvent>, EngineError>, ghost ch: Choices)
      requires Inv(View()) && View().world.Wf() && CacheRunnable(View()) && MovesValues(op)
      modifies this`now, this`arrival, this`handled, graph`nodes, deps, store, prop, cache, dirtySlots
      ensures ch.auth == auth && ch.rounds == rounds && ch.explicitRun == explicitRun && ch.compiled == None
      ensures ValuesReply(old(View()), op, ch, View(), result)
    {
      ghost var roots := [];
      hide DrainAndStabilize, Inv, CacheRunnable;
      match op {
        case SetValue(node, v) => result, roots := ApplySetValue(node, v, auth, rounds, explicitRun);
        case Propagate(node) => result, roots := ApplyQueued(Push(node), auth, rounds);
        case Demand(node) => result, roots := ApplyQueued(DemandItem(node), auth, rounds);
        case Reflect(node) => result, roots := ApplyReflect(node, auth, rounds, explicitRun);
        case Stabilize(region) => result := ApplyStabilize(region, explicitRun, Choices(auth, None, [], rounds, explicitRun));
      }
      ch := Choices(auth, None, roots, rounds, explicitRun);
    }

    /** `Engine::apply`: the event list is cleared, then the instruction takes the effect that the
        state function gives it, and the invariant stays. The verdicts of the authority gate, the
        answers of structural stabilisation and the adjacency epoch come from outside. */
    method Apply(op: IsaOp, auth: map<(Uid, Uid), Verdict>, rounds: seq<seq<Stabilized>>, explicitRun: Stabilized, epoch: nat)
      returns (result: Result<seq<PropEvent>, EngineError>, ghost ch: Choices)
      requires Inv(View()) && CreatesOutsideRegions(View(), op)
      modifies this, graph, deps, prop, store, cache, dirtySlots
      ensures dirtySlots == old(dirtySlots) || fresh(dirtySlots)
      ensures Step(old(View()), op, ch, View()) && Inv(View())
      ensures result == EngineModel.Apply(old(View()), op, ch).Result()
      ensures ch.auth == auth && ch.rounds == rounds && ch.explicitRun == explicitRun
      ensures CompiledFor(old(View()), op, ch.compiled)
    {
      ghost var e0 := View();
      hide *;
      hide ChangesGraph, MovesValues;
      InvReady(e0);
      EventsCleared(e0);
      ClearEvents();
      InvReady(View());
      ch := Choices(auth, None, [], rounds, explicitRun);
      if ChangesGraph(op) {
        result := ApplyToGraph(op);
        NothingCompiled(e0.(events := []), op);
      } else if MovesValues(op) {
        result, ch := ApplyToValues(op, auth, rounds, explicitRun);
        NothingCompiled(e0.(events := []), op);
      } else if op.RegionDeclare? {
        ghost var compiled;
        result, compiled := ApplyDeclare(op, epoch);
        ch := ch.(compiled := compiled);
      } else {
        result := ApplyToTables(op);
        NothingCompiled(e0.(events := []), op);
      }
      RepliesApply(e0, op, ch, View(), result);
      ApplyLegal(e0, op, ch);
      StepApplied(e0, op, ch);
      ApplyKeeps(e0, op, ch);
    }
  }
}
