/** The propagation engine in place: the push step over the graph, the registry and the store,
    and the work queue that drives it. */
module PropEngines {
  import opened Base
  import opened Bits
  import opened Ternary
  import opened Rules
  import opened Time
  import opened Isa
  import opened ValueStores
  import opened Deps
  import opened DepRegistries
  import opened Propagation
  import opened StepFacts
  import Draining

  /** The structural graph. */
  class Graph {
    var nodes: map<Uid, Node>
    var edges: map<Uid, Edge>

    constructor ()
      ensures nodes == map[] && edges == map[]
    {
      nodes, edges := map[], map[];
    }

    method AddNode(id: Uid, node: Node)
      modifies `nodes
      ensures nodes == old(nodes)[id := node]
    {
      nodes := nodes[id := node];
    }

    method RemoveNode(id: Uid)
      modifies `nodes
      ensures nodes == old(nodes) - {id}
    {
      nodes := nodes - {id};
    }

    method AddEdge(id: Uid, edge: Edge)
      modifies `edges
      ensures edges == old(edges)[id := edge]
    {
      edges := edges[id := edge];
    }

    method RemoveEdge(id: Uid) returns (edge: Option<Edge>)
      modifies `edges
      ensures edges == old(edges) - {id}
      ensures edge == if id in old(edges) then Some(old(edges)[id]) else None
    {
      edge := if id in edges then Some(edges[id]) else None;
      edges := edges - {id};
    }

    /** `node_mut(id).set_value(v)` */
    method SetNodeValue(id: Uid, v: T)
      requires id in nodes
      modifies `nodes
      ensures nodes == old(nodes)[id := old(nodes)[id].SetValue(v)]
    {
      var node := nodes[id];
      if v != node.value { node := node.(value := v, version := node.version + 1); }
      nodes := nodes[id := node];
    }

    /** `node_mut(id).reflect()`: the version moves even when the value does not. */
    method ReflectValue(id: Uid)
      requires id in nodes
      modifies `nodes
      ensures nodes == old(nodes)[id := old(nodes)[id].(value := MvNeg(old(nodes)[id].value), version := old(nodes)[id].version + 1)]
    {
      var node := nodes[id];
      nodes := nodes[id := node.(value := MvNeg(node.value), version := node.version + 1)];
    }

    /** `dangling_edges`: every edge that starts or ends at the node, once each, in ascending order of the ids. */
    method DanglingEdges(id: Uid) returns (ids: seq<Uid>)
      ensures forall e :: e in ids <==> e in edges && (edges[e].src == id || edges[e].tgt == id)
      ensures StrictlyAscending(ids)
    {
      var rest := edges.Keys;
      var found: set<Uid> := {};
      while rest != {}
        invariant rest <= edges.Keys
        invariant forall e :: e in found <==> e in edges && e !in rest && (edges[e].src == id || edges[e].tgt == id)
      {
        var e :| e in rest;
        if edges[e].src == id || edges[e].tgt == id { found := found + {e}; }
        rest := rest - {e};
      }
      ids := Ascending(found);
      AscendingElements(found);
      AscendingSorted(found);
    }
  }

  function WorldOf(graph: Graph, deps: DepRegistry, store: ValueStore): World
    reads graph, deps, store
  {
    World(graph.nodes, deps.View(), Store(store.cache, store.idx, store.planeP0, store.planeP1))
  }

  /** The value write of a step: the graph node and its slot. */
  method WriteNode(id: Uid, v: T, graph: Graph, deps: DepRegistry, store: ValueStore)
    requires WorldOf(graph, deps, store).Wf() && id in graph.nodes
    modifies graph`nodes, store
    ensures WorldOf(graph, deps, store) == old(WorldOf(graph, deps, store)).Put(id, v) && WorldOf(graph, deps, store).Wf()
  {
    PutWf(WorldOf(graph, deps, store), id, v);
    graph.SetNodeValue(id, v);
    store.Set(id, v);
  }

  // ---- the subscriber loops -------------------------------------------------------------

  /** One subscriber: the delta, mode and authority gates in turn, then enqueue and stamp. */
  method PushOne(id: Uid, sub: Uid, deps: DepRegistry, ctx: Ctx, events: seq<PropEvent>, work: seq<WorkItem>, stats: Stats)
    returns (events': seq<PropEvent>, work': seq<WorkItem>, stats': Stats)
    modifies deps
    ensures Acc(deps.View(), events', work', stats') == PushSub(Acc(old(deps.View()), events, work, stats), id, sub, ctx)
  {
    events', work', stats' := events, work, stats;
    var gate := deps.GateOpen(id, sub, ctx.now);
    if !gate {
      stats' := stats.(byDelta := stats.byDelta + 1);
      return;
    }
    if deps.View().ModeOf(sub) != Eager && sub !in ctx.demanded {
      stats' := stats.(byMode := stats.byMode + 1);
      return;
    }
    match ctx.VerdictOf(id, sub) {
      case Deny =>
      case Allow =>
        work' := work + [Push(sub)];
        deps.UpdateLastSeen(id, sub, ctx.now);
      case AllowLogged =>
        events' := events + [AuthViolation(id, sub)];
        work' := work + [Push(sub)];
        deps.UpdateLastSeen(id, sub, ctx.now);
    }
  }

  method PushLoop(id: Uid, subs: seq<Uid>, deps: DepRegistry, ctx: Ctx, events: seq<PropEvent>, work: seq<WorkItem>, stats: Stats)
    returns (events': seq<PropEvent>, work': seq<WorkItem>, stats': Stats)
    modifies deps
    ensures Acc(deps.View(), events', work', stats') == PushSubs(Acc(old(deps.View()), events, work, stats), id, subs, ctx)
  {
    events', work', stats' := events, work, stats;
    for i := 0 to |subs|
      invariant Acc(deps.View(), events', work', stats') == PushSubs(Acc(old(deps.View()), events, work, stats), id, subs[..i], ctx)
    {
      assert subs[..i + 1][..i] == subs[..i];
      events', work', stats' := PushOne(id, subs[i], deps, ctx, events', work', stats');
    }
    assert subs[..|subs|] == subs;
  }

  /** Bump every subscriber's counters. */
  method BumpLoop(subs: seq<Uid>, deps: DepRegistry, prior: T, next: T)
    modifies deps
    ensures deps.View() == BumpAll(old(deps.View()), subs, prior, next)
  {
    for i := 0 to |subs|
      invariant deps.View() == BumpAll(old(deps.View()), subs[..i], prior, next)
    {
      assert subs[..i + 1][..i] == subs[..i];
      deps.UpdateDepCounter(subs[i], prior, next);
    }
    assert subs[..|subs|] == subs;
  }

  /** Bump each subscriber's counters and try to push to it. */
  method BumpAndPushLoop(id: Uid, subs: seq<Uid>, prior: T, next: T, deps: DepRegistry, ctx: Ctx,
                         events: seq<PropEvent>, work: seq<WorkItem>, stats: Stats)
    returns (events': seq<PropEvent>, work': seq<WorkItem>, stats': Stats)
    modifies deps
    ensures Acc(deps.View(), events', work', stats')
         == BumpAndPush(Acc(old(deps.View()), events, work, stats), id, subs, prior, next, ctx)
  {
    events', work', stats' := events, work, stats;
    for i := 0 to |subs|
      invariant Acc(deps.View(), events', work', stats')
             == BumpAndPush(Acc(old(deps.View()), events, work, stats), id, subs[..i], prior, next, ctx)
    {
      assert subs[..i + 1][..i] == subs[..i];
      deps.UpdateDepCounter(subs[i], prior, next);
      events', work', stats' := PushOne(id, subs[i], deps, ctx, events', work', stats');
    }
    assert subs[..|subs|] == subs;
  }

  // ---- one push ----------------------------------------------------------------------------

  /** The counter path: the aggregate of the counters decides, no dependency is read. */
  method StepCounterPath(id: Uid, graph: Graph, deps: DepRegistry, store: ValueStore, ctx: Ctx, stats: Stats)
    returns (val: Option<T>, events: seq<PropEvent>, work: seq<WorkItem>, stats': Stats)
    requires WorldOf(graph, deps, store).Wf() && id in graph.nodes && graph.nodes[id].kind.Computed?
    requires FastPath(WorldOf(graph, deps, store), id)
    modifies graph`nodes, deps, store
    ensures Outcome(WorldOf(graph, deps, store), val, events, work, stats')
         == StepFast(old(WorldOf(graph, deps, store)), id, ctx, stats)
  {
    hide BumpAndPush, PushSubs, BumpAll, Ascending;
    val, events, work, stats' := None, [], [], stats;
    var prior := graph.nodes[id].value;
    var mode := deps.View().ModeOf(id);
    var next := deps.counters[id].Aggregate();
    if next == Neg { return; }
    val := Some(next);
    var subs := Ascending(deps.View().SubsOf(id));
    if next == Zero { events := [BochvarInfected(id, None)]; }
    assert [BochvarInfected(id, None)] + [] == [BochvarInfected(id, None)];
    if next != prior {
      WriteNode(id, next, graph, deps, store);
      assert [] + [ValueChanged(id, prior, next)] == [ValueChanged(id, prior, next)];
      events := events + [ValueChanged(id, prior, next)];
      stats' := stats.(materialized := stats.materialized + 1);
      if next == Pos || mode == Eager {
        events, work, stats' := BumpAndPushLoop(id, subs, prior, next, deps, ctx, events, work, stats');
      } else {
        BumpLoop(subs, deps, prior, next);
      }
    } else if next == Zero && mode == Eager {
      events, work, stats' := PushLoop(id, subs, deps, ctx, events, work, stats');
    }
  }

  /** The dependency values: dense reads when indices are recorded, graph lookups otherwise. */
  method CollectDepVals(id: Uid, graph: Graph, deps: DepRegistry, store: ValueStore) returns (vals: seq<T>)
    requires WorldOf(graph, deps, store).Wf()
    ensures vals == WorldOf(graph, deps, store).DepVals(id)
  {
    var depIndices := deps.View().OrderedIdxOf(id);
    vals := [];
    if depIndices != [] {
      for i := 0 to |depIndices|
        invariant |vals| == i && forall k :: 0 <= k < i ==> vals[k] == store.cache[depIndices[k]]
      {
        assert WorldOf(graph, deps, store).InRange(depIndices);
        vals := vals + [store.cache[depIndices[i]]];
      }
    } else {
      var depIds := deps.View().OrderedDepsOf(id);
      for i := 0 to |depIds|
        invariant |vals| == i && forall k :: 0 <= k < i ==> vals[k] == WorldOf(graph, deps, store).ValueOr(depIds[k])
      {
        vals := vals + [if depIds[i] in graph.nodes then graph.nodes[depIds[i]].value else Neg];
      }
    }
  }

  /** All dependencies Pos: take the rule's value and, if it moved, push it. */
  method StepReady(id: Uid, vals: seq<T>, graph: Graph, deps: DepRegistry, store: ValueStore, ctx: Ctx, stats: Stats)
    returns (val: Option<T>, events: seq<PropEvent>, work: seq<WorkItem>, stats': Stats)
    requires WorldOf(graph, deps, store).Wf() && id in graph.nodes && graph.nodes[id].kind.Computed?
    requires vals == WorldOf(graph, deps, store).DepVals(id) && StateOf(vals) == Ready
    modifies graph`nodes, deps, store
    ensures Outcome(WorldOf(graph, deps, store), val, events, work, stats')
         == StepScan(old(WorldOf(graph, deps, store)), id, ctx, stats)
  {
    events, work, stats' := [], [], stats;
    var prior := graph.nodes[id].value;
    var next := EvalOrNeg(graph.nodes[id].kind.rule, vals);
    val := Some(next);
    if next != prior {
      var subs := Ascending(deps.View().SubsOf(id));
      WriteNode(id, next, graph, deps, store);
      events := [ValueChanged(id, prior, next)];
      stats' := stats.(materialized := stats.materialized + 1);
      events, work, stats' := BumpAndPushLoop(id, subs, prior, next, deps, ctx, events, work, stats');
    }
  }

  /** Some dependency Zero: infect, bump the counters, and act on the node's mode. */
  method StepConflicted(id: Uid, graph: Graph, deps: DepRegistry, store: ValueStore, ctx: Ctx, stats: Stats)
    returns (val: Option<T>, events: seq<PropEvent>, work: seq<WorkItem>, stats': Stats)
    requires WorldOf(graph, deps, store).Wf() && id in graph.nodes && graph.nodes[id].kind.Computed?
    requires StateOf(WorldOf(graph, deps, store).DepVals(id)) == Conflicted
    modifies graph`nodes, deps, store
    ensures Outcome(WorldOf(graph, deps, store), val, events, work, stats')
         == StepScan(old(WorldOf(graph, deps, store)), id, ctx, stats)
  {
    val, events, work, stats' := Some(Zero), [BochvarInfected(id, None)], [], stats;
    var prior := graph.nodes[id].value;
    var subs, mode, depIds := Ascending(deps.View().SubsOf(id)), deps.View().ModeOf(id), deps.View().OrderedDepsOf(id);
    assert events + [] == events;
    if Zero != prior {
      WriteNode(id, Zero, graph, deps, store);
      events := events + [ValueChanged(id, prior, Zero)];
      stats' := stats.(materialized := stats.materialized + 1);
      BumpLoop(subs, deps, prior, Zero);
    }
    match mode {
      case Stabilizing =>
        var region := depIds + [id];
        work := work + [StabilizeItem(region)];
        events := events + [StabilizeQueued(region)];
      case Lazy =>
      case Eager => events, work, stats' := PushLoop(id, subs, deps, ctx, events, work, stats');
    }
  }

  /** `step_push`: the node's value, the events and the work, with the graph, the registry and the
      store moved exactly as the step function says. */
  method StepPushInPlace(id: Uid, graph: Graph, deps: DepRegistry, store: ValueStore, ctx: Ctx, stats: Stats)
    returns (val: Option<T>, events: seq<PropEvent>, work: seq<WorkItem>, stats': Stats)
    requires WorldOf(graph, deps, store).Wf()
    modifies graph`nodes, deps, store
    ensures Outcome(WorldOf(graph, deps, store), val, events, work, stats')
         == StepPush(old(WorldOf(graph, deps, store)), id, ctx, stats)
    ensures WorldOf(graph, deps, store).Wf()
  {
    StepPushWf(WorldOf(graph, deps, store), id, ctx, stats);
    val, events, work, stats' := None, [], [], stats;
    if id !in graph.nodes || graph.nodes[id].kind.Input? { return; }
    var rule, mode, nDeps := graph.nodes[id].kind.rule, deps.View().ModeOf(id), WorldOf(graph, deps, store).DepCount(id);
    if (rule.MeetAllRule? || rule.JoinAnyRule?) && mode != Stabilizing && id in deps.counters {
      if nDeps > 0 && deps.counters[id].Total() == nDeps {
        val, events, work, stats' := StepCounterPath(id, graph, deps, store, ctx, stats);
        return;
      }
    }
    assert !FastPath(WorldOf(graph, deps, store), id);
    var vals := CollectDepVals(id, graph, deps, store);
    var state := PropagationState(vals);
    match state {
      case Pending =>
      case Ready => val, events, work, stats' := StepReady(id, vals, graph, deps, store, ctx, stats);
      case Conflicted => val, events, work, stats' := StepConflicted(id, graph, deps, store, ctx, stats);
    }
  }

  // ---- the work queue -------------------------------------------------------------------------

  class PropEngine {
    var queue: seq<WorkItem>
    var events: seq<PropEvent>
    var stats: Stats
    /** Nodes with an outstanding demand in this drain. */
    var demanded: set<Uid>

    constructor ()
      ensures queue == [] && events == [] && stats == NO_STATS && demanded == {}
    {
      queue, events, stats, demanded := [], [], NO_STATS, {};
    }

    method Enqueue(item: WorkItem)
      modifies `queue
      ensures queue == old(queue) + [item]
    {
      queue := queue + [item];
    }

    /** The queue with the substrates it works on. */
    function View(graph: Graph, deps: DepRegistry, store: ValueStore, frontier: nat): Queue
      reads this, graph, deps, store
    {
      Queue(WorldOf(graph, deps, store), queue, events, stats, demanded, frontier)
    }

    /** The demands already queued when a drain starts. */
    method QueuedDemands() returns (n: nat)
      ensures n == CountDemands(queue)
    {
      n := 0;
      for i := 0 to |queue|
        invariant n == CountDemands(queue[..i])
      {
        assert queue[..i + 1][..i] == queue[..i];
        if queue[i].DemandItem? { n := n + 1; }
      }
      assert queue[..|queue|] == queue;
    }

    /** `step_demand`: demand every Neg dependency first, then push the node. */
    method StepDemand(id: Uid, graph: Graph, deps: DepRegistry, store: ValueStore) returns (below: seq<Uid>, work: seq<WorkItem>)
      ensures below == PendingDeps(WorldOf(graph, deps, store), Ascending(deps.View().DepsOf(id)))
      ensures work == Demands(below) + [Push(id)]
    {
      var depIds := Ascending(deps.View().DepsOf(id));
      below, work := [], [];
      for i := 0 to |depIds|
        invariant below == PendingDeps(WorldOf(graph, deps, store), depIds[..i]) && work == Demands(below)
      {
        assert depIds[..i + 1][..i] == depIds[..i];
        var depVal := if depIds[i] in graph.nodes then graph.nodes[depIds[i]].value else Neg;
        assert below + [] == below;
        if depVal == Neg { below, work := below + [depIds[i]], work + [DemandItem(depIds[i])]; }
      }
      assert depIds[..|depIds|] == depIds;
      work := work + [Push(id)];
    }

    /** Queue the work of a demand: sub-demands to the front, one by one, the push to the back. */
    method QueueDemandWork(id: Uid, below: seq<Uid>, work: seq<WorkItem>, left: nat) returns (frontier: nat)
      requires work == Demands(below) + [Push(id)]
      modifies `queue, `stats
      ensures queue == Reversed(Demands(below)) + old(queue) + [Push(id)] && frontier == left + |below|
      ensures stats == old(stats).(maxFrontier := if below == [] then old(stats).maxFrontier
                                                  else Larger(old(stats).maxFrontier, left + |below|))
    {
      frontier := left;
      for i := 0 to |below|
        invariant frontier == left + i
        invariant queue == Reversed(Demands(below[..i])) + old(queue)
        invariant stats == old(stats).(maxFrontier := if i == 0 then old(stats).maxFrontier
                                                      else Larger(old(stats).maxFrontier, left + i))
      {
        frontier := frontier + 1;
        if frontier > stats.maxFrontier { stats := stats.(maxFrontier := frontier); }
        assert Reversed(Demands(below[..i + 1])) == [work[i]] + Reversed(Demands(below[..i]));
        queue := [work[i]] + queue;
      }
      assert below[..|below|] == below;
      queue := queue + [work[|below|]];
    }

    /** The front item is a push. */
    method DrainPush(id: Uid, graph: Graph, deps: DepRegistry, store: ValueStore, now: ProductTime,
                     auth: map<(Uid, Uid), Verdict>, handled: seq<Word>, ghost frontier: nat)
      requires WorldOf(graph, deps, store).Wf() && queue != [] && queue[0] == Push(id)
      modifies this, graph`nodes, deps, store
      ensures View(graph, deps, store, frontier) == DrainStep(old(View(graph, deps, store, frontier)), now, auth, handled)
      ensures WorldOf(graph, deps, store).Wf()
    {
      var depth := |queue|;
      queue := queue[1..];
      if depth > stats.maxDepth { stats := stats.(maxDepth := depth); }
      if Handled(WorldOf(graph, deps, store), handled, id) {
        stats := stats.(byHandled := stats.byHandled + 1);
      } else {
        var _, evs, work, stats' := StepPushInPlace(id, graph, deps, store, Ctx(now, auth, demanded), stats);
        events, queue, stats := events + evs, queue + work, stats';
      }
    }

    /** The front item is a demand. */
    method DrainDemand(id: Uid, graph: Graph, deps: DepRegistry, store: ValueStore, frontier: nat)
      returns (frontier': nat)
      requires queue != []
      modifies this
      ensures View(graph, deps, store, frontier') == TakeDemand(old(View(graph, deps, store, frontier)), id)
    {
      hide PendingDeps, Demands, Reversed, Ascending;
      var depth := |queue|;
      queue := queue[1..];
      if depth > stats.maxDepth { stats := stats.(maxDepth := depth); }
      var left := if frontier > 0 then frontier - 1 else 0;
      stats := stats.(demandsFired := stats.demandsFired + 1);
      demanded := demanded + {id};
      var below, work := StepDemand(id, graph, deps, store);
      events := events + [DemandFired(id)];
      frontier' := QueueDemandWork(id, below, work, left);
    }

    /** Take the front item and run its step. */
    method DrainOne(graph: Graph, deps: DepRegistry, store: ValueStore, now: ProductTime,
                    auth: map<(Uid, Uid), Verdict>, handled: seq<Word>, frontier: nat)
      returns (frontier': nat)
      requires WorldOf(graph, deps, store).Wf() && queue != []
      modifies this, graph`nodes, deps, store
      ensures View(graph, deps, store, frontier') == DrainStep(old(View(graph, deps, store, frontier)), now, auth, handled)
      ensures WorldOf(graph, deps, store).Wf()
    {
      frontier' := frontier;
      match queue[0] {
        case Push(id) => DrainPush(id, graph, deps, store, now, auth, handled, frontier);
        case DemandItem(id) => frontier' := DrainDemand(id, graph, deps, store, frontier);
        case StabilizeItem(region) =>
          var depth := |queue|;
          queue := queue[1..];
          if depth > stats.maxDepth { stats := stats.(maxDepth := depth); }
          stats := stats.(stabilizeTotal := stats.stabilizeTotal + |region|);
          events := events + [StabilizeQueued(region)];
      }
    }

    /** `drain`: false when the step limit is exceeded, losing the item just taken. */
    method Drain(graph: Graph, deps: DepRegistry, store: ValueStore, now: ProductTime,
                 auth: map<(Uid, Uid), Verdict>, handled: seq<Word>, maxSteps: nat)
      returns (ok: bool, ghost frontier: nat)
      requires WorldOf(graph, deps, store).Wf()
      modifies this, graph`nodes, deps, store
      ensures WorldOf(graph, deps, store).Wf()
      ensures var q := TakenOver(old(WorldOf(graph, deps, store)), old(queue), old(events), old(stats), old(demanded));
        var d := Draining.Drain(q, now, auth, handled, maxSteps);
        ok == d.Idle? && View(graph, deps, store, frontier) == d.q
    {
      hide DrainStep, Draining.Drain;
      var left: nat := QueuedDemands();
      if left > stats.maxFrontier { stats := stats.(maxFrontier := left); }
      ghost var d := Draining.Drain(View(graph, deps, store, left), now, auth, handled, maxSteps);
      var steps: nat := 0;
      while queue != []
        invariant steps <= maxSteps && WorldOf(graph, deps, store).Wf()
        invariant Draining.Drain(View(graph, deps, store, left), now, auth, handled, maxSteps - steps) == d
        decreases maxSteps - steps
      {
        if steps >= maxSteps {
          Draining.DrainOver(View(graph, deps, store, left), now, auth, handled, 0);
          queue := queue[1..];
          return false, left;
        }
        ghost var q := View(graph, deps, store, left);
        left := DrainOne(graph, deps, store, now, auth, handled, left);
        Draining.DrainNext(q, View(graph, deps, store, left), now, auth, handled, maxSteps - steps);
        steps := steps + 1;
      }
      Draining.DrainOver(View(graph, deps, store, left), now, auth, handled, maxSteps - steps);
      demanded := {};
      ok, frontier := true, left;
    }
  }
}
