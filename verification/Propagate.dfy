/** The propagation step and the work queue, as functions of the state they update. */
module Propagation {
  import opened Base
  import opened Ternary
  import opened Rules
  import opened Time
  import opened Isa
  import opened Bits
  import opened ValueStores
  import opened Deps

  /** A node's persistent kind and its versioned value. */
  datatype Node = Node(kind: NodeKind, value: T, version: nat) {
    /** The version moves only when the value does. */
    function SetValue(v: T): Node { if v != value then this.(value := v, version := version + 1) else this }
  }

  /** The parts of a structural edge that the engine reads. */
  datatype Edge = Edge(src: Uid, tgt: Uid, remote: bool)

  datatype WorkItem = Push(id: Uid) | DemandItem(id: Uid) | StabilizeItem(region: seq<Uid>)

  datatype PropEvent =
    | ValueChanged(node: Uid, prior: T, next: T)
    | BochvarInfected(node: Uid, kind: Option<ZeroKind>)
    | DemandFired(node: Uid)
    | StabilizeQueued(region: seq<Uid>)
    | AuthViolation(src: Uid, tgt: Uid)

  datatype Stats = Stats(materialized: nat, byMode: nat, byDelta: nat, demandsFired: nat, maxDepth: nat,
                         maxFrontier: nat, stabilizeTotal: nat, byHandled: nat)

  const NO_STATS := Stats(0, 0, 0, 0, 0, 0, 0, 0)

  /** What the authority gate says of a (source, target) pair; pairs not listed are allowed. */
  datatype Verdict = Allow | AllowLogged | Deny

  /** What a step reads besides the world: the clock, the authority verdicts, the open demands. */
  datatype Ctx = Ctx(now: ProductTime, auth: map<(Uid, Uid), Verdict>, demanded: set<Uid>) {
    function VerdictOf(src: Uid, sub: Uid): Verdict { if (src, sub) in auth then auth[(src, sub)] else Allow }
  }

  /** The substrates a step writes. */
  datatype World = World(nodes: map<Uid, Node>, reg: Registry, store: Store) {

    /** The store is valid and every recorded dense index has a slot. */
    ghost predicate Wf() {
      && store.Valid()
      && forall n :: n in reg.orderedIdx ==> InRange(reg.orderedIdx[n])
    }

    ghost predicate InRange(idx: seq<nat>) {
      forall k :: 0 <= k < |idx| ==> idx[k] < |store.cache|
    }

    function ValueOr(n: Uid): T { if n in nodes then nodes[n].value else Neg }

    /** Write a value to the graph and mirror it in the store. */
    function Put(n: Uid, v: T): World
      requires Wf() && n in nodes
    {
      this.(nodes := nodes[n := nodes[n].SetValue(v)], store := store.Set(n, v))
    }

    /** Dependency values: from the dense indices when there are any, from the graph otherwise. */
    function DepVals(n: Uid): seq<T>
      requires Wf()
    {
      var idx := reg.OrderedIdxOf(n);
      var ids := reg.OrderedDepsOf(n);
      if idx != [] then Gather(store.cache, idx) else seq(|ids|, k requires 0 <= k < |ids| => ValueOr(ids[k]))
    }

    function DepCount(n: Uid): nat {
      var idx := reg.OrderedIdxOf(n);
      if idx != [] then |idx| else |reg.OrderedDepsOf(n)|
    }
  }

  lemma PutWf(w: World, n: Uid, v: T)
    requires w.Wf() && n in w.nodes
    ensures w.Put(n, v).Wf()
  {
    SetValid(w.store, n, v);
  }

  // ---- pushing to subscribers ----------------------------------------------------------

  /** What the subscriber loop updates. */
  datatype Acc = Acc(reg: Registry, events: seq<PropEvent>, work: seq<WorkItem>, stats: Stats)

  /** One subscriber: delta gate, mode gate, authority gate, then enqueue and stamp the pair. */
  function PushSub(a: Acc, n: Uid, sub: Uid, ctx: Ctx): Acc {
    if !a.reg.Open(n, sub, ctx.now) then a.(stats := a.stats.(byDelta := a.stats.byDelta + 1))
    else if a.reg.ModeOf(sub) != Eager && sub !in ctx.demanded then a.(stats := a.stats.(byMode := a.stats.byMode + 1))
    else
      match ctx.VerdictOf(n, sub)
      case Deny => a
      case Allow => a.(work := a.work + [Push(sub)], reg := a.reg.UpdateLastSeen(n, sub, ctx.now))
      case AllowLogged => a.(events := a.events + [AuthViolation(n, sub)],
                             work := a.work + [Push(sub)], reg := a.reg.UpdateLastSeen(n, sub, ctx.now))
  }

  function PushSubs(a: Acc, n: Uid, subs: seq<Uid>, ctx: Ctx): Acc {
    if subs == [] then a
    else PushSub(PushSubs(a, n, subs[..|subs| - 1], ctx), n, subs[|subs| - 1], ctx)
  }

  /** Record a value transition in every subscriber's counters. */
  function BumpAll(reg: Registry, subs: seq<Uid>, prior: T, next: T): Registry {
    if subs == [] then reg
    else BumpAll(reg, subs[..|subs| - 1], prior, next).UpdateCounter(subs[|subs| - 1], prior, next)
  }

  /** The interleaved loop: bump a subscriber's counters, then try to push to it. */
  function BumpAndPush(a: Acc, n: Uid, subs: seq<Uid>, prior: T, next: T, ctx: Ctx): Acc {
    if subs == [] then a
    else
      var before := BumpAndPush(a, n, subs[..|subs| - 1], prior, next, ctx);
      var sub := subs[|subs| - 1];
      PushSub(before.(reg := before.reg.UpdateCounter(sub, prior, next)), n, sub, ctx)
  }

  // ---- one push ---------------------------------------------------------------------------

  datatype Outcome = Outcome(world: World, val: Option<T>, events: seq<PropEvent>, work: seq<WorkItem>, stats: Stats)

  function Nothing(w: World, stats: Stats): Outcome { Outcome(w, None, [], [], stats) }

  /** The counter shortcut applies: an aggregate rule, not Stabilizing, and counters that cover
      as many dependencies as the node has. */
  predicate FastPath(w: World, n: Uid)
    requires n in w.nodes && w.nodes[n].kind.Computed?
  {
    && (w.nodes[n].kind.rule.MeetAllRule? || w.nodes[n].kind.rule.JoinAnyRule?)
    && w.reg.ModeOf(n) != Stabilizing
    && n in w.reg.counters
    && w.DepCount(n) > 0
    && w.reg.counters[n].Total() == w.DepCount(n)
  }

  /** The counter path: the aggregate of the counters decides, no dependency is read. */
  function StepFast(w: World, n: Uid, ctx: Ctx, stats: Stats): Outcome
    requires w.Wf() && n in w.nodes && w.nodes[n].kind.Computed? && FastPath(w, n)
  {
    var next := w.reg.counters[n].Aggregate();
    var prior := w.nodes[n].value;
    var subs := Ascending(w.reg.SubsOf(n));
    if next == Neg then Nothing(w, stats)
    else if next == Zero then
      var changed := next != prior;
      var w1 := if changed then w.Put(n, next) else w;
      var a := Acc(w1.reg,
                   [BochvarInfected(n, None)] + (if changed then [ValueChanged(n, prior, next)] else []), [],
                   if changed then stats.(materialized := stats.materialized + 1) else stats);
      var b := if w.reg.ModeOf(n) == Eager then
                 if changed then BumpAndPush(a, n, subs, prior, next, ctx) else PushSubs(a, n, subs, ctx)
               else if changed then a.(reg := BumpAll(a.reg, subs, prior, next)) else a;
      Outcome(w1.(reg := b.reg), Some(next), b.events, b.work, b.stats)
    else if next == prior then Outcome(w, Some(next), [], [], stats)
    else
      var w1 := w.Put(n, next);
      var a := Acc(w1.reg, [ValueChanged(n, prior, next)], [], stats.(materialized := stats.materialized + 1));
      var b := BumpAndPush(a, n, subs, prior, next, ctx);
      Outcome(w1.(reg := b.reg), Some(next), b.events, b.work, b.stats)
  }

  /** The general path: collect the dependency values and act on their propagation state. */
  function StepScan(w: World, n: Uid, ctx: Ctx, stats: Stats): Outcome
    requires w.Wf() && n in w.nodes && w.nodes[n].kind.Computed?
  {
    var vals := w.DepVals(n);
    var prior := w.nodes[n].value;
    var subs := Ascending(w.reg.SubsOf(n));
    match StateOf(vals)
    case Pending => Nothing(w, stats)
    case Ready =>
      var next := EvalOrNeg(w.nodes[n].kind.rule, vals);
      if next == prior then Outcome(w, Some(next), [], [], stats)
      else
        var w1 := w.Put(n, next);
        var a := Acc(w1.reg, [ValueChanged(n, prior, next)], [], stats.(materialized := stats.materialized + 1));
        var b := BumpAndPush(a, n, subs, prior, next, ctx);
        Outcome(w1.(reg := b.reg), Some(next), b.events, b.work, b.stats)
    case Conflicted =>
      var changed := Zero != prior;
      var w1 := if changed then w.Put(n, Zero) else w;
      var a := Acc(if changed then BumpAll(w1.reg, subs, prior, Zero) else w1.reg,
                   [BochvarInfected(n, None)] + (if changed then [ValueChanged(n, prior, Zero)] else []), [],
                   if changed then stats.(materialized := stats.materialized + 1) else stats);
      var b := match w.reg.ModeOf(n)
               case Eager => PushSubs(a, n, subs, ctx)
               case Lazy => a
               case Stabilizing =>
                 var region := w.reg.OrderedDepsOf(n) + [n];
                 a.(work := a.work + [StabilizeItem(region)], events := a.events + [StabilizeQueued(region)]);
      Outcome(w1.(reg := b.reg), Some(Zero), b.events, b.work, b.stats)
  }

  function StepPush(w: World, n: Uid, ctx: Ctx, stats: Stats): Outcome
    requires w.Wf()
  {
    if n !in w.nodes || w.nodes[n].kind.Input? then Nothing(w, stats)
    else if FastPath(w, n) then StepFast(w, n, ctx, stats)
    else StepScan(w, n, ctx, stats)
  }

  // ---- one demand ---------------------------------------------------------------------------

  /** The dependencies of a demanded node that are still Neg, in ascending order. */
  function PendingDeps(w: World, ids: seq<Uid>): seq<Uid> {
    if ids == [] then []
    else PendingDeps(w, ids[..|ids| - 1]) + (if w.ValueOr(ids[|ids| - 1]) == Neg then [ids[|ids| - 1]] else [])
  }

  function Demands(ids: seq<Uid>): (items: seq<WorkItem>)
    ensures |items| == |ids| && forall i :: 0 <= i < |ids| ==> items[i] == DemandItem(ids[i])
  {
    seq(|ids|, i requires 0 <= i < |ids| => DemandItem(ids[i]))
  }

  function Reversed<A>(q: seq<A>): (r: seq<A>)
    ensures |r| == |q| && forall i :: 0 <= i < |q| ==> r[i] == q[|q| - 1 - i]
  {
    seq(|q|, i requires 0 <= i < |q| => q[|q| - 1 - i])
  }

  // ---- the work queue -------------------------------------------------------------------------

  /** Everything `drain` updates. */
  datatype Queue = Queue(world: World, items: seq<WorkItem>, events: seq<PropEvent>, stats: Stats,
                         demanded: set<Uid>, frontier: nat)

  function CountDemands(items: seq<WorkItem>): nat {
    if items == [] then 0 else CountDemands(items[..|items| - 1]) + (if items[|items| - 1].DemandItem? then 1 else 0)
  }

  /** The queue as `drain` takes it over: the demand frontier starts at the queued demands. */
  function TakenOver(world: World, items: seq<WorkItem>, events: seq<PropEvent>, stats: Stats, demanded: set<Uid>): Queue {
    var frontier := CountDemands(items);
    Queue(world, items, events, stats.(maxFrontier := Larger(stats.maxFrontier, frontier)), demanded, frontier)
  }

  function Larger(a: nat, b: nat): nat { if a >= b then a else b }

  /** The node's slot is marked as evaluated by the compiled tier. */
  predicate Handled(w: World, handled: seq<Word>, n: Uid) {
    n in w.store.idx && Test(handled, w.store.idx[n])
  }

  /** The front item is a demand of id: mark it, demand its Neg dependencies first, push it last. */
  function TakeDemand(q: Queue, id: Uid): Queue
    requires q.items != []
  {
    var below := PendingDeps(q.world, Ascending(q.world.reg.DepsOf(id)));
    var left := if q.frontier > 0 then q.frontier - 1 else 0;
    var s0 := q.stats.(maxDepth := Larger(q.stats.maxDepth, |q.items|));
    var s1 := s0.(demandsFired := s0.demandsFired + 1,
                  maxFrontier := if below == [] then s0.maxFrontier else Larger(s0.maxFrontier, left + |below|));
    Queue(q.world, Reversed(Demands(below)) + q.items[1..] + [Push(id)], q.events + [DemandFired(id)],
          s1, q.demanded + {id}, left + |below|)
  }

  /** Take the front item: run its step and queue the work it produced. Sub-demands go to the
      front one by one, everything else to the back. */
  function DrainStep(q: Queue, now: ProductTime, auth: map<(Uid, Uid), Verdict>, handled: seq<Word>): Queue
    requires q.world.Wf() && q.items != []
  {
    var item, rest := q.items[0], q.items[1..];
    var s0 := q.stats.(maxDepth := Larger(q.stats.maxDepth, |q.items|));
    match item
    case Push(id) =>
      if Handled(q.world, handled, id) then
        q.(items := rest, stats := s0.(byHandled := s0.byHandled + 1))
      else
        var o := StepPush(q.world, id, Ctx(now, auth, q.demanded), s0);
        Queue(o.world, rest + o.work, q.events + o.events, o.stats, q.demanded, q.frontier)
    case DemandItem(id) => TakeDemand(q, id)
    case StabilizeItem(region) =>
      q.(items := rest, stats := s0.(stabilizeTotal := s0.stabilizeTotal + |region|),
         events := q.events + [StabilizeQueued(region)])
  }
}
