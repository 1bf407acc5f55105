/** Topology gossip over delayed messages: the cluster as a transition system. */
module Gossip {
  import opened Base

  type Shard = nat

  datatype Pressure = Pressure(queueDepth: nat, budgetConsumed: nat, cursorCount: nat)

  const HEALTHY := Pressure(0, 0, 0)
  const NEGATIVE := Pressure(0, 0, 1)

  const CONGESTED_QUEUE_DEPTH := 500
  const HOT_CURSOR_COUNT := 1

  const HEALTH_POS := 1
  const HEALTH_ZERO := 0
  const HEALTH_NEG := -1

  function HealthFromPressure(p: Pressure): int {
    if p.cursorCount >= HOT_CURSOR_COUNT then HEALTH_NEG
    else if p.queueDepth >= CONGESTED_QUEUE_DEPTH then HEALTH_ZERO
    else HEALTH_POS
  }

  /** The health in numbers: -1 with a parked cursor, 0 with none and a queue of 500 or more, 1 otherwise. */
  predicate HealthIs(h: int, p: Pressure) {
    && (h == -1 <==> p.cursorCount >= 1)
    && (h == 0 <==> p.cursorCount == 0 && p.queueDepth >= 500)
    && (h == 1 <==> p.cursorCount == 0 && p.queueDepth < 500)
  }

  lemma PressureDecides(p: Pressure)
    ensures HealthIs(HealthFromPressure(p), p)
  {}

  /** More pressure never raises the health. */
  lemma PressureLowers(p: Pressure, more: Pressure)
    requires p.queueDepth <= more.queueDepth && p.cursorCount <= more.cursorCount
    ensures HealthFromPressure(more) <= HealthFromPressure(p)
  {
    PressureDecides(p);
    PressureDecides(more);
    assert HealthFromPressure(p) in {-1, 0, 1} && HealthFromPressure(more) in {-1, 0, 1};
  }

  /** What a shard records of another. */
  datatype TopologyNode = TopologyNode(health: int, queueDepth: nat, cursorCount: nat, budgetConsumed: nat)

  function NodeFrom(p: Pressure): TopologyNode { TopologyNode(HealthFromPressure(p), p.queueDepth, p.cursorCount, p.budgetConsumed) }

  /** One shard's view: the pressures it was told and the topology nodes made from them. */
  datatype Runtime = Runtime(pressure: map<Shard, Pressure>, topology: map<Shard, TopologyNode>) {
    function UpdatePressure(shard: Shard, p: Pressure): Runtime {
      Runtime(pressure[shard := p], topology[shard := NodeFrom(p)])
    }

    function Health(shard: Shard): int { if shard in topology then topology[shard].health else HEALTH_NEG }
  }

  datatype Lifecycle = Alive | Crashed | Recovering

  datatype Message = Message(src: Shard, dst: Shard, pressure: Pressure, deliverAt: nat)

  /** Drop rate, delay bound, and the pairs that lose every message, smaller shard first. */
  datatype Faults = Faults(dropRate: real, maxDelay: nat, partitioned: set<(Shard, Shard)>) {
    predicate IsPartitioned(a: Shard, b: Shard) { Pair(a, b) in partitioned }

    /** The delay made of one random draw. */
    function Delay(draw: nat): nat { if maxDelay == 0 then 1 else 1 + draw % maxDelay }

    function LongestDelay(): nat { if maxDelay == 0 then 1 else maxDelay }
  }

  function Pair(a: Shard, b: Shard): (Shard, Shard) { if a <= b then (a, b) else (b, a) }

  datatype Cluster = Cluster(shards: map<Shard, Runtime>, lifecycle: map<Shard, Lifecycle>, pending: seq<Message>, faults: Faults,
                             epoch: nat, tick: nat)
  {
    predicate IsAlive(s: Shard) { s in shards && s in lifecycle && lifecycle[s] == Alive }

    /** The health of target as the observer sees it. */
    function HealthAsSeenBy(observer: Shard, target: Shard): int
      requires observer in shards
    {
      shards[observer].Health(target)
    }

    function Updated(observer: Shard, target: Shard, p: Pressure): Cluster {
      if observer in shards then this.(shards := shards[observer := shards[observer].UpdatePressure(target, p)]) else this
    }
  }

  // ---- delivery ------------------------------------------------------------------------------

  /** The messages that are due, in queue order. */
  function Due(pending: seq<Message>, tick: nat): seq<Message> {
    if pending == [] then []
    else
      var last := pending[|pending| - 1];
      Due(pending[..|pending| - 1], tick) + (if last.deliverAt <= tick then [last] else [])
  }

  function NotDue(pending: seq<Message>, tick: nat): seq<Message> {
    if pending == [] then []
    else
      var last := pending[|pending| - 1];
      NotDue(pending[..|pending| - 1], tick) + (if last.deliverAt <= tick then [] else [last])
  }

  function Deliver(c: Cluster, m: Message): Cluster { c.Updated(m.dst, m.src, m.pressure) }

  function DeliverAll(c: Cluster, due: seq<Message>): Cluster {
    if due == [] then c else Deliver(DeliverAll(c, due[..|due| - 1]), due[|due| - 1])
  }

  // ---- sending ----------------------------------------------------------------------------------

  /** What the random numbers decide about one message: the drop lot and the delay draw. */
  datatype Lot = Lot(chance: real, draw: nat)

  type Lots = map<(Shard, Shard), Lot>

  function LotOf(lots: Lots, src: Shard, dst: Shard): Lot { if (src, dst) in lots then lots[(src, dst)] else Lot(0.0, 0) }

  /** src's message to dst, unless it is its own, partitioned or dropped. */
  function Send(c: Cluster, lots: Lots, src: Shard, dst: Shard, p: Pressure): Cluster {
    var lot := LotOf(lots, src, dst);
    if dst == src || c.faults.IsPartitioned(src, dst) || (c.faults.dropRate > 0.0 && lot.chance < c.faults.dropRate) then c
    else c.(pending := c.pending + [Message(src, dst, p, c.tick + c.faults.Delay(lot.draw))])
  }

  function SendTo(c: Cluster, lots: Lots, src: Shard, dsts: seq<Shard>, p: Pressure): Cluster {
    if dsts == [] then c else Send(SendTo(c, lots, src, dsts[..|dsts| - 1], p), lots, src, dsts[|dsts| - 1], p)
  }

  /** src gossips its own pressure, when it has one. */
  function GossipFrom(c: Cluster, lots: Lots, src: Shard, dsts: seq<Shard>): Cluster {
    if src in c.shards && src in c.shards[src].pressure then SendTo(c, lots, src, dsts, c.shards[src].pressure[src]) else c
  }

  function GossipAll(c: Cluster, lots: Lots, srcs: seq<Shard>, dsts: seq<Shard>): Cluster {
    if srcs == [] then c else GossipFrom(GossipAll(c, lots, srcs[..|srcs| - 1], dsts), lots, srcs[|srcs| - 1], dsts)
  }

  // ---- steps ---------------------------------------------------------------------------------------

  /** `tick_once`: deliver what is due, then gossip between the alive shards in some order. */
  function TickOnce(c: Cluster, order: seq<Shard>, lots: Lots): Cluster {
    var c1 := c.(tick := c.tick + 1, epoch := c.epoch + 1);
    var c2 := DeliverAll(c1.(pending := NotDue(c1.pending, c1.tick)), Due(c1.pending, c1.tick));
    GossipAll(c2, lots, order, order)
  }

  /** The order lists exactly the alive shards. */
  ghost predicate ListsAlive(c: Cluster, order: seq<Shard>) { forall s :: s in order <==> c.IsAlive(s) }

  /** Record a pressure of target in every listed view. */
  function UpdateAll(c: Cluster, observers: seq<Shard>, target: Shard, p: Pressure): Cluster {
    if observers == [] then c else UpdateAll(c, observers[..|observers| - 1], target, p).Updated(observers[|observers| - 1], target, p)
  }

  function InjectNeg(c: Cluster, s: Shard): Cluster { UpdateAll(c, Ascending(c.shards.Keys), s, NEGATIVE) }

  function CrashShard(c: Cluster, s: Shard): Cluster { InjectNeg(c.(lifecycle := c.lifecycle[s := Crashed]), s) }

  function HealShard(c: Cluster, s: Shard): Cluster {
    UpdateAll(c.(lifecycle := c.lifecycle[s := Alive]), Ascending(c.shards.Keys), s, HEALTHY)
  }

  /** What can happen to a cluster: a tick with its order and lots, a fault, or a shard measuring its
      own pressure. */
  datatype Action =
    | Tick(order: seq<Shard>, lots: Lots)
    | Crash(shard: Shard)
    | Heal(shard: Shard)
    | Inject(shard: Shard)
    | AddPartition(a: Shard, b: Shard)
    | RemovePartition(a: Shard, b: Shard)
    | SetDropRate(rate: real)
    | Measure(shard: Shard, p: Pressure)

  function Act(c: Cluster, a: Action): Cluster {
    match a
    case Tick(order, lots) => TickOnce(c, order, lots)
    case Crash(s) => CrashShard(c, s)
    case Heal(s) => HealShard(c, s)
    case Inject(s) => InjectNeg(c, s)
    case AddPartition(x, y) => c.(faults := c.faults.(partitioned := c.faults.partitioned + {Pair(x, y)}))
    case RemovePartition(x, y) => c.(faults := c.faults.(partitioned := c.faults.partitioned - {Pair(x, y)}))
    case SetDropRate(rate) => c.(faults := c.faults.(dropRate := rate))
    case Measure(s, p) => c.Updated(s, s, p)
  }

  ghost predicate Step(c: Cluster, a: Action, c': Cluster) {
    (a.Tick? ==> ListsAlive(c, a.order)) && c' == Act(c, a)
  }

  ghost predicate Run(states: seq<Cluster>, actions: seq<Action>) {
    |states| == |actions| + 1 && forall i :: 0 <= i < |actions| ==> Step(states[i], actions[i], states[i + 1])
  }

  // ---- what a tick does to the queue ------------------------------------------------------------------

  lemma {:induction false} DueSplit(pending: seq<Message>, tick: nat)
    ensures forall m :: m in Due(pending, tick) <==> m in pending && m.deliverAt <= tick
    ensures forall m :: m in NotDue(pending, tick) <==> m in pending && m.deliverAt > tick
    decreases |pending|
  {
    if pending != [] {
      DueSplit(pending[..|pending| - 1], tick);
      assert pending == pending[..|pending| - 1] + [pending[|pending| - 1]];
    }
  }

  /** Delivery writes views only. */
  lemma {:induction false} DeliverFrame(c: Cluster, due: seq<Message>)
    ensures var out := DeliverAll(c, due); out == c.(shards := out.shards) && out.shards.Keys == c.shards.Keys
    decreases |due|
  {
    if due != [] { DeliverFrame(c, due[..|due| - 1]); }
  }

  /** What a shard knows of another is as before. */
  ghost predicate SameView(r: Runtime, r0: Runtime, src: Shard) {
    && (src in r.topology <==> src in r0.topology) && (src in r0.topology ==> r.topology[src] == r0.topology[src])
    && (src in r.pressure <==> src in r0.pressure) && (src in r0.pressure ==> r.pressure[src] == r0.pressure[src])
  }

  /** What a shard knows of another is this pressure. */
  ghost predicate Sees(r: Runtime, src: Shard, p: Pressure) {
    src in r.topology && r.topology[src] == NodeFrom(p) && src in r.pressure && r.pressure[src] == p
  }

  lemma DeliverOne(c: Cluster, m: Message, src: Shard, obs: Shard)
    requires obs in c.shards
    ensures obs in Deliver(c, m).shards
    ensures var r, r0 := Deliver(c, m).shards[obs], c.shards[obs];
      if m.src == src && m.dst == obs then Sees(r, src, m.pressure) else SameView(r, r0, src)
  {}

  /** obs's view of src after delivery: as before, unless some delivered message replaced it. */
  lemma {:induction false} DeliverView(c: Cluster, due: seq<Message>, src: Shard, obs: Shard, p: Pressure)
    requires obs in c.shards
    requires forall m :: m in due && m.src == src && m.dst == obs ==> m.pressure == p
    ensures obs in DeliverAll(c, due).shards
    ensures var r, r0 := DeliverAll(c, due).shards[obs], c.shards[obs];
      if exists m :: m in due && m.src == src && m.dst == obs then Sees(r, src, p) else SameView(r, r0, src)
    decreases |due|
  {
    if due != [] {
      var front, last := due[..|due| - 1], due[|due| - 1];
      assert due == front + [last];
      assert forall m :: m in due <==> m in front || m == last;
      DeliverView(c, front, src, obs, p);
      DeliverOne(DeliverAll(c, front), last, src, obs);
      hide Deliver;
    }
  }

  /** Sending appends messages and changes nothing else. */
  ghost predicate Sent(c: Cluster, out: Cluster) {
    && out == c.(pending := out.pending)
    && (forall m :: m in c.pending ==> m in out.pending)
    && forall m :: m in out.pending ==> m in c.pending || Fresh(c, m)
  }

  /** A message sent in this tick. */
  ghost predicate Fresh(c: Cluster, m: Message) {
    && m.src != m.dst && c.tick < m.deliverAt <= c.tick + c.faults.LongestDelay()
    && m.src in c.shards && m.src in c.shards[m.src].pressure && m.pressure == c.shards[m.src].pressure[m.src]
  }

  lemma SentTransitive(a: Cluster, b: Cluster, c: Cluster)
    requires Sent(a, b) && Sent(b, c)
    ensures Sent(a, c)
  {
    forall m | m in c.pending ensures m in a.pending || Fresh(a, m) { assert m in b.pending || Fresh(b, m); }
  }

  lemma SendSent(c: Cluster, lots: Lots, src: Shard, dst: Shard, p: Pressure)
    requires src in c.shards && src in c.shards[src].pressure && p == c.shards[src].pressure[src]
    ensures Sent(c, Send(c, lots, src, dst, p))
  {}

  lemma {:induction false} SendToSent(c: Cluster, lots: Lots, src: Shard, dsts: seq<Shard>, p: Pressure)
    requires src in c.shards && src in c.shards[src].pressure && p == c.shards[src].pressure[src]
    ensures Sent(c, SendTo(c, lots, src, dsts, p))
    decreases |dsts|
  {
    if dsts != [] {
      var before := SendTo(c, lots, src, dsts[..|dsts| - 1], p);
      SendToSent(c, lots, src, dsts[..|dsts| - 1], p);
      SendSent(before, lots, src, dsts[|dsts| - 1], p);
      SentTransitive(c, before, Send(before, lots, src, dsts[|dsts| - 1], p));
    }
  }

  lemma {:induction false} GossipSent(c: Cluster, lots: Lots, srcs: seq<Shard>, dsts: seq<Shard>)
    ensures Sent(c, GossipAll(c, lots, srcs, dsts))
    decreases |srcs|
  {
    if srcs != [] {
      var before, src := GossipAll(c, lots, srcs[..|srcs| - 1], dsts), srcs[|srcs| - 1];
      GossipSent(c, lots, srcs[..|srcs| - 1], dsts);
      if src in before.shards && src in before.shards[src].pressure {
        SendToSent(before, lots, src, dsts, before.shards[src].pressure[src]);
      }
      SentTransitive(c, before, GossipFrom(before, lots, src, dsts));
    }
  }

  /** A pending message from src to obs that carries p, due within the longest delay. */
  ghost predicate OnItsWay(c: Cluster, src: Shard, obs: Shard, p: Pressure, latest: nat) {
    exists m :: m in c.pending && m.src == src && m.dst == obs && m.pressure == p && m.deliverAt <= latest
  }

  lemma {:induction false} SendToReaches(c: Cluster, lots: Lots, src: Shard, dsts: seq<Shard>, p: Pressure, obs: Shard)
    requires obs in dsts && obs != src && !c.faults.IsPartitioned(src, obs) && c.faults.dropRate <= 0.0
    requires src in c.shards && src in c.shards[src].pressure && p == c.shards[src].pressure[src]
    ensures OnItsWay(SendTo(c, lots, src, dsts, p), src, obs, p, c.tick + c.faults.LongestDelay())
    decreases |dsts|
  {
    var front, last := dsts[..|dsts| - 1], dsts[|dsts| - 1];
    var before := SendTo(c, lots, src, front, p);
    SendToSent(c, lots, src, front, p);
    assert dsts == front + [last];
    if last == obs {
      var m := Message(src, obs, p, before.tick + before.faults.Delay(LotOf(lots, src, obs).draw));
      assert Send(before, lots, src, obs, p).pending == before.pending + [m];
      assert m in Send(before, lots, src, obs, p).pending;
    } else {
      SendToReaches(c, lots, src, front, p, obs);
      SendSent(before, lots, src, last, p);
      StaysOnItsWay(before, Send(before, lots, src, last, p), src, obs, p, c.tick + c.faults.LongestDelay());
    }
  }

  lemma StaysOnItsWay(c: Cluster, out: Cluster, src: Shard, obs: Shard, p: Pressure, latest: nat)
    requires Sent(c, out) && OnItsWay(c, src, obs, p, latest)
    ensures OnItsWay(out, src, obs, p, latest)
  {
    var m :| m in c.pending && m.src == src && m.dst == obs && m.pressure == p && m.deliverAt <= latest;
    assert m in out.pending;
  }

  lemma {:induction false} GossipReaches(c: Cluster, lots: Lots, srcs: seq<Shard>, dsts: seq<Shard>, src: Shard, obs: Shard, p: Pressure)
    requires src in srcs && obs in dsts && obs != src && !c.faults.IsPartitioned(src, obs) && c.faults.dropRate <= 0.0
    requires src in c.shards && src in c.shards[src].pressure && p == c.shards[src].pressure[src]
    ensures OnItsWay(GossipAll(c, lots, srcs, dsts), src, obs, p, c.tick + c.faults.LongestDelay())
    decreases |srcs|
  {
    var front, last := srcs[..|srcs| - 1], srcs[|srcs| - 1];
    var before := GossipAll(c, lots, front, dsts);
    GossipSent(c, lots, front, dsts);
    assert srcs == front + [last];
    if last == src {
      SendToReaches(before, lots, src, dsts, p, obs);
    } else {
      GossipReaches(c, lots, front, dsts, src, obs, p);
      GossipSent(before, lots, [last], dsts);
      assert GossipAll(before, lots, [last], dsts) == GossipFrom(before, lots, last, dsts);
      StaysOnItsWay(before, GossipFrom(before, lots, last, dsts), src, obs, p, c.tick + c.faults.LongestDelay());
    }
  }

  // ---- updating views -----------------------------------------------------------------------------------

  lemma {:induction false} UpdateAllView(c: Cluster, observers: seq<Shard>, target: Shard, p: Pressure)
    ensures var out := UpdateAll(c, observers, target, p);
      out == c.(shards := out.shards) && out.shards.Keys == c.shards.Keys
      && forall o :: o in c.shards ==> out.shards[o] == if o in observers then c.shards[o].UpdatePressure(target, p) else c.shards[o]
    decreases |observers|
  {
    if observers != [] {
      var front, last := observers[..|observers| - 1], observers[|observers| - 1];
      assert observers == front + [last];
      assert forall o :: o in observers <==> o in front || o == last;
      UpdateAllView(c, front, target, p);
    }
  }

  /** A crash is seen at once: every shard's view of the crashed one is -1, it is not alive, and no other
      view changes. */
  lemma CrashIsSeen(c: Cluster, s: Shard, obs: Shard, other: Shard)
    requires obs in c.shards
    ensures var c' := CrashShard(c, s);
      && obs in c'.shards && c'.HealthAsSeenBy(obs, s) == -1 && !c'.IsAlive(s)
      && (other != s ==> c'.HealthAsSeenBy(obs, other) == c.HealthAsSeenBy(obs, other) && (c'.IsAlive(other) <==> c.IsAlive(other)))
  {
    AscendingElements(c.shards.Keys);
    UpdateAllView(c.(lifecycle := c.lifecycle[s := Crashed]), Ascending(c.shards.Keys), s, NEGATIVE);
  }

  /** So is a recovery: every view of the healed shard is 1, it is alive, and no other view changes. */
  lemma HealIsSeen(c: Cluster, s: Shard, obs: Shard, other: Shard)
    requires obs in c.shards
    ensures var c' := HealShard(c, s);
      && obs in c'.shards && c'.HealthAsSeenBy(obs, s) == 1 && (c'.IsAlive(s) <==> s in c.shards)
      && (other != s ==> c'.HealthAsSeenBy(obs, other) == c.HealthAsSeenBy(obs, other) && (c'.IsAlive(other) <==> c.IsAlive(other)))
  {
    AscendingElements(c.shards.Keys);
    UpdateAllView(c.(lifecycle := c.lifecycle[s := Alive]), Ascending(c.shards.Keys), s, HEALTHY);
  }
}
