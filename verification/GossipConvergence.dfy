/** Gossip converges within twice the longest delay, whatever the delays, and stays converged. */
module GossipConvergence {
  import opened Base
  import opened Gossip

  // ---- every reachable state -----------------------------------------------------------------

  /** No message is to itself, overdue, or further away than the longest delay. */
  ghost predicate Bounded(c: Cluster) {
    forall m :: m in c.pending ==> m.src != m.dst && c.tick < m.deliverAt <= c.tick + c.faults.LongestDelay()
  }

  /** `SimCluster::new`: n alive shards that all see each other healthy. */
  function NewCluster(n: nat, maxDelay: nat): Cluster {
    var view := Runtime(ForAll(n, HEALTHY), ForAll(n, NodeFrom(HEALTHY)));
    Cluster(ForAll(n, view), ForAll(n, Alive), [], Faults(0.0, maxDelay, {}), 1, 0)
  }

  /** The same value for each of the first n shards. */
  function ForAll<A>(n: nat, v: A): map<Shard, A> { if n == 0 then map[] else ForAll(n - 1, v)[n - 1 := v] }

  /** The state in which a tick gossips: due messages delivered, the others still pending. */
  function Delivered(c: Cluster): Cluster {
    DeliverAll(c.(tick := c.tick + 1, epoch := c.epoch + 1, pending := NotDue(c.pending, c.tick + 1)), Due(c.pending, c.tick + 1))
  }

  lemma DeliveredFrame(c: Cluster)
    ensures var d := Delivered(c);
      && d.lifecycle == c.lifecycle && d.faults == c.faults && d.tick == c.tick + 1 && d.shards.Keys == c.shards.Keys
      && forall m :: m in d.pending <==> m in c.pending && m.deliverAt > c.tick + 1
  {
    DeliverFrame(c.(tick := c.tick + 1, epoch := c.epoch + 1, pending := NotDue(c.pending, c.tick + 1)), Due(c.pending, c.tick + 1));
    DueSplit(c.pending, c.tick + 1);
  }

  lemma TickSends(c: Cluster, order: seq<Shard>, lots: Lots)
    ensures TickOnce(c, order, lots) == GossipAll(Delivered(c), lots, order, order) && Sent(Delivered(c), TickOnce(c, order, lots))
  {
    GossipSent(Delivered(c), lots, order, order);
  }

  /** Anything but a tick leaves the messages, the clock and the delay bound. */
  lemma QuietFrame(c: Cluster, a: Action)
    requires !a.Tick?
    ensures var c' := Act(c, a); c'.pending == c.pending && c'.tick == c.tick && c'.faults.maxDelay == c.faults.maxDelay
  {
    match a {
      case Crash(s) => UpdateAllView(c.(lifecycle := c.lifecycle[s := Crashed]), Ascending(c.shards.Keys), s, NEGATIVE);
      case Heal(s) => UpdateAllView(c.(lifecycle := c.lifecycle[s := Alive]), Ascending(c.shards.Keys), s, HEALTHY);
      case Inject(s) => UpdateAllView(c, Ascending(c.shards.Keys), s, NEGATIVE);
      case _ =>
    }
  }

  lemma TickFrame(c: Cluster, order: seq<Shard>, lots: Lots)
    ensures var c' := TickOnce(c, order, lots);
      c'.tick == c.tick + 1 && c'.faults == c.faults && c'.lifecycle == c.lifecycle && c'.shards == Delivered(c).shards
  {
    DeliveredFrame(c);
    TickSends(c, order, lots);
  }

  lemma StepBounded(c: Cluster, a: Action)
    requires Bounded(c)
    ensures Bounded(Act(c, a)) && Act(c, a).faults.maxDelay == c.faults.maxDelay && Act(c, a).tick >= c.tick
  {
    if a.Tick? {
      DeliveredFrame(c);
      TickSends(c, a.order, a.lots);
      TickFrame(c, a.order, a.lots);
      var d, c' := Delivered(c), TickOnce(c, a.order, a.lots);
      forall m | m in c'.pending ensures m.src != m.dst && c'.tick < m.deliverAt <= c'.tick + c'.faults.LongestDelay() {
        assert m in d.pending || Fresh(d, m);
      }
    } else {
      QuietFrame(c, a);
    }
  }

  /** Every state of every run from a new cluster is bounded. */
  lemma RunsBounded(states: seq<Cluster>, actions: seq<Action>, n: nat, maxDelay: nat)
    requires Run(states, actions) && states[0] == NewCluster(n, maxDelay)
    ensures forall i :: 0 <= i < |states| ==> Bounded(states[i])
  {
    hide Act, Bounded;
    assert Bounded(states[0]) by { NewBounded(n, maxDelay); }
    for k := 0 to |actions|
      invariant forall i :: 0 <= i <= k ==> Bounded(states[i])
    {
      StepBounded(states[k], actions[k]);
    }
  }

  lemma NewBounded(n: nat, maxDelay: nat)
    ensures Bounded(NewCluster(n, maxDelay))
  {}

  // ---- the setting -------------------------------------------------------------------------------

  /** src is alive with own pressure p, obs is alive, and messages between them are neither dropped
      nor partitioned. */
  ghost predicate Steady(c: Cluster, src: Shard, obs: Shard, p: Pressure) {
    && src != obs && c.IsAlive(src) && c.IsAlive(obs)
    && src in c.shards[src].pressure && c.shards[src].pressure[src] == p
    && !c.faults.IsPartitioned(src, obs) && c.faults.dropRate <= 0.0
  }

  ghost predicate Sees(c: Cluster, src: Shard, obs: Shard, p: Pressure) {
    obs in c.shards && src in c.shards[obs].topology && c.shards[obs].topology[src] == NodeFrom(p)
  }

  /** Every pending message from src to obs that carries another pressure arrives within one longest
      delay of t0. */
  ghost predicate StaleSoon(c: Cluster, src: Shard, obs: Shard, p: Pressure, t0: nat) {
    forall m :: m in c.pending && m.src == src && m.dst == obs && m.pressure != p ==> m.deliverAt <= t0 + c.faults.LongestDelay()
  }

  /** What holds on the way: stale messages die out first, and once they have, p is seen already or on
      its way. */
  ghost predicate Converging(c: Cluster, src: Shard, obs: Shard, p: Pressure, t0: nat) {
    var d := c.faults.LongestDelay();
    && Bounded(c) && StaleSoon(c, src, obs, p, t0)
    && (c.tick >= t0 + d ==> OnItsWay(c, src, obs, p, t0 + 2 * d) || Sees(c, src, obs, p))
  }

  // ---- one tick ------------------------------------------------------------------------------------

  lemma TickStale(c: Cluster, order: seq<Shard>, lots: Lots, src: Shard, obs: Shard, p: Pressure, t0: nat)
    requires StaleSoon(c, src, obs, p, t0) && Steady(TickOnce(c, order, lots), src, obs, p)
    ensures StaleSoon(TickOnce(c, order, lots), src, obs, p, t0)
  {
    DeliveredFrame(c);
    TickSends(c, order, lots);
    TickFrame(c, order, lots);
    var d, c' := Delivered(c), TickOnce(c, order, lots);
    forall m | m in c'.pending && m.src == src && m.dst == obs && m.pressure != p ensures m.deliverAt <= t0 + c'.faults.LongestDelay() {
      assert m in d.pending || Fresh(d, m);
    }
  }

  lemma TickReaches(c: Cluster, order: seq<Shard>, lots: Lots, src: Shard, obs: Shard, p: Pressure)
    requires Steady(TickOnce(c, order, lots), src, obs, p) && ListsAlive(c, order)
    ensures OnItsWay(TickOnce(c, order, lots), src, obs, p, c.tick + 1 + c.faults.LongestDelay())
  {
    DeliveredFrame(c);
    TickSends(c, order, lots);
    TickFrame(c, order, lots);
    assert c.IsAlive(src) && c.IsAlive(obs);
    GossipReaches(Delivered(c), lots, order, order, src, obs, p);
  }

  /** Once no stale message is left, delivery either keeps the view or sets it to p. */
  lemma DeliveredSees(c: Cluster, src: Shard, obs: Shard, p: Pressure, latest: nat)
    requires obs in c.shards && forall m :: m in c.pending && m.src == src && m.dst == obs ==> m.pressure == p
    requires OnItsWay(c, src, obs, p, latest) || Sees(c, src, obs, p)
    ensures OnItsWay(Delivered(c), src, obs, p, latest) || Sees(Delivered(c), src, obs, p)
  {
    var t := c.tick + 1;
    var due := Due(c.pending, t);
    var c1 := c.(tick := t, epoch := c.epoch + 1, pending := NotDue(c.pending, t));
    DueSplit(c.pending, t);
    DeliverView(c1, due, src, obs, p);
    hide Due, NotDue, DeliverAll, NodeFrom;
    if !Sees(Delivered(c), src, obs, p) {
      DeliveredFrame(c);
      var m :| m in c.pending && m.src == src && m.dst == obs && m.pressure == p && m.deliverAt <= latest;
      assert m !in due;
      assert m in Delivered(c).pending;
    }
  }

  lemma TickDelivers(c: Cluster, order: seq<Shard>, lots: Lots, src: Shard, obs: Shard, p: Pressure, latest: nat)
    requires obs in c.shards && forall m :: m in c.pending && m.src == src && m.dst == obs ==> m.pressure == p
    requires OnItsWay(c, src, obs, p, latest) || Sees(c, src, obs, p)
    ensures OnItsWay(TickOnce(c, order, lots), src, obs, p, latest) || Sees(TickOnce(c, order, lots), src, obs, p)
  {
    DeliveredSees(c, src, obs, p, latest);
    TickSends(c, order, lots);
    TickFrame(c, order, lots);
    hide TickOnce, Delivered, Sent, OnItsWay;
    if OnItsWay(Delivered(c), src, obs, p, latest) {
      StaysOnItsWay(Delivered(c), TickOnce(c, order, lots), src, obs, p, latest);
    }
  }

  lemma TickConverging(c: Cluster, order: seq<Shard>, lots: Lots, src: Shard, obs: Shard, p: Pressure, t0: nat)
    requires Converging(c, src, obs, p, t0) && ListsAlive(c, order) && c.tick >= t0
    requires Steady(c, src, obs, p) && Steady(TickOnce(c, order, lots), src, obs, p)
    ensures Converging(TickOnce(c, order, lots), src, obs, p, t0)
  {
    var d := c.faults.LongestDelay();
    StepBounded(c, Tick(order, lots));
    TickFrame(c, order, lots);
    TickStale(c, order, lots, src, obs, p, t0);
    if c.tick + 1 == t0 + d {
      TickReaches(c, order, lots, src, obs, p);
    } else if c.tick >= t0 + d {
      TickDelivers(c, order, lots, src, obs, p, t0 + 2 * d);
    }
    hide TickOnce, OnItsWay, Sees, Steady, Bounded;
  }

  // ---- the other steps --------------------------------------------------------------------------------

  /** A fault or a measurement that leaves the setting leaves what obs sees, or sets it to p. */
  lemma QuietSees(c: Cluster, a: Action, src: Shard, obs: Shard, p: Pressure)
    requires !a.Tick? && Sees(c, src, obs, p) && Steady(c, src, obs, p) && Steady(Act(c, a), src, obs, p)
    ensures Sees(Act(c, a), src, obs, p)
  {
    match a {
      case Crash(s) => UpdatedSees(c, c.(lifecycle := c.lifecycle[s := Crashed]), s, NEGATIVE, src, obs, p);
      case Heal(s) => UpdatedSees(c, c.(lifecycle := c.lifecycle[s := Alive]), s, HEALTHY, src, obs, p);
      case Inject(s) => UpdatedSees(c, c, s, NEGATIVE, src, obs, p);
      case _ =>
    }
  }

  lemma UpdatedSees(c: Cluster, c1: Cluster, s: Shard, q: Pressure, src: Shard, obs: Shard, p: Pressure)
    requires Sees(c, src, obs, p) && c1.shards == c.shards && src in c.shards && src != obs
    requires var out := UpdateAll(c1, Ascending(c1.shards.Keys), s, q);
      src in out.shards && src in out.shards[src].pressure && out.shards[src].pressure[src] == p
    ensures Sees(UpdateAll(c1, Ascending(c1.shards.Keys), s, q), src, obs, p)
  {
    UpdateAllView(c1, Ascending(c1.shards.Keys), s, q);
    AscendingElements(c1.shards.Keys);
  }

  lemma QuietConverging(c: Cluster, a: Action, src: Shard, obs: Shard, p: Pressure, t0: nat)
    requires !a.Tick? && Converging(c, src, obs, p, t0) && Steady(c, src, obs, p) && Steady(Act(c, a), src, obs, p)
    ensures Converging(Act(c, a), src, obs, p, t0)
  {
    StepBounded(c, a);
    QuietFrame(c, a);
    if Sees(c, src, obs, p) { QuietSees(c, a, src, obs, p); }
    hide Act, Sees, Steady, Bounded;
  }

  // ---- runs ------------------------------------------------------------------------------------------------

  /** From any reachable state, along any run in which src keeps pressure p and src and obs stay alive
      and connected, every state at least twice the longest delay later shows obs the health of p,
      whatever the delays, the order of gossip, the faults elsewhere and the stale messages. */
  lemma GossipConverges(states: seq<Cluster>, actions: seq<Action>, src: Shard, obs: Shard, p: Pressure)
    requires Run(states, actions) && Bounded(states[0])
    requires forall i :: 0 <= i < |states| ==> Steady(states[i], src, obs, p)
    ensures forall i :: 0 <= i < |states| && states[i].tick >= states[0].tick + 2 * states[0].faults.LongestDelay() ==>
      && obs in states[i].shards && states[i].HealthAsSeenBy(obs, src) == HealthFromPressure(p)
      && HealthIs(states[i].HealthAsSeenBy(obs, src), p)
  {
    PressureDecides(p);
    var t0, d := states[0].tick, states[0].faults.LongestDelay();
    hide Act, Sees, Bounded;
    assert Converging(states[0], src, obs, p, t0) by { StartsConverging(states[0], src, obs, p); }
    hide Steady, Converging;
    for k := 0 to |actions|
      invariant forall i :: 0 <= i <= k ==> Converging(states[i], src, obs, p, t0) && states[i].tick >= t0
      invariant forall i :: 0 <= i <= k ==> states[i].faults.LongestDelay() == d
    {
      ConvergingNext(states[k], actions[k], states[k + 1], src, obs, p, t0);
    }
    forall i | 0 <= i < |states| && states[i].tick >= t0 + 2 * d
      ensures obs in states[i].shards && states[i].HealthAsSeenBy(obs, src) == HealthFromPressure(p)
    {
      Converged(states[i], src, obs, p, t0);
    }
  }

  lemma StartsConverging(c: Cluster, src: Shard, obs: Shard, p: Pressure)
    requires Bounded(c)
    ensures Converging(c, src, obs, p, c.tick)
  {}

  lemma ConvergingNext(c: Cluster, a: Action, c': Cluster, src: Shard, obs: Shard, p: Pressure, t0: nat)
    requires Step(c, a, c') && Converging(c, src, obs, p, t0) && c.tick >= t0 && Steady(c, src, obs, p) && Steady(c', src, obs, p)
    ensures Converging(c', src, obs, p, t0) && c'.tick >= t0 && c'.faults.LongestDelay() == c.faults.LongestDelay()
  {
    StepBounded(c, a);
    if a.Tick? {
      TickConverging(c, a.order, a.lots, src, obs, p, t0);
    } else {
      QuietConverging(c, a, src, obs, p, t0);
    }
    hide TickOnce, Steady, Bounded, OnItsWay, Sees, StaleSoon;
  }

  lemma Converged(c: Cluster, src: Shard, obs: Shard, p: Pressure, t0: nat)
    requires Converging(c, src, obs, p, t0) && c.tick >= t0 + 2 * c.faults.LongestDelay()
    ensures obs in c.shards && c.HealthAsSeenBy(obs, src) == HealthFromPressure(p)
  {
    assert !OnItsWay(c, src, obs, p, t0 + 2 * c.faults.LongestDelay());
  }

  /** Two clusters with different delays, seeds and faults, both steady for long enough, show their
      observers the same health of a shard that has the same pressure in both. */
  lemma DelaysDoNotMatter(states: seq<Cluster>, actions: seq<Action>, states': seq<Cluster>, actions': seq<Action>,
                          src: Shard, obs: Shard, p: Pressure)
    requires Run(states, actions) && Bounded(states[0]) && Run(states', actions') && Bounded(states'[0])
    requires forall i :: 0 <= i < |states| ==> Steady(states[i], src, obs, p)
    requires forall i :: 0 <= i < |states'| ==> Steady(states'[i], src, obs, p)
    requires states[|actions|].tick >= states[0].tick + 2 * states[0].faults.LongestDelay()
    requires states'[|actions'|].tick >= states'[0].tick + 2 * states'[0].faults.LongestDelay()
    ensures obs in states[|actions|].shards && obs in states'[|actions'|].shards
    ensures states[|actions|].HealthAsSeenBy(obs, src) == states'[|actions'|].HealthAsSeenBy(obs, src)
  {
    GossipConverges(states, actions, src, obs, p);
    GossipConverges(states', actions', src, obs, p);
  }
}
