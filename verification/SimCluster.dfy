/** The simulated cluster in place: the fault policy, the message bus and the shards. */
module SimClusters {
  import opened Base
  import opened Gossip

  class FaultPolicy {
    var dropRate: real
    var maxDelayTicks: nat
    var partitioned: set<(Shard, Shard)>

    function View(): Faults
      reads this
    {
      Faults(dropRate, maxDelayTicks, partitioned)
    }

    constructor ()
      ensures View() == Faults(0.0, 0, {})
    {
      dropRate, maxDelayTicks, partitioned := 0.0, 0, {};
    }

    method AddPartition(a: Shard, b: Shard)
      modifies `partitioned
      ensures partitioned == old(partitioned) + {Pair(a, b)}
    {
      partitioned := partitioned + {(if a <= b then a else b, if a >= b then a else b)};
    }

    method RemovePartition(a: Shard, b: Shard)
      modifies `partitioned
      ensures partitioned == old(partitioned) - {Pair(a, b)}
    {
      partitioned := partitioned - {(if a <= b then a else b, if a >= b then a else b)};
    }

    method IsPartitioned(a: Shard, b: Shard) returns (yes: bool)
      ensures yes == View().IsPartitioned(a, b)
    {
      yes := (if a <= b then a else b, if a >= b then a else b) in partitioned;
    }

    /** `sample_delay_ticks`, given the random draw. */
    method SampleDelayTicks(draw: nat) returns (delay: nat)
      ensures delay == View().Delay(draw) && 1 <= delay <= View().LongestDelay()
    {
      if maxDelayTicks == 0 { return 1; }
      return 1 + draw % maxDelayTicks;
    }
  }

  class SimNetwork {
    var pending: seq<Message>
    const faults: FaultPolicy

    constructor ()
      ensures pending == [] && fresh(faults) && faults.View() == Faults(0.0, 0, {})
    {
      pending := [];
      faults := new FaultPolicy();
    }

    method Enqueue(msg: Message)
      modifies `pending
      ensures pending == old(pending) + [msg]
    {
      pending := pending + [msg];
    }

    /** Split the queue into the due messages, which are returned, and the others, which stay. */
    method DrainDue(currentTick: nat) returns (due: seq<Message>)
      modifies `pending
      ensures due == Due(old(pending), currentTick) && pending == NotDue(old(pending), currentTick)
    {
      due := [];
      var remain: seq<Message> := [];
      for i := 0 to |pending|
        invariant due == Due(pending[..i], currentTick) && remain == NotDue(pending[..i], currentTick)
      {
        assert pending[..i + 1][..i] == pending[..i];
        assert due + [] == due && remain + [] == remain;
        if pending[i].deliverAt <= currentTick { due := due + [pending[i]]; } else { remain := remain + [pending[i]]; }
      }
      assert pending[..|pending|] == pending;
      pending := remain;
    }
  }

  class SimCluster {
    var shards: map<Shard, Runtime>
    var lifecycle: map<Shard, Lifecycle>
    const network: SimNetwork
    var epoch: nat
    var tick: nat

    /** The cluster as a value. */
    function View(): Cluster
      reads this, network, network.faults
    {
      Cluster(shards, lifecycle, network.pending, network.faults.View(), epoch, tick)
    }

    constructor (shards: map<Shard, Runtime>, lifecycle: map<Shard, Lifecycle>)
      ensures fresh(network) && fresh(network.faults)
      ensures View() == Cluster(shards, lifecycle, [], Faults(0.0, 0, {}), 1, 0)
    {
      this.shards, this.lifecycle := shards, lifecycle;
      network := new SimNetwork();
      epoch, tick := 1, 0;
    }

    /** `shards.get_mut(observer)` and `update_pressure`. */
    method Update(observer: Shard, target: Shard, p: Pressure)
      modifies `shards
      ensures View() == old(View()).Updated(observer, target, p)
    {
      if observer in shards {
        var rt := shards[observer];
        shards := shards[observer := Runtime(rt.pressure[target := p], rt.topology[target := NodeFrom(p)])];
      }
    }

    method DeliverMessages(msgs: seq<Message>)
      modifies `shards
      ensures View() == DeliverAll(old(View()), msgs)
    {
      for i := 0 to |msgs|
        invariant View() == DeliverAll(old(View()), msgs[..i])
      {
        assert msgs[..i + 1][..i] == msgs[..i];
        Update(msgs[i].dst, msgs[i].src, msgs[i].pressure);
      }
      assert msgs[..|msgs|] == msgs;
    }

    method SendOne(lots: Lots, src: Shard, dst: Shard, p: Pressure)
      modifies network`pending
      ensures View() == Send(old(View()), lots, src, dst, p)
    {
      if dst == src { return; }
      var cut := network.faults.IsPartitioned(src, dst);
      if cut { return; }
      var lot := LotOf(lots, src, dst);
      if network.faults.dropRate > 0.0 && lot.chance < network.faults.dropRate { return; }
      var delay := network.faults.SampleDelayTicks(lot.draw);
      network.Enqueue(Message(src, dst, p, tick + delay));
    }

    method SendEach(lots: Lots, src: Shard, dsts: seq<Shard>, p: Pressure)
      modifies network`pending
      ensures View() == SendTo(old(View()), lots, src, dsts, p)
    {
      for i := 0 to |dsts|
        invariant View() == SendTo(old(View()), lots, src, dsts[..i], p)
      {
        assert dsts[..i + 1][..i] == dsts[..i];
        SendOne(lots, src, dsts[i], p);
      }
      assert dsts[..|dsts|] == dsts;
    }

    /** Gossip each alive shard's own pressure to all other alive shards. */
    method GossipEach(lots: Lots, alive: seq<Shard>)
      modifies network`pending
      ensures View() == GossipAll(old(View()), lots, alive, alive)
    {
      for i := 0 to |alive|
        invariant View() == GossipAll(old(View()), lots, alive[..i], alive) && unchanged(this)
      {
        assert alive[..i + 1][..i] == alive[..i];
        var src := alive[i];
        if src in shards && src in shards[src].pressure { SendEach(lots, src, alive, shards[src].pressure[src]); }
      }
      assert alive[..|alive|] == alive;
    }

    /** `tick_once`, given what the random generator yields; the order of the alive shards is
        whatever the map iterates. */
    method TickOnce(lots: Lots) returns (ghost order: seq<Shard>)
      modifies this, network`pending
      ensures Step(old(View()), Tick(order, lots), View())
    {
      tick := tick + 1;
      epoch := epoch + 1;
      var msgs := network.DrainDue(tick);
      ghost var before := View();
      DeliverMessages(msgs);
      DeliverFrame(before, msgs);
      var alive := AliveShards();
      order := alive;
      GossipEach(lots, alive);
    }

    /** The alive shards in some order. */
    method AliveShards() returns (alive: seq<Shard>)
      ensures ListsAlive(View(), alive)
    {
      var rest := shards.Keys;
      alive := [];
      while rest != {}
        invariant rest <= shards.Keys
        invariant forall s :: s in alive <==> s in shards.Keys - rest && View().IsAlive(s)
      {
        var s :| s in rest;
        rest := rest - {s};
        if s in lifecycle && lifecycle[s] == Alive { alive := alive + [s]; }
      }
    }

    method UpdateEach(observers: seq<Shard>, target: Shard, p: Pressure)
      modifies `shards
      ensures View() == UpdateAll(old(View()), observers, target, p)
    {
      for i := 0 to |observers|
        invariant View() == UpdateAll(old(View()), observers[..i], target, p)
      {
        assert observers[..i + 1][..i] == observers[..i];
        Update(observers[i], target, p);
      }
      assert observers[..|observers|] == observers;
    }

    /** `inject_neg_everywhere` */
    method InjectNegEverywhere(shard: Shard)
      modifies `shards
      ensures Step(old(View()), Inject(shard), View())
    {
      UpdateEach(Ascending(shards.Keys), shard, NEGATIVE);
    }

    method CrashShard(shard: Shard)
      modifies `shards, `lifecycle
      ensures Step(old(View()), Crash(shard), View())
    {
      lifecycle := lifecycle[shard := Crashed];
      InjectNegEverywhere(shard);
    }

    method HealShard(shard: Shard)
      modifies `shards, `lifecycle
      ensures Step(old(View()), Heal(shard), View())
    {
      lifecycle := lifecycle[shard := Alive];
      UpdateEach(Ascending(shards.Keys), shard, HEALTHY);
    }

    /** Cut every pair of the two sets. */
    method PartitionNetwork(setA: seq<Shard>, setB: seq<Shard>)
      modifies network.faults`partitioned
      ensures forall p :: p in network.faults.partitioned <==>
        p in old(network.faults.partitioned) || exists a, b :: a in setA && b in setB && p == Pair(a, b)
    {
      var faults := network.faults;
      for i := 0 to |setA|
        invariant forall p :: p in faults.partitioned <==>
          p in old(faults.partitioned) || exists a, b :: a in setA[..i] && b in setB && p == Pair(a, b)
      {
        assert setA[..i + 1] == setA[..i] + [setA[i]];
        ghost var before := faults.partitioned;
        for j := 0 to |setB|
          invariant forall p :: p in faults.partitioned <==> p in before || exists b :: b in setB[..j] && p == Pair(setA[i], b)
        {
          assert setB[..j + 1] == setB[..j] + [setB[j]];
          faults.AddPartition(setA[i], setB[j]);
        }
        assert setB[..|setB|] == setB;
      }
      assert setA[..|setA|] == setA;
    }
  }
}
