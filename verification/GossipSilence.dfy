/** Exactly what gossip sends, and that nothing passes between two shards that are cut apart or of which one is not alive. */
module GossipSilence {
  import opened Base
  import opened Gossip

  /** No message from src to obs is on its way. */
  ghost predicate NonePending(c: Cluster, src: Shard, obs: Shard) {
    forall m :: m in c.pending ==> m.src != src || m.dst != obs
  }

  /** A tick has nobody to send src's pressure to obs, or nothing to send it over. */
  ghost predicate Severed(c: Cluster, src: Shard, obs: Shard) {
    src != obs && (c.faults.IsPartitioned(src, obs) || !c.IsAlive(src) || !c.IsAlive(obs))
  }

  lemma {:induction false} SendToSilent(c: Cluster, lots: Lots, s: Shard, dsts: seq<Shard>, p: Pressure, src: Shard, obs: Shard)
    requires NonePending(c, src, obs) && (s != src || obs !in dsts || c.faults.IsPartitioned(src, obs))
    ensures var out := SendTo(c, lots, s, dsts, p);
      NonePending(out, src, obs) && out.faults == c.faults && out.shards == c.shards
    decreases |dsts|
  {
    if dsts != [] {
      assert dsts == dsts[..|dsts| - 1] + [dsts[|dsts| - 1]];
      SendToSilent(c, lots, s, dsts[..|dsts| - 1], p, src, obs);
    }
  }

  lemma {:induction false} GossipSilent(c: Cluster, lots: Lots, srcs: seq<Shard>, dsts: seq<Shard>, src: Shard, obs: Shard)
    requires NonePending(c, src, obs) && (src !in srcs || obs !in dsts || c.faults.IsPartitioned(src, obs))
    ensures var out := GossipAll(c, lots, srcs, dsts);
      NonePending(out, src, obs) && out.faults == c.faults && out.shards == c.shards
    decreases |srcs|
  {
    if srcs != [] {
      var front, last := srcs[..|srcs| - 1], srcs[|srcs| - 1];
      assert srcs == front + [last];
      GossipSilent(c, lots, front, dsts, src, obs);
      var before := GossipAll(c, lots, front, dsts);
      if last in before.shards && last in before.shards[last].pressure {
        SendToSilent(before, lots, last, dsts, before.shards[last].pressure[last], src, obs);
      }
    }
  }

  /** A tick of a severed pair leaves obs's view of src and sends nothing. */
  lemma TickSilent(c: Cluster, order: seq<Shard>, lots: Lots, src: Shard, obs: Shard)
    requires obs in c.shards && Severed(c, src, obs) && NonePending(c, src, obs) && ListsAlive(c, order)
    ensures var out := TickOnce(c, order, lots);
      obs in out.shards && NonePending(out, src, obs) && SameView(out.shards[obs], c.shards[obs], src)
  {
    var c1 := c.(tick := c.tick + 1, epoch := c.epoch + 1);
    var due := Due(c1.pending, c1.tick);
    DueSplit(c1.pending, c1.tick);
    var base := c1.(pending := NotDue(c1.pending, c1.tick));
    DeliverFrame(base, due);
    DeliverView(base, due, src, obs, HEALTHY);
    var c2 := DeliverAll(base, due);
    assert NonePending(c2, src, obs);
    GossipSilent(c2, lots, order, order, src, obs);
  }

  /** The action records no pressure of src anywhere but at src itself. */
  predicate Spares(a: Action, src: Shard) { !(a.Crash? && a.shard == src) && !(a.Heal? && a.shard == src) && !(a.Inject? && a.shard == src) }

  lemma UpdateSilent(c: Cluster, s: Shard, p: Pressure, src: Shard, obs: Shard)
    requires obs in c.shards && s != src
    ensures var out := UpdateAll(c, Ascending(c.shards.Keys), s, p);
      obs in out.shards && SameView(out.shards[obs], c.shards[obs], src) && out.pending == c.pending
  {
    UpdateAllView(c, Ascending(c.shards.Keys), s, p);
  }

  lemma ActSilent(c: Cluster, a: Action, src: Shard, obs: Shard, c': Cluster)
    requires obs in c.shards && Severed(c, src, obs) && NonePending(c, src, obs) && Step(c, a, c') && Spares(a, src)
    ensures obs in c'.shards && NonePending(c', src, obs) && SameView(c'.shards[obs], c.shards[obs], src)
  {
    match a {
      case Tick(order, lots) => TickSilent(c, order, lots, src, obs);
      case Crash(s) => UpdateSilent(c.(lifecycle := c.lifecycle[s := Crashed]), s, NEGATIVE, src, obs);
      case Heal(s) => UpdateSilent(c.(lifecycle := c.lifecycle[s := Alive]), s, HEALTHY, src, obs);
      case Inject(s) => UpdateSilent(c, s, NEGATIVE, src, obs);
      case _ =>
    }
    hide TickOnce, UpdateAll;
  }

  /** While two shards stay severed and no message is left between them, whatever else happens to the cluster, the one's
      view of the other stands; only a crash, a recovery or an injected fault of the other is recorded there. */
  lemma SeveredViewStands(states: seq<Cluster>, actions: seq<Action>, src: Shard, obs: Shard)
    requires Run(states, actions) && obs in states[0].shards && NonePending(states[0], src, obs)
    requires forall i :: 0 <= i < |actions| ==> Severed(states[i], src, obs) && Spares(actions[i], src)
    ensures obs in states[|actions|].shards && SameView(states[|actions|].shards[obs], states[0].shards[obs], src)
    ensures states[|actions|].HealthAsSeenBy(obs, src) == states[0].HealthAsSeenBy(obs, src)
  {
    hide Step, NonePending, Severed;
    for k := 0 to |actions|
      invariant obs in states[k].shards && NonePending(states[k], src, obs) && SameView(states[k].shards[obs], states[0].shards[obs], src)
    {
      ActSilent(states[k], actions[k], src, obs, states[k + 1]);
    }
  }

  // ---- exactly what a tick sends -------------------------------------------------------------------

  /** Nothing keeps src's message from dst: they differ, are not cut apart, and the lot does not lose it. */
  ghost predicate Goes(f: Faults, lots: Lots, src: Shard, dst: Shard) {
    src != dst && !f.IsPartitioned(src, dst) && (f.dropRate <= 0.0 || f.dropRate <= LotOf(lots, src, dst).chance)
  }

  /** src knows its own pressure, and nothing keeps its message from dst. */
  ghost predicate Tells(c: Cluster, lots: Lots, src: Shard, dst: Shard) {
    src in c.shards && src in c.shards[src].pressure && Goes(c.faults, lots, src, dst)
  }

  lemma SendExactly(c: Cluster, lots: Lots, s: Shard, d: Shard, p: Pressure, src: Shard, dst: Shard)
    ensures var out := Send(c, lots, s, d, p);
      && (NonePending(out, src, dst) <==> NonePending(c, src, dst) && !(s == src && d == dst && Goes(c.faults, lots, src, dst)))
      && out.faults == c.faults && out.shards == c.shards
  {
    var out := Send(c, lots, s, d, p);
    if Goes(c.faults, lots, s, d) {
      var m := Message(s, d, p, c.tick + c.faults.Delay(LotOf(lots, s, d).draw));
      assert out.pending == c.pending + [m];
      assert forall x :: x in out.pending <==> x in c.pending || x == m;
    } else {
      assert out == c;
    }
  }

  lemma {:induction false} SendToExactly(c: Cluster, lots: Lots, s: Shard, dsts: seq<Shard>, p: Pressure, src: Shard, dst: Shard)
    ensures var out := SendTo(c, lots, s, dsts, p);
      && (NonePending(out, src, dst) <==> NonePending(c, src, dst) && !(s == src && dst in dsts && Goes(c.faults, lots, src, dst)))
      && out.faults == c.faults && out.shards == c.shards
    decreases |dsts|
  {
    if dsts != [] {
      var front, last := dsts[..|dsts| - 1], dsts[|dsts| - 1];
      assert dsts == front + [last];
      SendToExactly(c, lots, s, front, p, src, dst);
      SendExactly(SendTo(c, lots, s, front, p), lots, s, last, p, src, dst);
    }
    hide NonePending, Goes, Send;
  }

  lemma {:induction false} GossipExactly(c: Cluster, lots: Lots, srcs: seq<Shard>, dsts: seq<Shard>, src: Shard, dst: Shard)
    ensures var out := GossipAll(c, lots, srcs, dsts);
      && (NonePending(out, src, dst) <==> NonePending(c, src, dst) && !(src in srcs && dst in dsts && Tells(c, lots, src, dst)))
      && out.faults == c.faults && out.shards == c.shards
    decreases |srcs|
  {
    if srcs != [] {
      var front, last := srcs[..|srcs| - 1], srcs[|srcs| - 1];
      assert srcs == front + [last];
      GossipExactly(c, lots, front, dsts, src, dst);
      var before := GossipAll(c, lots, front, dsts);
      if last in before.shards && last in before.shards[last].pressure {
        SendToExactly(before, lots, last, dsts, before.shards[last].pressure[last], src, dst);
      }
    }
    hide NonePending, Goes, SendTo;
  }

  /** With nothing in flight from src to dst, a tick puts something in flight exactly when both are alive, src knows its own
      pressure, and nothing keeps the message. */
  lemma TickSendsExactly(c: Cluster, order: seq<Shard>, lots: Lots, src: Shard, dst: Shard)
    requires NonePending(c, src, dst) && ListsAlive(c, order)
    ensures var c1 := c.(tick := c.tick + 1, epoch := c.epoch + 1);
      var told := DeliverAll(c1.(pending := NotDue(c1.pending, c1.tick)), Due(c1.pending, c1.tick));
      !NonePending(TickOnce(c, order, lots), src, dst) <==> c.IsAlive(src) && c.IsAlive(dst) && Tells(told, lots, src, dst)
  {
    var c1 := c.(tick := c.tick + 1, epoch := c.epoch + 1);
    DueSplit(c1.pending, c1.tick);
    var base := c1.(pending := NotDue(c1.pending, c1.tick));
    DeliverFrame(base, Due(c1.pending, c1.tick));
    var told := DeliverAll(base, Due(c1.pending, c1.tick));
    assert NonePending(told, src, dst);
    GossipExactly(told, lots, order, order, src, dst);
    hide GossipAll, DeliverAll, Goes;
  }

  /** The delays are exactly those between one tick and the longest: each of them is some draw's. */
  lemma DelaysExactly(f: Faults, d: nat)
    ensures (exists draw: nat :: f.Delay(draw) == d) <==> 1 <= d <= f.LongestDelay()
  {
    if 1 <= d <= f.LongestDelay() { assert f.Delay(d - 1) == d; }
  }
}
