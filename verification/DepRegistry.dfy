/** The dependency registry as the engine mutates it. */
module DepRegistries {
  import opened Base
  import opened Ternary
  import opened Time
  import opened Isa
  import opened Deps

  class DepRegistry {
    /** Upstream and downstream sets, execution modes, and port-ordered lists with dense indices. */
    var deps: map<Uid, set<Uid>>
    var subs: map<Uid, set<Uid>>
    var modes: map<Uid, ExecMode>
    var orderedDeps: map<Uid, seq<Uid>>
    var orderedIdx: map<Uid, seq<nat>>
    /** Per-pair gate metadata and per-subscriber value counters. */
    var meta: map<(Uid, Uid), DepMeta>
    var counters: map<Uid, Counters>

    function View(): Registry
      reads this
    {
      Registry(deps, subs, modes, orderedDeps, orderedIdx, meta, counters)
    }

    constructor ()
      ensures View() == EMPTY_REGISTRY
    {
      deps, subs, modes, orderedDeps, orderedIdx, meta, counters := map[], map[], map[], map[], map[], map[], map[];
    }

    // ---- registration ------------------------------------------------------------------

    /** `subscribe`: no dense index is recorded. */
    method Subscribe(source: Uid, subscriber: Uid)
      modifies this
      ensures View() == old(View()).Subscribe(source, subscriber, None)
    {
      deps := deps[subscriber := View().DepsOf(subscriber) + {source}];
      subs := subs[source := View().SubsOf(source) + {subscriber}];
      orderedDeps := orderedDeps[subscriber := View().OrderedDepsOf(subscriber) + [source]];
      meta := meta[(source, subscriber) := DEFAULT_META];
    }

    /** `subscribe_with_meta_indexed` */
    method SubscribeIndexed(source: Uid, subscriber: Uid, sourceDense: nat)
      modifies this
      ensures View() == old(View()).Subscribe(source, subscriber, Some(sourceDense))
    {
      deps := deps[subscriber := View().DepsOf(subscriber) + {source}];
      subs := subs[source := View().SubsOf(source) + {subscriber}];
      orderedDeps := orderedDeps[subscriber := View().OrderedDepsOf(subscriber) + [source]];
      orderedIdx := orderedIdx[subscriber := View().OrderedIdxOf(subscriber) + [sourceDense]];
      meta := meta[(source, subscriber) := DEFAULT_META];
    }

    /** The position of the first occurrence, as `iter().position` finds it. */
    static method Position(q: seq<Uid>, x: Uid) returns (pos: Option<nat>)
      ensures pos == if x in q then Some(IndexOf(q, x)) else None
    {
      for i := 0 to |q|
        invariant x !in q[..i]
      {
        if q[i] == x {
          IndexOfIsFirst(q, x, i);
          return Some(i);
        }
      }
      pos := None;
    }

    /** Remove the first occurrence of source from the ordered list, and the parallel index. */
    method DropOrdered(source: Uid, subscriber: Uid)
      modifies this
      ensures View() == old(View()).DropOrdered(source, subscriber)
    {
      if subscriber in orderedDeps {
        var pos := Position(orderedDeps[subscriber], source);
        if pos.Some? {
          orderedDeps := orderedDeps[subscriber := RemoveAt(orderedDeps[subscriber], pos.value)];
          if subscriber in orderedIdx && pos.value < |orderedIdx[subscriber]| {
            orderedIdx := orderedIdx[subscriber := RemoveAt(orderedIdx[subscriber], pos.value)];
          }
        }
      }
    }

    method Unsubscribe(source: Uid, subscriber: Uid)
      modifies this
      ensures View() == old(View()).Unsubscribe(source, subscriber)
    {
      if subscriber in deps { deps := deps[subscriber := deps[subscriber] - {source}]; }
      if source in subs { subs := subs[source := subs[source] - {subscriber}]; }
      DropOrdered(source, subscriber);
      meta := meta - {(source, subscriber)};
    }

    method Detach(id: Uid, sub: Uid)
      modifies this
      ensures View() == old(View()).Detach(id, sub)
    {
      if sub in deps { deps := deps[sub := deps[sub] - {id}]; }
      DropOrdered(id, sub);
      meta := meta - {(id, sub)};
    }

    /** The upstream half of node removal. */
    method UnsubscribeEach(sources: seq<Uid>, subscriber: Uid)
      modifies this
      ensures View() == old(View()).UnsubscribeAll(sources, subscriber)
    {
      for i := 0 to |sources|
        invariant View() == old(View()).UnsubscribeAll(sources[..i], subscriber)
      {
        assert sources[..i + 1][..i] == sources[..i];
        Unsubscribe(sources[i], subscriber);
      }
      assert sources[..|sources|] == sources;
    }

    /** The downstream half. */
    method DetachEach(id: Uid, downstream: seq<Uid>)
      modifies this
      ensures View() == old(View()).DetachAll(id, downstream)
    {
      for i := 0 to |downstream|
        invariant View() == old(View()).DetachAll(id, downstream[..i])
      {
        assert downstream[..i + 1][..i] == downstream[..i];
        Detach(id, downstream[i]);
      }
      assert downstream[..|downstream|] == downstream;
    }

    /** `remove_node`: unsubscribe from every upstream, detach every downstream, drop the tables. */
    method RemoveNode(id: Uid)
      modifies this
      ensures View() == old(View()).RemoveNode(id)
    {
      var upstream := Ascending(View().DepsOf(id));
      UnsubscribeEach(upstream, id);
      var downstream := Ascending(View().SubsOf(id));
      DetachEach(id, downstream);
      deps, subs, modes := deps - {id}, subs - {id}, modes - {id};
      orderedDeps, orderedIdx, counters := orderedDeps - {id}, orderedIdx - {id}, counters - {id};
    }

    // ---- tables ------------------------------------------------------------------------

    method SetMode(id: Uid, mode: ExecMode)
      modifies this
      ensures View() == old(View()).SetMode(id, mode)
    {
      modes := modes[id := mode];
    }

    /** `update_last_seen`, after a push was enqueued. */
    method UpdateLastSeen(source: Uid, subscriber: Uid, time: ProductTime)
      modifies this
      ensures View() == old(View()).UpdateLastSeen(source, subscriber, time)
    {
      if (source, subscriber) in meta {
        var m := meta[(source, subscriber)];
        meta := meta[(source, subscriber) := m.(lastSeen := m.lastSeen.Join(time))];
      }
    }

    method SetCompiledLabel(source: Uid, subscriber: Uid, mask: set<TimeDim>)
      modifies this
      ensures View() == old(View()).SetMask(source, subscriber, mask)
    {
      if (source, subscriber) in meta {
        meta := meta[(source, subscriber) := meta[(source, subscriber)].(mask := mask)];
      }
    }

    method AddDepToCounter(subscriber: Uid, depVal: T)
      modifies this
      ensures View() == old(View()).AddToCounter(subscriber, depVal)
    {
      var c := if subscriber in counters then counters[subscriber] else NO_DEPS;
      counters := counters[subscriber := c.Add(depVal)];
    }

    method RemoveDepFromCounter(subscriber: Uid, depVal: T)
      modifies this
      ensures View() == old(View()).RemoveFromCounter(subscriber, depVal)
    {
      if subscriber in counters { counters := counters[subscriber := counters[subscriber].Remove(depVal)]; }
    }

    method UpdateDepCounter(subscriber: Uid, prior: T, next: T)
      modifies this
      ensures View() == old(View()).UpdateCounter(subscriber, prior, next)
    {
      if subscriber in counters { counters := counters[subscriber := counters[subscriber].Update(prior, next)]; }
    }

    // ---- the gate ------------------------------------------------------------------------

    /** The delta gate of a pair: a scan over the five dimensions. */
    method GateOpen(source: Uid, subscriber: Uid, now: ProductTime) returns (open: bool)
      ensures open == View().Open(source, subscriber, now)
    {
      if (source, subscriber) !in meta { return true; }
      open := Observes(meta[(source, subscriber)], now);
    }
  }

  /** `should_propagate` */
  method Observes(m: DepMeta, now: ProductTime) returns (yes: bool)
    ensures yes == ShouldPropagate(m, now)
  {
    var dims := [TimeDim.Identity, Attribute, Dependency, Egraph, Boundary];
    for i := 0 to |dims|
      invariant forall k :: 0 <= k < i ==> !(dims[k] in m.mask && now.Get(dims[k]) > m.lastSeen.Get(dims[k]))
    {
      if dims[i] in m.mask && now.Get(dims[i]) > m.lastSeen.Get(dims[i]) { return true; }
    }
    forall d | d in m.mask ensures now.Get(d) <= m.lastSeen.Get(d) {
      assert d == dims[0] || d == dims[1] || d == dims[2] || d == dims[3] || d == dims[4];
    }
    yes := false;
  }
}
