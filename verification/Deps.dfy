/** The dependency registry: the propagation view of the graph's edges. */
module Deps {
  import opened Base
  import opened Ternary
  import opened Time
  import opened Isa

  // ---- dependency-value counters ---------------------------------------------------------

  datatype Counters = Counters(neg: nat, zero: nat, pos: nat) {
    function Total(): nat { neg + zero + pos }

    /** Zero wins, then Neg, then Pos. */
    function Aggregate(): T { if zero > 0 then Zero else if neg > 0 then Neg else Pos }

    function Count(v: T): nat { match v case Neg => neg case Zero => zero case Pos => pos }

    function Add(v: T): Counters {
      match v
      case Neg => this.(neg := neg + 1)
      case Zero => this.(zero := zero + 1)
      case Pos => this.(pos := pos + 1)
    }

    /** Saturating at zero. */
    function Remove(v: T): Counters {
      match v
      case Neg => this.(neg := if neg > 0 then neg - 1 else 0)
      case Zero => this.(zero := if zero > 0 then zero - 1 else 0)
      case Pos => this.(pos := if pos > 0 then pos - 1 else 0)
    }

    function Update(prior: T, next: T): Counters {
      if prior == next then this else Remove(prior).Add(next)
    }
  }

  const NO_DEPS := Counters(0, 0, 0)

  /** The counters of a list of dependency values. */
  function Histogram(vals: seq<T>): Counters {
    if vals == [] then NO_DEPS else Histogram(vals[..|vals| - 1]).Add(vals[|vals| - 1])
  }

  lemma {:induction false} HistogramCounts(vals: seq<T>, v: T)
    ensures Histogram(vals).Count(v) == multiset(vals)[v]
  {
    if vals != [] {
      HistogramCounts(vals[..|vals| - 1], v);
      assert vals == vals[..|vals| - 1] + [vals[|vals| - 1]];
    }
  }

  lemma HistogramIs(vals: seq<T>)
    ensures Histogram(vals) == Counters(multiset(vals)[Neg], multiset(vals)[Zero], multiset(vals)[Pos])
  {
    HistogramCounts(vals, Neg);
    HistogramCounts(vals, Zero);
    HistogramCounts(vals, Pos);
  }

  lemma {:induction false} HistogramTotal(vals: seq<T>)
    ensures Histogram(vals).Total() == |vals|
  {
    if vals != [] { HistogramTotal(vals[..|vals| - 1]); }
  }

  lemma HistogramAppend(vals: seq<T>, v: T)
    ensures Histogram(vals + [v]) == Histogram(vals).Add(v) && Histogram([]) == NO_DEPS
  {
    assert (vals + [v])[..|vals|] == vals;
  }

  /** Exact counters answer the propagation state of the list. */
  lemma AggregateIsState(vals: seq<T>)
    ensures Histogram(vals).Aggregate() ==
      match StateOf(vals) case Conflicted => Zero case Pending => Neg case Ready => Pos
  {
    HistogramIs(vals);
  }

  /** One dependency's transition moves one unit between buckets. */
  lemma HistogramUpdate(vals: seq<T>, i: nat, v: T)
    requires i < |vals|
    ensures Histogram(vals[i := v]) == Histogram(vals).Update(vals[i], v)
  {
    HistogramIs(vals);
    HistogramIs(vals[i := v]);
    assert multiset(vals[i := v]) == multiset(vals) - multiset{vals[i]} + multiset{v};
    assert vals[i] in multiset(vals);
  }

  lemma RemoveAtCount(vals: seq<T>, i: nat, v: T)
    requires i < |vals|
    ensures multiset(vals)[v] == multiset(RemoveAt(vals, i))[v] + (if v == vals[i] then 1 else 0)
  {
    var front, back := vals[..i], vals[i + 1..];
    assert vals == front + [vals[i]] + back;
  }

  lemma HistogramRemove(vals: seq<T>, i: nat)
    requires i < |vals|
    ensures Histogram(RemoveAt(vals, i)) == Histogram(vals).Remove(vals[i])
  {
    var less := RemoveAt(vals, i);
    HistogramIs(vals);
    HistogramIs(less);
    RemoveAtCount(vals, i, Neg);
    RemoveAtCount(vals, i, Zero);
    RemoveAtCount(vals, i, Pos);
  }

  // ---- per-pair metadata and the delta gate ------------------------------------------------

  /** What a (source, subscriber) pair observes and when it was last pushed. */
  datatype DepMeta = DepMeta(mask: set<TimeDim>, lastSeen: ProductTime)

  const DEFAULT_META := DepMeta(ALL_DIMS, ZERO_TIME)

  /** Time has advanced past `lastSeen` in a dimension the pair observes. */
  predicate ShouldPropagate(m: DepMeta, now: ProductTime) {
    exists d :: d in m.mask && now.Get(d) > m.lastSeen.Get(d)
  }

  // ---- the registry ---------------------------------------------------------------------

  datatype Registry = Registry(
    deps: map<Uid, set<Uid>>, subs: map<Uid, set<Uid>>, modes: map<Uid, ExecMode>,
    orderedDeps: map<Uid, seq<Uid>>, orderedIdx: map<Uid, seq<nat>>,
    meta: map<(Uid, Uid), DepMeta>, counters: map<Uid, Counters>)
  {
    function DepsOf(n: Uid): set<Uid> { if n in deps then deps[n] else {} }
    function SubsOf(n: Uid): set<Uid> { if n in subs then subs[n] else {} }
    function ModeOf(n: Uid): ExecMode { if n in modes then modes[n] else Eager }
    function OrderedDepsOf(n: Uid): seq<Uid> { if n in orderedDeps then orderedDeps[n] else [] }
    function OrderedIdxOf(n: Uid): seq<nat> { if n in orderedIdx then orderedIdx[n] else [] }

    /** The gate of a pair; a pair without metadata is always open. */
    predicate Open(src: Uid, sub: Uid, now: ProductTime) {
      (src, sub) in meta ==> ShouldPropagate(meta[(src, sub)], now)
    }

    function SetMode(n: Uid, m: ExecMode): Registry { this.(modes := modes[n := m]) }

    function UpdateLastSeen(src: Uid, sub: Uid, now: ProductTime): Registry {
      if (src, sub) in meta then
        this.(meta := meta[(src, sub) := meta[(src, sub)].(lastSeen := meta[(src, sub)].lastSeen.Join(now))])
      else this
    }

    function SetMask(src: Uid, sub: Uid, mask: set<TimeDim>): Registry {
      if (src, sub) in meta then this.(meta := meta[(src, sub) := meta[(src, sub)].(mask := mask)]) else this
    }

    function UpdateCounter(sub: Uid, prior: T, next: T): Registry {
      if sub in counters then this.(counters := counters[sub := counters[sub].Update(prior, next)]) else this
    }

    function AddToCounter(sub: Uid, v: T): Registry {
      this.(counters := counters[sub := (if sub in counters then counters[sub] else NO_DEPS).Add(v)])
    }

    function RemoveFromCounter(sub: Uid, v: T): Registry {
      if sub in counters then this.(counters := counters[sub := counters[sub].Remove(v)]) else this
    }

    /** Register that sub reads src; the dense index is recorded when src has a slot. */
    function Subscribe(src: Uid, sub: Uid, dense: Option<nat>): Registry {
      this.(deps := deps[sub := DepsOf(sub) + {src}],
            subs := subs[src := SubsOf(src) + {sub}],
            orderedDeps := orderedDeps[sub := OrderedDepsOf(sub) + [src]],
            orderedIdx := if dense.Some? then orderedIdx[sub := OrderedIdxOf(sub) + [dense.value]] else orderedIdx,
            meta := meta[(src, sub) := DEFAULT_META])
    }

    /** Drop the first occurrence of src from sub's ordered list, and the parallel index. */
    function DropOrdered(src: Uid, sub: Uid): Registry {
      if sub in orderedDeps && src in orderedDeps[sub] then
        var i := IndexOf(orderedDeps[sub], src);
        this.(orderedDeps := orderedDeps[sub := RemoveAt(orderedDeps[sub], i)],
              orderedIdx := if sub in orderedIdx && i < |orderedIdx[sub]|
                            then orderedIdx[sub := RemoveAt(orderedIdx[sub], i)] else orderedIdx)
      else this
    }

    function Unsubscribe(src: Uid, sub: Uid): Registry {
      var r := this.(deps := if sub in deps then deps[sub := deps[sub] - {src}] else deps,
                     subs := if src in subs then subs[src := subs[src] - {sub}] else subs);
      var r2 := r.DropOrdered(src, sub);
      r2.(meta := r2.meta - {(src, sub)})
    }

    function UnsubscribeAll(srcs: seq<Uid>, sub: Uid): Registry {
      if srcs == [] then this
      else UnsubscribeAll(srcs[..|srcs| - 1], sub).Unsubscribe(srcs[|srcs| - 1], sub)
    }

    /** Downstream half of node removal, for one subscriber. */
    function Detach(id: Uid, sub: Uid): Registry {
      var r := this.(deps := if sub in deps then deps[sub := deps[sub] - {id}] else deps);
      var r2 := r.DropOrdered(id, sub);
      r2.(meta := r2.meta - {(id, sub)})
    }

    function DetachAll(id: Uid, subList: seq<Uid>): Registry {
      if subList == [] then this
      else DetachAll(id, subList[..|subList| - 1]).Detach(id, subList[|subList| - 1])
    }

    /** Remove every entry of a node. The subscriber list is taken after the upstream pairs go. */
    function RemoveNode(id: Uid): Registry {
      var up := UnsubscribeAll(Ascending(DepsOf(id)), id);
      var r := up.DetachAll(id, Ascending(up.SubsOf(id)));
      r.(deps := r.deps - {id}, subs := r.subs - {id}, modes := r.modes - {id},
         orderedDeps := r.orderedDeps - {id}, orderedIdx := r.orderedIdx - {id}, counters := r.counters - {id})
    }
  }

  const EMPTY_REGISTRY := Registry(map[], map[], map[], map[], map[], map[], map[])

  function IndexOf<A(==)>(q: seq<A>, x: A): (i: nat)
    requires x in q
    ensures i < |q| && q[i] == x && x !in q[..i]
  {
    if q[0] == x then 0
    else
      assert x in q[1..];
      var i := 1 + IndexOf(q[1..], x);
      assert q[..i] == [q[0]] + q[1..][..i - 1];
      i
  }

  lemma {:induction false} IndexOfIsFirst<A>(q: seq<A>, x: A, k: nat)
    requires k < |q| && q[k] == x
    ensures x in q && IndexOf(q, x) <= k
  {
    if q[0] != x {
      assert q[1..][k - 1] == x;
      IndexOfIsFirst(q[1..], x, k - 1);
    }
  }

  function RemoveAt<A>(q: seq<A>, i: nat): seq<A>
    requires i < |q|
  {
    q[..i] + q[i + 1..]
  }
}
