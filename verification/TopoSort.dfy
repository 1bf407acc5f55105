/** Kahn's topological sort of a member set over the registry's dependency edges. */
module TopoSort {
  import opened Base
  import opened Deps
  import opened Coherence

  /** Members still to be placed. */
  function Unplaced(s: set<Uid>, topo: seq<Uid>): set<Uid> { set n | n in s && n !in topo }

  /** The dependencies of n inside the member set that are still to be placed. */
  function Waiting(reg: Registry, s: set<Uid>, topo: seq<Uid>, n: Uid): set<Uid> {
    set d | d in reg.DepsOf(n) && d in s && d !in topo
  }

  /** A duplicate-free list of members in which every dependency inside the set comes earlier. */
  ghost predicate Placed(reg: Registry, s: set<Uid>, topo: seq<Uid>) {
    && Distinct(topo)
    && (forall n :: n in topo ==> n in s)
    && forall i, d :: 0 <= i < |topo| && d in reg.DepsOf(topo[i]) && d in s ==> d in topo[..i]
  }

  /** A topological permutation of the member set. */
  ghost predicate TopoOrder(reg: Registry, s: set<Uid>, topo: seq<Uid>) {
    Placed(reg, s, topo) && forall n :: n in s ==> n in topo
  }

  /** A rank that falls along every dependency between members. */
  ghost predicate RanksMembers(reg: Registry, s: set<Uid>, rank: map<Uid, nat>) {
    && s <= rank.Keys
    && forall n, d :: n in s && d in reg.DepsOf(n) && d in s ==> rank[d] < rank[n]
  }

  /** The dependency edges inside the member set have no cycle. */
  ghost predicate Acyclic(reg: Registry, s: set<Uid>) {
    exists rank :: RanksMembers(reg, s, rank)
  }

  lemma OrderGivesRank(reg: Registry, s: set<Uid>, topo: seq<Uid>)
    requires TopoOrder(reg, s, topo)
    ensures Acyclic(reg, s)
  {
    var rank: map<Uid, nat> := map n | n in s :: IndexOf(topo, n);
    forall n, d | n in s && d in reg.DepsOf(n) && d in s ensures rank[d] < rank[n] {
      var i := IndexOf(topo, n);
      assert topo[i] == n && d in topo[..i];
      var k :| 0 <= k < i && topo[k] == d;
      IndexOfIsFirst(topo, d, k);
    }
    assert RanksMembers(reg, s, rank);
  }

  /** A nonempty set of members each waiting for another of the set refutes every rank. */
  lemma {:induction false} NoKnot(reg: Registry, s: set<Uid>, knot: set<Uid>, rank: map<Uid, nat>, n: Uid)
    requires RanksMembers(reg, s, rank) && knot <= s && n in knot
    requires forall m :: m in knot ==> exists d :: d in reg.DepsOf(m) && d in knot
    ensures false
    decreases rank[n]
  {
    var d :| d in reg.DepsOf(n) && d in knot;
    NoKnot(reg, s, knot, rank, d);
  }

  /** Where the sort stands: in-degrees count what a member still waits for, and the queue holds
      the members that wait for nothing. */
  ghost predicate Sorting(reg: Registry, s: set<Uid>, topo: seq<Uid>, queue: seq<Uid>, inDegree: map<Uid, nat>) {
    && Placed(reg, s, topo)
    && Distinct(queue) && (forall n :: n in queue ==> n in s && n !in topo)
    && inDegree.Keys == s
    && (forall n :: n in s ==> inDegree[n] == |Waiting(reg, s, topo, n)|)
    && forall n :: n in s ==> (inDegree[n] == 0 <==> n in topo || n in queue)
  }

  /** The in-degrees after the listed subscribers lost one dependency each. */
  ghost predicate Lowered(d0: map<Uid, nat>, d1: map<Uid, nat>, next: seq<Uid>) {
    && d1.Keys == d0.Keys
    && (forall m :: m in next ==> m in d0 && d0[m] > 0)
    && forall m :: m in d0 ==> d1[m] == if m in next then d0[m] - 1 else d0[m]
  }

  /** The listed subscribers that waited for one dependency only. */
  function Freed(d0: map<Uid, nat>, next: seq<Uid>): seq<Uid> {
    if next == [] then []
    else
      var last := next[|next| - 1];
      Freed(d0, next[..|next| - 1]) + (if last in d0 && d0[last] == 1 then [last] else [])
  }

  lemma {:induction false} FreedElements(d0: map<Uid, nat>, next: seq<Uid>)
    ensures forall m :: m in Freed(d0, next) <==> m in next && m in d0 && d0[m] == 1
    ensures Distinct(next) ==> Distinct(Freed(d0, next))
    decreases |next|
  {
    if next != [] {
      var front, last := next[..|next| - 1], next[|next| - 1];
      assert next == front + [last];
      FreedElements(d0, front);
      if Distinct(next) {
        forall i | 0 <= i < |front| ensures front[i] != last { assert next[i] == front[i] && next[|front|] == last; }
        assert last !in front;
      }
    }
  }

  lemma LowerNext(d0: map<Uid, nat>, d1: map<Uid, nat>, next: seq<Uid>, k: nat)
    requires Distinct(next) && k < |next| && next[k] in d0 && d0[next[k]] > 0 && Lowered(d0, d1, next[..k])
    ensures d1[next[k]] == d0[next[k]]
    ensures Lowered(d0, d1[next[k] := d1[next[k]] - 1], next[..k + 1])
    ensures Freed(d0, next[..k + 1]) == Freed(d0, next[..k]) + (if d0[next[k]] == 1 then [next[k]] else [])
  {
    assert next[..k + 1] == next[..k] + [next[k]] && next[..k + 1][..k] == next[..k];
    assert next[k] !in next[..k];
  }

  /** Lower the in-degree of each listed subscriber; queue those that reach zero. No in-degree
      is zero when it is lowered. */
  method Release(next: seq<Uid>, inDegree: map<Uid, nat>, queue: seq<Uid>)
    returns (inDegree': map<Uid, nat>, queue': seq<Uid>)
    requires Distinct(next) && forall m :: m in next ==> m in inDegree && inDegree[m] > 0
    ensures Lowered(inDegree, inDegree', next)
    ensures queue' == queue + Freed(inDegree, next)
  {
    inDegree', queue' := inDegree, queue;
    for k := 0 to |next|
      invariant Lowered(inDegree, inDegree', next[..k])
      invariant queue' == queue + Freed(inDegree, next[..k])
    {
      var sub := next[k];
      LowerNext(inDegree, inDegree', next, k);
      var d := inDegree'[sub] - 1;
      inDegree' := inDegree'[sub := d];
      if d == 0 { queue' := queue' + [sub]; }
    }
    assert next[..|next|] == next;
  }

  /** Placing the front of the queue removes it from what its subscribers wait for. */
  lemma WaitingAfter(reg: Registry, s: set<Uid>, topo: seq<Uid>, n: Uid, m: Uid)
    requires Related(reg) && n in s && n !in topo && m in s
    ensures |Waiting(reg, s, topo + [n], m)| == |Waiting(reg, s, topo, m)| - (if m in reg.SubsOf(n) then 1 else 0)
  {
    var before, after := Waiting(reg, s, topo, m), Waiting(reg, s, topo + [n], m);
    assert m in reg.SubsOf(n) <==> n in reg.DepsOf(m);
    assert after == before - {n};
  }

  lemma PlaceFront(reg: Registry, s: set<Uid>, topo: seq<Uid>, queue: seq<Uid>, inDegree: map<Uid, nat>)
    requires Sorting(reg, s, topo, queue, inDegree) && queue != []
    ensures Placed(reg, s, topo + [queue[0]])
  {
    var n := queue[0];
    var topo' := topo + [n];
    assert n in queue;
    assert Waiting(reg, s, topo, n) == {};
    forall i, d | 0 <= i < |topo'| && d in reg.DepsOf(topo'[i]) && d in s ensures d in topo'[..i] {
      if i < |topo| {
        assert topo'[..i] == topo[..i];
      } else {
        assert topo'[..i] == topo;
        assert d !in Waiting(reg, s, topo, n);
      }
    }
  }

  /** The subscribers of the front inside the set still wait, so no in-degree underflows. */
  lemma SubscribersWait(reg: Registry, s: set<Uid>, topo: seq<Uid>, queue: seq<Uid>, inDegree: map<Uid, nat>, m: Uid)
    requires Related(reg) && Sorting(reg, s, topo, queue, inDegree) && queue != [] && m in reg.SubsOf(queue[0]) && m in s
    ensures inDegree[m] > 0 && m !in topo && m !in queue
  {
    assert queue[0] in queue;
    assert queue[0] in Waiting(reg, s, topo, m);
  }

  lemma SortStep(reg: Registry, s: set<Uid>, topo: seq<Uid>, queue: seq<Uid>, inDegree: map<Uid, nat>,
                 next: seq<Uid>, inDegree': map<Uid, nat>)
    requires Related(reg) && Sorting(reg, s, topo, queue, inDegree) && queue != []
    requires Distinct(next) && forall m :: m in next <==> m in reg.SubsOf(queue[0]) && m in s
    requires Lowered(inDegree, inDegree', next)
    ensures Sorting(reg, s, topo + [queue[0]], queue[1..] + Freed(inDegree, next), inDegree')
  {
    var n, rest, freed := queue[0], queue[1..], Freed(inDegree, next);
    assert queue == [n] + rest && n in queue;
    PlaceFront(reg, s, topo, queue, inDegree);
    FreedElements(inDegree, next);
    forall m | m in next ensures inDegree[m] > 0 && m !in topo && m !in queue {
      SubscribersWait(reg, s, topo, queue, inDegree, m);
    }
    forall m | m in s ensures inDegree'[m] == |Waiting(reg, s, topo + [n], m)| { WaitingAfter(reg, s, topo, n, m); }
    QueueAfter(queue, freed);
  }

  lemma QueueAfter(queue: seq<Uid>, freed: seq<Uid>)
    requires Distinct(queue) && queue != [] && Distinct(freed) && forall m :: m in freed ==> m !in queue
    ensures Distinct(queue[1..] + freed)
    ensures queue[0] !in queue[1..] + freed
  {
    var q := queue[1..] + freed;
    forall i, j | 0 <= i < j < |q| ensures q[i] != q[j] {
      if i < |queue| - 1 <= j { assert q[i] in queue && q[j] in freed; }
    }
  }

  /** `in_degree` of every member, and the members that start at zero in ascending order. */
  lemma SortStart(reg: Registry, s: set<Uid>, inDegree: map<Uid, nat>)
    requires inDegree == map n | n in s :: |Waiting(reg, s, [], n)|
    ensures Sorting(reg, s, [], Ascending(set n | n in s && inDegree[n] == 0), inDegree)
  {
    var zero := set n | n in s && inDegree[n] == 0;
    AscendingElements(zero);
    AscendingSorted(zero);
  }

  /** Once the queue is empty, everything is placed or the rest is a knot. */
  lemma SortEnd(reg: Registry, s: set<Uid>, topo: seq<Uid>, inDegree: map<Uid, nat>)
    requires Sorting(reg, s, topo, [], inDegree)
    ensures |topo| == |s| <==> Acyclic(reg, s)
    ensures |topo| <= |s|
    ensures |topo| == |s| ==> TopoOrder(reg, s, topo)
  {
    var rest := Unplaced(s, topo);
    ElementsSize(topo);
    assert s == Elements(topo) + rest;
    if rest == {} {
      OrderGivesRank(reg, s, topo);
    } else if Acyclic(reg, s) {
      var rank :| RanksMembers(reg, s, rank);
      forall m | m in rest ensures exists d :: d in reg.DepsOf(m) && d in rest {
        assert Waiting(reg, s, topo, m) != {};
        var d :| d in Waiting(reg, s, topo, m);
        assert d in rest;
      }
      var n :| n in rest;
      NoKnot(reg, s, rest, rank, n);
    }
  }

  /** Take the front of the queue and release its subscribers, in ascending order. */
  method PlaceNext(reg: Registry, s: set<Uid>, ghost topo: seq<Uid>, queue: seq<Uid>, inDegree: map<Uid, nat>)
    returns (queue': seq<Uid>, inDegree': map<Uid, nat>)
    requires Related(reg) && Sorting(reg, s, topo, queue, inDegree) && queue != []
    ensures Sorting(reg, s, topo + [queue[0]], queue', inDegree')
  {
    var n := queue[0];
    var next := Ascending(reg.SubsOf(n) * s);
    AscendingElements(reg.SubsOf(n) * s);
    AscendingSorted(reg.SubsOf(n) * s);
    forall m | m in next ensures m in inDegree && inDegree[m] > 0 {
      SubscribersWait(reg, s, topo, queue, inDegree, m);
    }
    inDegree', queue' := Release(next, inDegree, queue[1..]);
    SortStep(reg, s, topo, queue, inDegree, next, inDegree');
  }

  lemma UnplacedShrinks(reg: Registry, s: set<Uid>, topo: seq<Uid>, queue: seq<Uid>, inDegree: map<Uid, nat>)
    requires Sorting(reg, s, topo, queue, inDegree) && queue != []
    ensures |Unplaced(s, topo + [queue[0]])| < |Unplaced(s, topo)|
  {
    assert queue[0] in queue;
    assert Unplaced(s, topo + [queue[0]]) == Unplaced(s, topo) - {queue[0]};
  }

  /** Kahn's sort: a topological permutation of the members exactly when they are duplicate-free
      and have no dependency cycle. */
  method KahnSort(members: seq<Uid>, reg: Registry) returns (order: Option<seq<Uid>>)
    requires Related(reg)
    ensures order.Some? <==> Distinct(members) && Acyclic(reg, Elements(members))
    ensures order.Some? ==> |order.value| == |members| && TopoOrder(reg, Elements(members), order.value)
  {
    var memberSet := Elements(members);
    var inDegree: map<Uid, nat> := map n | n in memberSet :: |Waiting(reg, memberSet, [], n)|;
    var queue := Ascending(set n | n in memberSet && inDegree[n] == 0);
    SortStart(reg, memberSet, inDegree);
    var topo: seq<Uid> := [];
    while queue != []
      invariant Sorting(reg, memberSet, topo, queue, inDegree)
      decreases |Unplaced(memberSet, topo)|
    {
      UnplacedShrinks(reg, memberSet, topo, queue, inDegree);
      var n := queue[0];
      queue, inDegree := PlaceNext(reg, memberSet, topo, queue, inDegree);
      topo := topo + [n];
    }
    SortEnd(reg, memberSet, topo, inDegree);
    ElementsSize(members);
    if |topo| != |members| { return None; }
    order := Some(topo);
  }
}
