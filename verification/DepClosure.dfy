/** The breadth-first dependency closure that names a region's members. */
module DepClosure {
  import opened Base
  import opened Deps

  /** n is at most `hops` dependency edges below root. */
  ghost predicate Within(reg: Registry, root: Uid, n: Uid, hops: nat)
    decreases hops
  {
    n == root || (hops > 0 && exists m :: n in reg.DepsOf(m) && Within(reg, root, m, hops - 1))
  }

  lemma {:induction false} WithinMore(reg: Registry, root: Uid, n: Uid, hops: nat)
    requires Within(reg, root, n, hops)
    ensures Within(reg, root, n, hops + 1)
    decreases hops
  {
    if n != root {
      var m :| n in reg.DepsOf(m) && Within(reg, root, m, hops - 1);
      WithinMore(reg, root, m, hops - 1);
    }
  }

  lemma WithinUpTo(reg: Registry, root: Uid, n: Uid, hops: nat, more: nat)
    requires Within(reg, root, n, hops) && hops <= more
    ensures Within(reg, root, n, more)
  {
    for k := hops to more
      invariant Within(reg, root, n, k)
    {
      WithinMore(reg, root, n, k);
    }
  }

  function Ids(queue: seq<(Uid, nat)>): (ids: seq<Uid>)
    ensures |ids| == |queue| && forall k :: 0 <= k < |queue| ==> ids[k] == queue[k].0
  {
    seq(|queue|, k requires 0 <= k < |queue| => queue[k].0)
  }

  function Tagged(ids: seq<Uid>, depth: nat): (items: seq<(Uid, nat)>)
    ensures |items| == |ids| && forall k :: 0 <= k < |ids| ==> items[k] == (ids[k], depth)
  {
    seq(|ids|, k requires 0 <= k < |ids| => (ids[k], depth))
  }

  function Unvisited(ids: seq<Uid>, visited: set<Uid>): seq<Uid> {
    if ids == [] then []
    else Unvisited(ids[..|ids| - 1], visited) + (if ids[|ids| - 1] in visited then [] else [ids[|ids| - 1]])
  }

  lemma {:induction false} UnvisitedElements(ids: seq<Uid>, visited: set<Uid>)
    ensures forall d :: d in Unvisited(ids, visited) <==> d in ids && d !in visited
    ensures Distinct(ids) ==> Distinct(Unvisited(ids, visited))
    decreases |ids|
  {
    if ids != [] {
      var front, last := ids[..|ids| - 1], ids[|ids| - 1];
      assert ids == front + [last];
      UnvisitedElements(front, visited);
      if Distinct(ids) {
        forall i | 0 <= i < |front| ensures front[i] != last { assert ids[i] == front[i] && ids[|front|] == last; }
        assert last !in front;
      }
    }
  }

  lemma UnvisitedNext(ids: seq<Uid>, visited: set<Uid>, k: nat)
    requires Distinct(ids) && k < |ids|
    ensures Unvisited(ids[..k + 1], visited) == Unvisited(ids[..k], visited) + (if ids[k] in visited then [] else [ids[k]])
    ensures ids[k] !in ids[..k] && Elements(ids[..k + 1]) == Elements(ids[..k]) + {ids[k]}
  {
    assert ids[..k + 1] == ids[..k] + [ids[k]] && ids[..k + 1][..k] == ids[..k];
  }

  /** Queue each dependency that is new, one hop further. */
  method VisitDeps(ids: seq<Uid>, depth: nat, queue: seq<(Uid, nat)>, visited: set<Uid>)
    returns (queue': seq<(Uid, nat)>, visited': set<Uid>)
    requires Distinct(ids)
    ensures queue' == queue + Tagged(Unvisited(ids, visited), depth)
    ensures visited' == visited + Elements(ids)
  {
    queue', visited' := queue, visited;
    for k := 0 to |ids|
      invariant queue' == queue + Tagged(Unvisited(ids[..k], visited), depth)
      invariant visited' == visited + Elements(ids[..k])
    {
      UnvisitedNext(ids, visited, k);
      if ids[k] !in visited' {
        visited' := visited' + {ids[k]};
        queue' := queue' + [(ids[k], depth)];
      }
    }
    assert ids[..|ids|] == ids;
  }

  /** Results and queue together list the visited nodes, each once. */
  ghost predicate Accounted(queue: seq<(Uid, nat)>, visited: set<Uid>, result: seq<Uid>, depth: map<Uid, nat>) {
    Distinct(result + Ids(queue)) && visited == Elements(result + Ids(queue)) == depth.Keys
  }

  /** `depth` records at which hop each visited node was first seen. */
  ghost predicate Recorded(reg: Registry, root: Uid, limit: nat, depth: map<Uid, nat>) {
    && root in depth && depth[root] == 0
    && forall n :: n in depth ==> depth[n] <= limit && Within(reg, root, n, depth[n])
  }

  /** The queue is in depth order, spanning at most one hop, and nothing visited is deeper. */
  ghost predicate Layered(queue: seq<(Uid, nat)>, depth: map<Uid, nat>) {
    && (forall k :: 0 <= k < |queue| ==> queue[k].0 in depth && depth[queue[k].0] == queue[k].1)
    && (forall j, k :: 0 <= j <= k < |queue| ==> queue[j].1 <= queue[k].1)
    && (queue != [] ==> forall n :: n in depth ==> depth[n] <= queue[0].1 + 1)
  }

  /** Results below the limit have all their dependencies visited at most one hop later. */
  ghost predicate Expanded(reg: Registry, limit: nat, result: seq<Uid>, depth: map<Uid, nat>) {
    forall n, d :: n in result && n in depth && depth[n] < limit && d in reg.DepsOf(n) ==> d in depth && depth[d] <= depth[n] + 1
  }

  ghost predicate Searching(reg: Registry, root: Uid, limit: nat, queue: seq<(Uid, nat)>, visited: set<Uid>,
                            result: seq<Uid>, depth: map<Uid, nat>) {
    && Accounted(queue, visited, result, depth) && Recorded(reg, root, limit, depth)
    && Layered(queue, depth) && Expanded(reg, limit, result, depth)
  }

  /** The depths with every found node recorded at `hops`. */
  ghost function Deepened(depth: map<Uid, nat>, found: seq<Uid>, hops: nat): (deeper: map<Uid, nat>)
    ensures deeper.Keys == depth.Keys + Elements(found)
    ensures forall d :: d in deeper ==> deeper[d] == if d in found then hops else depth[d]
  {
    depth + map d | d in found :: hops
  }

  lemma RecordedFound(reg: Registry, root: Uid, limit: nat, depth: map<Uid, nat>, n: Uid, found: seq<Uid>)
    requires Recorded(reg, root, limit, depth) && n in depth && depth[n] < limit
    requires forall d :: d in found ==> d in reg.DepsOf(n) && d !in depth
    ensures Recorded(reg, root, limit, Deepened(depth, found, depth[n] + 1))
  {
    forall d | d in found ensures Within(reg, root, d, depth[n] + 1) { assert Within(reg, root, n, depth[n]); }
  }

  lemma SearchStart(reg: Registry, root: Uid, limit: nat)
    ensures Searching(reg, root, limit, [(root, 0)], {root}, [], map[root := 0])
  {
    assert [] + Ids([(root, 0)]) == [root];
  }

  lemma TakeFront(queue: seq<(Uid, nat)>, visited: set<Uid>, result: seq<Uid>, depth: map<Uid, nat>)
    requires Accounted(queue, visited, result, depth) && queue != []
    ensures Accounted(queue[1..], visited, result + [queue[0].0], depth)
    ensures queue[0].0 in depth && queue[0].0 !in result
  {
    var all := result + Ids(queue);
    assert result + [queue[0].0] + Ids(queue[1..]) == all;
    assert all[|result|] == queue[0].0;
    forall i | 0 <= i < |result| ensures result[i] != queue[0].0 { assert all[i] == result[i]; }
  }

  lemma AppendFound(queue: seq<(Uid, nat)>, visited: set<Uid>, result: seq<Uid>, depth: map<Uid, nat>, found: seq<Uid>, hops: nat)
    requires Accounted(queue, visited, result, depth) && Distinct(found) && forall d :: d in found ==> d !in visited
    ensures Accounted(queue + Tagged(found, hops), visited + Elements(found), result, Deepened(depth, found, hops))
  {
    var all := result + Ids(queue);
    assert result + Ids(queue + Tagged(found, hops)) == all + found;
    forall i, j | 0 <= i < j < |all + found| ensures (all + found)[i] != (all + found)[j] {
      if i < |all| <= j { assert all[i] in all && (all + found)[j] in found; }
    }
  }

  /** Taking the front without expanding it: it sits at the limit. */
  lemma SearchAtLimit(reg: Registry, root: Uid, limit: nat, queue: seq<(Uid, nat)>, visited: set<Uid>,
                      result: seq<Uid>, depth: map<Uid, nat>)
    requires Searching(reg, root, limit, queue, visited, result, depth) && queue != [] && queue[0].1 >= limit
    ensures Searching(reg, root, limit, queue[1..], visited, result + [queue[0].0], depth)
  {
    TakeFront(queue, visited, result, depth);
    LayeredFront(queue, depth);
  }

  lemma LayeredFront(queue: seq<(Uid, nat)>, depth: map<Uid, nat>)
    requires Layered(queue, depth) && queue != []
    ensures Layered(queue[1..], depth)
  {}

  lemma LayeredFound(queue: seq<(Uid, nat)>, depth: map<Uid, nat>, found: seq<Uid>)
    requires Layered(queue, depth) && queue != [] && forall d :: d in found ==> d !in depth
    ensures Layered(queue[1..] + Tagged(found, queue[0].1 + 1), Deepened(depth, found, queue[0].1 + 1))
  {
    var hops := queue[0].1;
    var queue', depth' := queue[1..] + Tagged(found, hops + 1), Deepened(depth, found, hops + 1);
    forall k | 0 <= k < |queue'|
      ensures queue'[k].0 in depth' && depth'[queue'[k].0] == queue'[k].1 && hops <= queue'[k].1 <= hops + 1
      ensures k < |queue| - 1 ==> queue'[k] == queue[k + 1]
      ensures k >= |queue| - 1 ==> queue'[k].1 == hops + 1
    {
      if k < |queue| - 1 {
        assert queue[k + 1].0 in depth && queue[0].1 <= queue[k + 1].1;
      } else {
        assert queue'[k].0 == found[k - (|queue| - 1)];
      }
    }
  }

  lemma ExpandedFound(reg: Registry, limit: nat, result: seq<Uid>, depth: map<Uid, nat>, n: Uid, found: seq<Uid>)
    requires Expanded(reg, limit, result, depth) && n in depth
    requires forall m :: m in depth ==> depth[m] <= depth[n] + 1
    requires forall d :: d in found <==> d in reg.DepsOf(n) && d !in depth
    requires forall m :: m in result ==> m in depth
    ensures Expanded(reg, limit, result + [n], Deepened(depth, found, depth[n] + 1))
  {}

  /** Expanding the front. */
  lemma SearchStep(reg: Registry, root: Uid, limit: nat, queue: seq<(Uid, nat)>, visited: set<Uid>,
                   result: seq<Uid>, depth: map<Uid, nat>, found: seq<Uid>)
    requires Searching(reg, root, limit, queue, visited, result, depth) && queue != [] && queue[0].1 < limit
    requires Distinct(found) && forall d :: d in found <==> d in reg.DepsOf(queue[0].0) && d !in visited
    ensures Searching(reg, root, limit, queue[1..] + Tagged(found, queue[0].1 + 1), visited + Elements(found),
                      result + [queue[0].0], Deepened(depth, found, queue[0].1 + 1))
  {
    var (n, hops) := queue[0];
    TakeFront(queue, visited, result, depth);
    AppendFound(queue[1..], visited, result + [n], depth, found, hops + 1);
    LayeredFound(queue, depth, found);
    forall m | m in result ensures m in depth { assert m in result + Ids(queue); }
    ExpandedFound(reg, limit, result, depth, n, found);
    RecordedFound(reg, root, limit, depth, n, found);
  }

  /** Everything within the limit is found, no later than its distance. */
  lemma {:induction false} SearchComplete(reg: Registry, root: Uid, limit: nat, visited: set<Uid>, result: seq<Uid>,
                                          depth: map<Uid, nat>, n: Uid, hops: nat)
    requires Searching(reg, root, limit, [], visited, result, depth) && Within(reg, root, n, hops) && hops <= limit
    ensures n in result && n in depth && depth[n] <= hops
    decreases hops
  {
    assert result + Ids([]) == result;
    if n != root {
      var m :| n in reg.DepsOf(m) && Within(reg, root, m, hops - 1);
      SearchComplete(reg, root, limit, visited, result, depth, m, hops - 1);
      assert n in depth && n in visited;
    }
  }

  /** Every node the search can reach. */
  function Universe(reg: Registry, root: Uid): set<Uid> {
    {root} + set n, d | n in reg.deps && d in reg.deps[n] :: d
  }

  lemma WithinUniverse(reg: Registry, root: Uid, n: Uid, hops: nat)
    requires Within(reg, root, n, hops)
    ensures n in Universe(reg, root)
  {
    if n != root {
      var m :| n in reg.DepsOf(m) && Within(reg, root, m, hops - 1);
      assert m in reg.deps;
    }
  }

  /** Each step lists one more of finitely many nodes. */
  lemma SearchShrinks(reg: Registry, root: Uid, limit: nat, queue: seq<(Uid, nat)>, visited: set<Uid>,
                      result: seq<Uid>, depth: map<Uid, nat>)
    requires Searching(reg, root, limit, queue, visited, result, depth) && queue != []
    ensures |Universe(reg, root) - Elements(result + [queue[0].0])| < |Universe(reg, root) - Elements(result)|
  {
    var n := queue[0].0;
    TakeFront(queue, visited, result, depth);
    WithinUniverse(reg, root, n, depth[n]);
    var u := Universe(reg, root);
    assert u - Elements(result + [n]) == (u - Elements(result)) - {n};
  }

  /** Take the front of the queue; expand it unless it sits at the limit. */
  method SearchNext(reg: Registry, ghost root: Uid, limit: nat, queue: seq<(Uid, nat)>, visited: set<Uid>,
                    ghost result: seq<Uid>, ghost depth: map<Uid, nat>)
    returns (queue': seq<(Uid, nat)>, visited': set<Uid>, ghost depth': map<Uid, nat>)
    requires Searching(reg, root, limit, queue, visited, result, depth) && queue != []
    ensures Searching(reg, root, limit, queue', visited', result + [queue[0].0], depth')
  {
    var (node, hops) := queue[0];
    if hops >= limit {
      SearchAtLimit(reg, root, limit, queue, visited, result, depth);
      return queue[1..], visited, depth;
    }
    var ids := Ascending(reg.DepsOf(node));
    AscendingElements(reg.DepsOf(node));
    AscendingSorted(reg.DepsOf(node));
    UnvisitedElements(ids, visited);
    ghost var found := Unvisited(ids, visited);
    SearchStep(reg, root, limit, queue, visited, result, depth, found);
    queue', visited' := VisitDeps(ids, hops + 1, queue[1..], visited);
    assert visited' == visited + Elements(found);
    depth' := Deepened(depth, found, hops + 1);
  }

  /** `bfs_dep_closure`: every node within the depth limit, each listed once. */
  method BfsDepClosure(root: Uid, maxDepth: nat, reg: Registry) returns (result: seq<Uid>)
    ensures Distinct(result)
    ensures forall n :: n in result <==> Within(reg, root, n, maxDepth)
  {
    var visited := {root};
    var queue: seq<(Uid, nat)> := [(root, 0)];
    ghost var depth: map<Uid, nat> := map[root := 0];
    result := [];
    SearchStart(reg, root, maxDepth);
    while queue != []
      invariant Searching(reg, root, maxDepth, queue, visited, result, depth)
      decreases |Universe(reg, root) - Elements(result)|
    {
      SearchShrinks(reg, root, maxDepth, queue, visited, result, depth);
      var node := queue[0].0;
      queue, visited, depth := SearchNext(reg, root, maxDepth, queue, visited, result, depth);
      result := result + [node];
    }
    SearchEnd(reg, root, maxDepth, visited, result, depth);
  }

  lemma SearchEnd(reg: Registry, root: Uid, limit: nat, visited: set<Uid>, result: seq<Uid>, depth: map<Uid, nat>)
    requires Searching(reg, root, limit, [], visited, result, depth)
    ensures Distinct(result)
    ensures forall n :: n in result <==> Within(reg, root, n, limit)
  {
    assert result + Ids([]) == result;
    forall n ensures n in result <==> Within(reg, root, n, limit) {
      if n in result { WithinUpTo(reg, root, n, depth[n], limit); }
      if Within(reg, root, n, limit) { SearchComplete(reg, root, limit, visited, result, depth, n, limit); }
    }
  }
}
