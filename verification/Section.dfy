/** Building the section that is stabilised: which nodes belong to it and which pin its boundary. */
module Section {
  import opened Base
  import opened Ternary
  import opened Isa
  import opened Deps
  import opened Propagation

  /** An external dependency, held at the version and value it has. */
  datatype BoundaryPin = BoundaryPin(uid: Uid, version: nat, value: T)

  datatype SectionRegion = SectionRegion(members: set<Uid>, boundary: map<Uid, BoundaryPin>)

  function PinOf(w: World, n: Uid): BoundaryPin
    requires n in w.nodes
  {
    BoundaryPin(n, w.nodes[n].version, w.nodes[n].value)
  }

  // ---- what a section is ---------------------------------------------------------------------

  /** Members exist and are seeds or Zero; members and boundary are disjoint; every pin is current and
      pins a dependency of a member. */
  ghost predicate SectionOk(w: World, seeds: seq<Uid>, r: SectionRegion) {
    && r.members !! r.boundary.Keys
    && (forall m :: m in r.members ==> m in w.nodes && (m in seeds || w.nodes[m].value == Zero))
    && forall n :: n in r.boundary ==> n in w.nodes && r.boundary[n] == PinOf(w, n) && FeedsMember(w, r.members, n)
  }

  ghost predicate FeedsMember(w: World, members: set<Uid>, n: Uid) { exists m :: m in members && n in w.reg.DepsOf(m) }

  /** Every existing dependency of a member is a member or pinned. */
  ghost predicate Covered(w: World, r: SectionRegion) {
    forall m, d :: m in r.members && d in w.reg.DepsOf(m) && d in w.nodes ==> d in r.members || d in r.boundary
  }

  /** s holds the existing seeds and, with a node, its Zero dependencies. */
  ghost predicate ZeroClosed(w: World, seeds: seq<Uid>, s: set<Uid>) {
    && (forall n :: n in seeds && n in w.nodes ==> n in s)
    && forall m, d :: m in s && d in w.reg.DepsOf(m) && d in w.nodes && w.nodes[d].value == Zero ==> d in s
  }

  // ---- the search -------------------------------------------------------------------------------

  datatype Entry = Entry(id: Uid, seed: bool)

  function Seeded(seeds: seq<Uid>): (q: seq<Entry>)
    ensures |q| == |seeds| && forall i :: 0 <= i < |seeds| ==> q[i] == Entry(seeds[i], true)
  {
    seq(|seeds|, i requires 0 <= i < |seeds| => Entry(seeds[i], true))
  }

  /** Seeds come first, are seeds, and are all served before anything is pinned; others feed a
      member. */
  ghost predicate QueueOk(w: World, seeds: seq<Uid>, r: SectionRegion, q: seq<Entry>) {
    && (forall i :: 0 <= i < |q| && q[i].seed ==> q[i].id in seeds && r.boundary == map[])
    && (forall i, j :: 0 <= i < j < |q| && q[j].seed ==> q[i].seed)
    && forall i :: 0 <= i < |q| && !q[i].seed ==> FeedsMember(w, r.members, q[i].id)
  }

  /** Nothing is lost: what is not classified yet is queued. */
  ghost predicate Accounted(w: World, seeds: seq<Uid>, r: SectionRegion, q: seq<Entry>) {
    && (forall n :: n in seeds && n in w.nodes ==> n in r.members || Entry(n, true) in q)
    && forall m, d :: m in r.members && d in w.reg.DepsOf(m) && d in w.nodes ==>
         d in r.members || d in r.boundary || Entry(d, false) in q
  }

  /** No pin is Zero while the search runs, and the members stay below every closed set. */
  ghost predicate Minimal(w: World, seeds: seq<Uid>, r: SectionRegion) {
    && (forall n :: n in r.boundary ==> n in w.nodes && w.nodes[n].value != Zero)
    && forall s: set<Uid> :: ZeroClosed(w, seeds, s) ==> r.members <= s
  }

  ghost predicate Searching(w: World, seeds: seq<Uid>, r: SectionRegion, q: seq<Entry>) {
    SectionOk(w, seeds, r) && QueueOk(w, seeds, r, q) && Accounted(w, seeds, r, q) && Minimal(w, seeds, r)
  }

  lemma SearchStarts(w: World, seeds: seq<Uid>)
    ensures Searching(w, seeds, SectionRegion({}, map[]), Seeded(seeds))
  {
    forall n | n in seeds ensures Entry(n, true) in Seeded(seeds) {
      var i :| 0 <= i < |seeds| && seeds[i] == n;
      assert Seeded(seeds)[i] == Entry(n, true);
    }
  }

  /** The front entry is classified already or does not exist. */
  lemma SkipFront(w: World, seeds: seq<Uid>, r: SectionRegion, q: seq<Entry>)
    requires Searching(w, seeds, r, q) && q != []
    requires q[0].id in r.members || q[0].id in r.boundary || q[0].id !in w.nodes
    ensures Searching(w, seeds, r, q[1..])
  {
    assert forall e :: e in q ==> e == q[0] || e in q[1..];
    var rest := q[1..];
    forall i | 0 <= i < |rest| ensures rest[i] == q[i + 1] {}
    assert QueueOk(w, seeds, r, rest);
  }

  /** The front entry is no seed and not Zero: it pins the boundary. */
  lemma PinFront(w: World, seeds: seq<Uid>, r: SectionRegion, q: seq<Entry>)
    requires Searching(w, seeds, r, q) && q != [] && !q[0].seed
    requires q[0].id in w.nodes && w.nodes[q[0].id].value != Zero && q[0].id !in r.members && q[0].id !in r.boundary
    ensures Searching(w, seeds, r.(boundary := r.boundary[q[0].id := PinOf(w, q[0].id)]), q[1..])
  {
    var r' := r.(boundary := r.boundary[q[0].id := PinOf(w, q[0].id)]);
    var rest := q[1..];
    forall i | 0 <= i < |rest| ensures rest[i] == q[i + 1] && !rest[i].seed { assert !q[0].seed; }
    assert forall e :: e in q ==> e == q[0] || e in rest;
    assert QueueOk(w, seeds, r', rest);
    assert Accounted(w, seeds, r', rest);
  }

  /** The front entry becomes a member; the listed dependencies are queued behind the rest. */
  lemma JoinFront(w: World, seeds: seq<Uid>, r: SectionRegion, q: seq<Entry>, found: seq<Uid>)
    requires Searching(w, seeds, r, q) && q != [] && q[0].id in w.nodes && q[0].id !in r.members && q[0].id !in r.boundary
    requires q[0].seed || w.nodes[q[0].id].value == Zero
    requires var n := q[0].id;
      forall d :: d in found <==> d in w.reg.DepsOf(n) && d !in r.members + {n} && d !in r.boundary
    ensures Searching(w, seeds, r.(members := r.members + {q[0].id}), q[1..] + Unseeded(found))
  {
    var n := q[0].id;
    JoinOk(w, seeds, r, q);
    JoinQueue(w, seeds, r, q, found);
    JoinAccounted(w, seeds, r, q, found);
    JoinMinimal(w, seeds, r, q);
  }

  function Unseeded(ids: seq<Uid>): (q: seq<Entry>)
    ensures |q| == |ids| && forall i :: 0 <= i < |ids| ==> q[i] == Entry(ids[i], false)
  {
    seq(|ids|, i requires 0 <= i < |ids| => Entry(ids[i], false))
  }

  lemma FeedsMore(w: World, members: set<Uid>, n: Uid, d: Uid)
    requires FeedsMember(w, members, d)
    ensures FeedsMember(w, members + {n}, d)
  {
    var m :| m in members && d in w.reg.DepsOf(m);
    assert m in members + {n};
  }

  lemma JoinOk(w: World, seeds: seq<Uid>, r: SectionRegion, q: seq<Entry>)
    requires Searching(w, seeds, r, q) && q != [] && q[0].id in w.nodes && q[0].id !in r.boundary
    requires q[0].seed || w.nodes[q[0].id].value == Zero
    ensures SectionOk(w, seeds, r.(members := r.members + {q[0].id}))
  {
    forall b | b in r.boundary ensures FeedsMember(w, r.members + {q[0].id}, b) { FeedsMore(w, r.members, q[0].id, b); }
  }

  lemma JoinQueue(w: World, seeds: seq<Uid>, r: SectionRegion, q: seq<Entry>, found: seq<Uid>)
    requires Searching(w, seeds, r, q) && q != [] && forall d :: d in found ==> d in w.reg.DepsOf(q[0].id)
    ensures QueueOk(w, seeds, r.(members := r.members + {q[0].id}), q[1..] + Unseeded(found))
  {
    var n, q', members := q[0].id, q[1..] + Unseeded(found), r.members + {q[0].id};
    forall i | 0 <= i < |q'|
      ensures i < |q| - 1 ==> q'[i] == q[i + 1]
      ensures i >= |q| - 1 ==> q'[i] == Entry(found[i - (|q| - 1)], false)
    {}
    forall i | 0 <= i < |q'| && !q'[i].seed ensures FeedsMember(w, members, q'[i].id) {
      if i < |q| - 1 {
        FeedsMore(w, r.members, n, q[i + 1].id);
      } else {
        assert found[i - (|q| - 1)] in found;
        assert n in members;
      }
    }
  }

  lemma JoinAccounted(w: World, seeds: seq<Uid>, r: SectionRegion, q: seq<Entry>, found: seq<Uid>)
    requires Searching(w, seeds, r, q) && q != []
    requires var n := q[0].id;
      forall d :: d in w.reg.DepsOf(n) && d !in r.members + {n} && d !in r.boundary ==> d in found
    ensures Accounted(w, seeds, r.(members := r.members + {q[0].id}), q[1..] + Unseeded(found))
  {
    var n, q' := q[0].id, q[1..] + Unseeded(found);
    forall e | e in q && e.id != n ensures e in q' {
      assert e in q[1..];
    }
    forall d | d in found ensures Entry(d, false) in q' {
      var k :| 0 <= k < |found| && found[k] == d;
      assert q'[|q| - 1 + k] == Entry(d, false);
    }
  }

  lemma JoinMinimal(w: World, seeds: seq<Uid>, r: SectionRegion, q: seq<Entry>)
    requires Searching(w, seeds, r, q) && q != [] && q[0].id in w.nodes && (q[0].seed || w.nodes[q[0].id].value == Zero)
    ensures Minimal(w, seeds, r.(members := r.members + {q[0].id}))
  {
    forall s: set<Uid> | ZeroClosed(w, seeds, s) ensures r.members + {q[0].id} <= s {
      if !q[0].seed {
        var m :| m in r.members && q[0].id in w.reg.DepsOf(m);
        assert m in s;
      }
    }
  }

  /** The dependencies that are not classified yet, in ascending order. */
  function Unclassified(ids: seq<Uid>, r: SectionRegion): (found: seq<Uid>)
    ensures forall d :: d in found <==> d in ids && d !in r.members && d !in r.boundary
  {
    if ids == [] then []
    else
      var last := ids[|ids| - 1];
      assert ids == ids[..|ids| - 1] + [last];
      Unclassified(ids[..|ids| - 1], r) + (if last in r.members || last in r.boundary then [] else [last])
  }

  lemma UnclassifiedNext(ids: seq<Uid>, i: nat, r: SectionRegion)
    requires i < |ids|
    ensures var found, skip := Unclassified(ids[..i], r), ids[i] in r.members || ids[i] in r.boundary;
      Unseeded(Unclassified(ids[..i + 1], r)) == Unseeded(found) + (if skip then [] else [Entry(ids[i], false)])
  {
    assert ids[..i + 1][..i] == ids[..i];
    var found := Unclassified(ids[..i], r);
    if ids[i] in r.members || ids[i] in r.boundary {
      assert found + [] == found && Unseeded(found) + [] == Unseeded(found);
    } else {
      assert Unseeded(found + [ids[i]]) == Unseeded(found) + [Entry(ids[i], false)];
    }
  }

  method QueueDeps(ids: seq<Uid>, r: SectionRegion, queue: seq<Entry>) returns (queue': seq<Entry>)
    ensures queue' == queue + Unseeded(Unclassified(ids, r))
  {
    queue' := queue;
    assert queue + Unseeded([]) == queue;
    for i := 0 to |ids|
      invariant queue' == queue + Unseeded(Unclassified(ids[..i], r))
    {
      UnclassifiedNext(ids, i, r);
      hide Unclassified, Unseeded;
      if ids[i] !in r.members && ids[i] !in r.boundary { queue' := queue' + [Entry(ids[i], false)]; }
    }
    assert ids[..|ids|] == ids;
  }

  /** The breadth-first search from the seeds: within the budget, either the queue ran dry or the
      budget is spent. */
  method Search(seeds: seq<Uid>, w: World, maxMembers: nat) returns (r: SectionRegion)
    ensures |r.members| <= maxMembers && SectionOk(w, seeds, r) && Minimal(w, seeds, r)
    ensures |r.members| < maxMembers ==> Covered(w, r) && ZeroClosed(w, seeds, r.members)
  {
    r := SectionRegion({}, map[]);
    var queue := Seeded(seeds);
    SearchStarts(w, seeds);
    while queue != []
      invariant |r.members| <= maxMembers && Searching(w, seeds, r, queue)
      decreases maxMembers - |r.members|, |queue|
    {
      var nid := queue[0].id;
      if nid in r.members || nid in r.boundary || nid !in w.nodes {
        SkipFront(w, seeds, r, queue);
        queue := queue[1..];
        continue;
      }
      var node := w.nodes[nid];
      if !queue[0].seed && node.value != Zero {
        PinFront(w, seeds, r, queue);
        r := r.(boundary := r.boundary[nid := BoundaryPin(nid, node.version, node.value)]);
        queue := queue[1..];
        continue;
      }
      if |r.members| >= maxMembers { return; }
      r, queue := JoinSection(w, seeds, r, queue);
    }
    SearchEnds(w, seeds, r);
  }

  /** Take the front node into the section and queue its unclassified dependencies. */
  method JoinSection(w: World, ghost seeds: seq<Uid>, r: SectionRegion, queue: seq<Entry>) returns (r': SectionRegion, queue': seq<Entry>)
    requires Searching(w, seeds, r, queue) && queue != [] && queue[0].id in w.nodes
    requires queue[0].id !in r.members && queue[0].id !in r.boundary && (queue[0].seed || w.nodes[queue[0].id].value == Zero)
    ensures r' == r.(members := r.members + {queue[0].id}) && Searching(w, seeds, r', queue')
  {
    var nid := queue[0].id;
    r' := r.(members := r.members + {nid});
    var depIds := Ascending(w.reg.DepsOf(nid));
    AscendingElements(w.reg.DepsOf(nid));
    queue' := QueueDeps(depIds, r', queue[1..]);
    JoinFront(w, seeds, r, queue, Unclassified(depIds, r'));
  }

  lemma SearchEnds(w: World, seeds: seq<Uid>, r: SectionRegion)
    requires Searching(w, seeds, r, [])
    ensures Covered(w, r) && ZeroClosed(w, seeds, r.members)
  {}

  // ---- the remaining pins ------------------------------------------------------------------------

  /** r1 is r0 with more current pins for dependencies of members. */
  ghost predicate Pinned(w: World, seeds: seq<Uid>, r0: SectionRegion, r1: SectionRegion) {
    && r1.members == r0.members && SectionOk(w, seeds, r1)
    && forall n :: n in r0.boundary ==> n in r1.boundary && r1.boundary[n] == r0.boundary[n]
  }

  /** Pin the dependencies of one member that are not classified yet. */
  method PinDeps(w: World, ghost seeds: seq<Uid>, m: Uid, r: SectionRegion) returns (r': SectionRegion)
    requires SectionOk(w, seeds, r) && m in r.members
    ensures Pinned(w, seeds, r, r')
    ensures forall d :: d in w.reg.DepsOf(m) && d in w.nodes ==> d in r'.members || d in r'.boundary
    ensures Covered(w, r) ==> r' == r
  {
    r' := r;
    var ids := Ascending(w.reg.DepsOf(m));
    AscendingElements(w.reg.DepsOf(m));
    for i := 0 to |ids|
      invariant Pinned(w, seeds, r, r') && (Covered(w, r) ==> r' == r)
      invariant forall k :: 0 <= k < i && ids[k] in w.nodes ==> ids[k] in r'.members || ids[k] in r'.boundary
    {
      assert ids[i] in ids;
      if ids[i] !in r'.members && ids[i] !in r'.boundary && ids[i] in w.nodes {
        r' := r'.(boundary := r'.boundary[ids[i] := PinOf(w, ids[i])]);
      }
    }
  }

  method PinRest(w: World, ghost seeds: seq<Uid>, r: SectionRegion) returns (r': SectionRegion)
    requires SectionOk(w, seeds, r)
    ensures Pinned(w, seeds, r, r') && Covered(w, r') && (Covered(w, r) ==> r' == r)
  {
    r' := r;
    var ids := Ascending(r.members);
    AscendingElements(r.members);
    for i := 0 to |ids|
      invariant Pinned(w, seeds, r, r') && (Covered(w, r) ==> r' == r)
      invariant forall k, d :: 0 <= k < i && d in w.reg.DepsOf(ids[k]) && d in w.nodes ==> d in r'.members || d in r'.boundary
    {
      assert ids[i] in ids;
      r' := PinDeps(w, seeds, ids[i], r');
    }
    forall m, d | m in r'.members && d in w.reg.DepsOf(m) && d in w.nodes ensures d in r'.members || d in r'.boundary {
      assert m in ids;
    }
  }

  /** `build_section_region`: at most maxMembers members, disjoint from the boundary, each an existing
      seed or Zero; every existing dependency of a member is a member or pinned at its current value.
      The members lie in every set that holds the seeds and is closed under Zero dependencies, and
      unless the budget is spent they are the least such set and no pin is Zero. */
  method BuildSectionRegion(seeds: seq<Uid>, w: World, maxMembers: nat) returns (r: SectionRegion)
    ensures |r.members| <= maxMembers && SectionOk(w, seeds, r) && Covered(w, r)
    ensures forall s: set<Uid> :: ZeroClosed(w, seeds, s) ==> r.members <= s
    ensures |r.members| < maxMembers ==> ZeroClosed(w, seeds, r.members)
    ensures |r.members| < maxMembers ==> forall n :: n in r.boundary ==> r.boundary[n].value != Zero
  {
    var searched := Search(seeds, w, maxMembers);
    r := PinRest(w, seeds, searched);
  }
}
