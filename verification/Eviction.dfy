/** Which compiled artifacts an instruction keeps: the ones whose contract tracks the topology go when a node they
    cover is edited, so that the columns of those that stay are their members' present dependencies. */
module Eviction {
  import opened Base
  import opened Bits
  import opened Ternary
  import opened Time
  import opened Isa
  import opened ValueStores
  import opened Deps
  import opened Propagation
  import opened Draining
  import opened Coherence
  import opened Regions
  import opened RegionCompile
  import opened EngineModel
  import opened EngineValues
  import opened RegistryFacts
  import opened EngineInvariant
  import opened EngineRuns

  /** The root has an artifact, declared to follow the topology. */
  ghost predicate Tracked(c: RegionCache, root: Uid) {
    root in c.regions && root in c.contracts && c.contracts[root] == EpochTracked
  }

  /** The artifact is tracked and covers one of the nodes. */
  ghost predicate Covers(c: RegionCache, root: Uid, nodes: set<Uid>) {
    Tracked(c, root) && exists n :: n in nodes && n in c.regions[root].members
  }

  /** How often the root is listed as a reader of the slot. */
  ghost function Listings(c: RegionCache, dense: nat, root: Uid): nat { multiset(c.RootsOf(dense))[root] }

  // ---- what an edit evicts ---------------------------------------------------------------------

  /** Exactly the tracked artifacts that cover one of the nodes are gone, with their dirty flags and their entries
      under the slots they read; every other artifact keeps its region, its flag and its entries. */
  ghost predicate Lost(c: RegionCache, c': RegionCache, nodes: set<Uid>) {
    && c'.contracts == c.contracts
    && (forall root :: root in c'.regions <==> root in c.regions && !Covers(c, root, nodes))
    && (forall root :: root in c'.regions ==> c'.regions[root] == c.regions[root])
    && (forall root :: root in c'.dirty <==> root in c.dirty && !Covers(c, root, nodes))
    && forall dense, root :: Listings(c', dense, root) ==
         if Covers(c, root, nodes) && dense in c.regions[root].inputs then 0 else Listings(c, dense, root)
  }

  lemma {:induction false} WithoutCount(roots: seq<Uid>, gone: set<Uid>, root: Uid)
    ensures multiset(Without(roots, gone))[root] == if root in gone then 0 else multiset(roots)[root]
    decreases |roots|
  {
    if roots != [] {
      WithoutCount(roots[..|roots| - 1], gone, root);
      assert roots == roots[..|roots| - 1] + [roots[|roots| - 1]];
    }
  }

  lemma InvalidateLoses(c: RegionCache, node: Uid)
    ensures Lost(c, c.Invalidate(node), {node})
  {
    var c' := c.Invalidate(node);
    forall root ensures Covers(c, root, {node}) <==> root in c.Stale(node) {
      if root in c.Stale(node) { assert node in {node}; }
    }
    forall dense, root
      ensures Listings(c', dense, root) == if Covers(c, root, {node}) && dense in c.regions[root].inputs then 0 else Listings(c, dense, root)
    {
      if dense in c.inputTo { WithoutCount(c.inputTo[dense], c.Reading(c.Stale(node), dense), root); }
    }
    hide Covers;
  }

  lemma LostBoth(c: RegionCache, c1: RegionCache, c2: RegionCache, a: Uid, b: Uid)
    requires Lost(c, c1, {a}) && Lost(c1, c2, {b})
    ensures Lost(c, c2, {a, b})
  {
    forall root ensures Covers(c, root, {a, b}) <==> Covers(c, root, {a}) || Covers(c1, root, {b}) {
      if Covers(c, root, {a, b}) {
        assert a in {a} && b in {b};
      } else {
        assert a in {a, b} && b in {a, b};
      }
    }
    forall root | Covers(c1, root, {b}) ensures root in c.regions && c1.regions[root] == c.regions[root] {}
    hide Covers, Listings;
  }

  lemma LostNone(c: RegionCache)
    ensures Lost(c, c, {})
  {}

  /** The nodes an instruction edits: the ends of the edge it adds or removes, the node it removes. */
  ghost function Touched(e: EngineState, op: IsaOp): set<Uid> {
    match op
    case EdgeConnect(_, _, src, tgt, _) => if src in e.world.nodes && tgt in e.world.nodes then {src, tgt} else {}
    case DelEdge(id) => if id in e.edges && !e.edges[id].remote then {e.edges[id].src, e.edges[id].tgt} else {}
    case DelNode(id) => if RemoteAt(e, id) then {} else {id}
    case _ => {}
  }

  /** A remote edge ends at the node, so that deleting it is refused. */
  ghost predicate RemoteAt(e: EngineState, id: Uid) {
    exists edge :: edge in e.edges && (e.edges[edge].src == id || e.edges[edge].tgt == id) && e.edges[edge].remote
  }

  predicate Edits(op: IsaOp) { op.EdgeConnect? || op.DelEdge? || op.DelNode? }

  lemma ConnectLoses(e: EngineState, op: IsaOp)
    requires e.world.Wf() && op.EdgeConnect?
    ensures Lost(e.cache, ApplyGraph(e, op).e.cache, Touched(e, op))
  {
    if Touched(e, op) != {} {
      InvalidateLoses(e.cache, op.src);
      InvalidateLoses(e.cache.Invalidate(op.src), op.tgt);
      LostBoth(e.cache, e.cache.Invalidate(op.src), e.cache.Invalidate(op.src).Invalidate(op.tgt), op.src, op.tgt);
    } else {
      LostNone(e.cache);
    }
    hide Lost, Link, InferMode, RegionCache.Invalidate;
  }

  lemma DelEdgeLoses(e: EngineState, op: IsaOp)
    requires e.world.Wf() && op.DelEdge?
    ensures Lost(e.cache, ApplyGraph(e, op).e.cache, Touched(e, op))
  {
    if Touched(e, op) != {} {
      var src, tgt := e.edges[op.id].src, e.edges[op.id].tgt;
      InvalidateLoses(e.cache, src);
      InvalidateLoses(e.cache.Invalidate(src), tgt);
      LostBoth(e.cache, e.cache.Invalidate(src), e.cache.Invalidate(src).Invalidate(tgt), src, tgt);
    } else {
      LostNone(e.cache);
    }
    hide Lost, Unlink, RegionCache.Invalidate;
  }

  lemma RemoteIs(e: EngineState, id: Uid)
    ensures RemoteAt(e, id) <==> exists edge :: edge in Incident(e, id) && e.edges[edge].remote
  {
    if RemoteAt(e, id) {
      var edge :| edge in e.edges && (e.edges[edge].src == id || e.edges[edge].tgt == id) && e.edges[edge].remote;
      assert edge in Incident(e, id);
    }
  }

  lemma DelNodeLoses(e: EngineState, op: IsaOp)
    requires e.world.Wf() && op.DelNode?
    ensures Lost(e.cache, ApplyGraph(e, op).e.cache, Touched(e, op))
  {
    RemoteIs(e, op.id);
    InvalidateLoses(e.cache, op.id);
    LostNone(e.cache);
    hide Lost, RemoteAt, Incident, RemoveEdges, Registry.RemoveNode, RegionCache.Invalidate;
  }

  lemma TouchedSame(e: EngineState, op: IsaOp)
    requires Edits(op)
    ensures Touched(e.(events := []), op) == Touched(e, op)
  {
    assert RemoteAt(e.(events := []), op.id) == RemoteAt(e, op.id);
  }

  lemma GraphCall(e: EngineState, op: IsaOp, ch: Choices)
    requires Inv(e) && ChangesGraph(op)
    ensures e.(events := []).world.Wf() && Call(e, op, ch) == ApplyGraph(e.(events := []), op)
  {
    InvReady(e);
    hide Inv, ApplyGraph;
  }

  /** Whatever an edit does, exactly the tracked artifacts covering a node it touches go, with their flags and
      entries; pinned ones stay, and so does every artifact that covers no touched node. */
  lemma EditsEvict(e: EngineState, op: IsaOp, ch: Choices)
    requires Inv(e) && Edits(op)
    ensures Lost(e.cache, Call(e, op, ch).e.cache, Touched(e, op))
  {
    var e0 := e.(events := []);
    GraphCall(e, op, ch);
    TouchedSame(e, op);
    hide Inv, Lost, Touched, ApplyGraph, Call;
    if op.EdgeConnect? { ConnectLoses(e0, op); } else if op.DelEdge? { DelEdgeLoses(e0, op); } else { DelNodeLoses(e0, op); }
  }

  // ---- columns and dependencies -----------------------------------------------------------------

  /** Every row reads exactly the slots of its member's present dependencies. */
  ghost predicate Exact(w: World, r: Region) {
    r.Shaped() && forall i :: 0 <= i < r.Rows() ==> ReadsDeps(w, r.members[i], r.Deps(i))
  }

  ghost predicate Current(e: EngineState) {
    forall root :: Tracked(e.cache, root) ==> Exact(e.world, e.cache.regions[root])
  }

  ghost predicate SameSlot(w: World, w': World, d: Uid) {
    (d in w'.store.idx <==> d in w.store.idx) && (d in w.store.idx ==> w'.store.idx[d] == w.store.idx[d])
  }

  /** The node reads what it read, from the slots it read. */
  ghost predicate SameReads(w: World, w': World, m: Uid) {
    w'.reg.DepsOf(m) == w.reg.DepsOf(m) && forall d :: d in w.reg.DepsOf(m) ==> SameSlot(w, w', d)
  }

  lemma SameRow(w: World, w': World, m: Uid, cols: seq<nat>)
    requires SameReads(w, w', m) && ReadsDeps(w, m, cols)
    ensures ReadsDeps(w', m, cols)
  {
    forall c ensures c in cols <==> exists d :: d in w'.reg.DepsOf(m) && d in w'.store.idx && w'.store.idx[d] == c {
      if c in cols {
        var d :| d in w.reg.DepsOf(m) && d in w.store.idx && w.store.idx[d] == c;
        assert SameSlot(w, w', d);
      }
      if d :| d in w'.reg.DepsOf(m) && d in w'.store.idx && w'.store.idx[d] == c { assert SameSlot(w, w', d); }
    }
  }

  lemma ExactStays(w: World, w': World, r: Region)
    requires Exact(w, r) && forall m :: m in r.members ==> SameReads(w, w', m)
    ensures Exact(w', r)
  {
    forall i | 0 <= i < r.Rows() ensures ReadsDeps(w', r.members[i], r.Deps(i)) { SameRow(w, w', r.members[i], r.Deps(i)); }
    hide ReadsDeps, SameReads;
  }

  ghost predicate Slots(w: World) {
    forall n, m :: n in w.store.idx && m in w.store.idx && n != m ==> w.store.idx[n] != w.store.idx[m]
  }

  /** With one slot a node, a column tells whether its node is read. */
  lemma ColumnTells(w: World, m: Uid, d: Uid, cols: seq<nat>)
    requires Slots(w) && ReadsDeps(w, m, cols) && d in w.store.idx
    ensures w.store.idx[d] in cols <==> d in w.reg.DepsOf(m)
  {}

  /** A dependency gained or lost shows in the columns when it has a slot. */
  lemma DepsDiffer(w: World, w': World, m: Uid, d: Uid, cols: seq<nat>)
    requires Slots(w) && w'.store.idx == w.store.idx && ReadsDeps(w, m, cols) && d in w.store.idx
    requires d in w.reg.DepsOf(m) <==> d !in w'.reg.DepsOf(m)
    ensures !ReadsDeps(w', m, cols)
  {
    hide ReadsDeps;
    ColumnTells(w, m, d, cols);
    if ReadsDeps(w', m, cols) { ColumnTells(w', m, d, cols); }
  }

  /** Some row of a tracked artifact breaks. */
  lemma RowBreaks(e: EngineState, root: Uid, m: Uid)
    requires Tracked(e.cache, root) && e.cache.regions[root].Shaped() && m in e.cache.regions[root].members
    requires forall cols: seq<nat> :: Has(e.cache.regions[root], m, cols) ==> !ReadsDeps(e.world, m, cols)
    ensures !Current(e)
  {
    var r := e.cache.regions[root];
    var i :| 0 <= i < r.Rows() && r.members[i] == m;
    assert Has(r, m, r.Deps(i));
    hide ReadsDeps, Tracked;
  }

  /** One of the member's rows reads these columns. */
  ghost predicate Has(r: Region, m: Uid, cols: seq<nat>)
    requires r.Shaped()
  {
    exists i :: 0 <= i < r.Rows() && r.members[i] == m && r.Deps(i) == cols
  }

  // ---- one instruction ---------------------------------------------------------------------------------

  /** Some tracked artifact has a member that reads the node. */
  ghost predicate ReadByTracked(e: EngineState, id: Uid) {
    exists root, m :: TrackedReader(e, root, m, id)
  }

  ghost predicate TrackedReader(e: EngineState, root: Uid, m: Uid, id: Uid) {
    Tracked(e.cache, root) && m in e.cache.regions[root].members && id in e.world.reg.DepsOf(m)
  }

  ghost predicate CoveredByTracked(e: EngineState, id: Uid) {
    exists root :: Tracked(e.cache, root) && id in e.cache.regions[root].members
  }

  /** Some tracked artifact that does not cover the node has a member that reads it. */
  ghost predicate ReadFromOutside(e: EngineState, id: Uid) {
    exists root, m :: TrackedReader(e, root, m, id) && id !in e.cache.regions[root].members
  }

  /** The artifact the root has once it is declared again: the one just compiled, or else the one it had. */
  function Declared(e: EngineState, op: IsaOp, ch: Choices): Option<Region>
    requires op.RegionDeclare?
  {
    if op.compile == CompileEager && ch.compiled.Some? then ch.compiled
    else if op.root in e.cache.regions then Some(e.cache.regions[op.root]) else None
  }

  /** When an instruction leaves the columns of the tracked artifacts what their members read. Edges may come and
      go as they like. */
  ghost predicate KeepsColumns(e: EngineState, op: IsaOp, ch: Choices) {
    match op
    case NodeCreate(id, _, _, _) => !ReadByTracked(e, id)
    case Subscribe(source, subscriber) =>
      source in e.world.reg.DepsOf(subscriber) || source !in e.world.store.idx || !CoveredByTracked(e, subscriber)
    case DelNode(id) => RemoteAt(e, id) || id !in e.world.store.idx || !ReadFromOutside(e, id)
    case RegionDeclare(_, _, stability, _) =>
      stability == EpochTracked && Declared(e, op, ch).Some? ==> Exact(e.world, Declared(e, op, ch).value)
    case _ => true
  }

  lemma InvSlots(e: EngineState)
    requires Inv(e)
    ensures Slots(e.world)
  {}

  lemma CurrentStays(e: EngineState, e': EngineState)
    requires Current(e)
    requires forall root :: Tracked(e'.cache, root) ==> Tracked(e.cache, root) && e'.cache.regions[root] == e.cache.regions[root]
    requires forall root, m :: Tracked(e'.cache, root) && m in e'.cache.regions[root].members ==> SameReads(e.world, e'.world, m)
    ensures Current(e')
  {
    forall root | Tracked(e'.cache, root) ensures Exact(e'.world, e'.cache.regions[root]) {
      ExactStays(e.world, e'.world, e.cache.regions[root]);
    }
    hide Exact, SameReads;
  }

  // ---- nodes and subscriptions

  lemma CreateReads(e: EngineState, id: Uid, kind: NodeKind, m: Uid)
    requires id !in e.world.reg.DepsOf(m)
    ensures SameReads(e.world, CreateNode(e, id, kind).world, m)
  {}

  /** The fresh slot is in no column. */
  lemma CreateBreaks(e: EngineState, id: Uid, kind: NodeKind, root: Uid, m: Uid)
    requires Inv(e) && Current(e) && TrackedReader(e, root, m, id)
    ensures !Current(CreateNode(e, id, kind))
  {
    var e', r := CreateNode(e, id, kind), e.cache.regions[root];
    assert Placed(e.world, r);
    assert e'.cache == e.cache && e'.world.store.idx[id] == |e.world.store.cache| && id in e'.world.reg.DepsOf(m);
    forall cols: seq<nat> | Has(r, m, cols) ensures !ReadsDeps(e'.world, m, cols) {
      assert |e.world.store.cache| !in cols;
    }
    RowBreaks(e', root, m);
  }

  lemma CreateExactly(e: EngineState, id: Uid, kind: NodeKind)
    requires Inv(e) && Current(e)
    ensures Current(CreateNode(e, id, kind)) <==> !ReadByTracked(e, id)
  {
    var e' := CreateNode(e, id, kind);
    if ReadByTracked(e, id) {
      var root, m :| TrackedReader(e, root, m, id);
      CreateBreaks(e, id, kind, root, m);
    } else {
      forall root, m | Tracked(e'.cache, root) && m in e'.cache.regions[root].members ensures SameReads(e.world, e'.world, m) {
        assert !TrackedReader(e, root, m, id);
        CreateReads(e, id, kind, m);
      }
      CurrentStays(e, e');
    }
    hide Current, SameReads, Inv;
  }

  lemma SubscribeReads(w: World, src: Uid, sub: Uid, m: Uid)
    requires w.store.Shaped()
    ensures var w' := Link(w, src, sub);
      w'.store == w.store && w'.reg.DepsOf(m) == if m == sub then w.reg.DepsOf(m) + {src} else w.reg.DepsOf(m)
  {}

  lemma SubscribeExactly(e: EngineState, src: Uid, sub: Uid)
    requires Inv(e) && Current(e)
    ensures Current(e.(world := Link(e.world, src, sub))) <==>
      src in e.world.reg.DepsOf(sub) || src !in e.world.store.idx || !CoveredByTracked(e, sub)
  {
    InvSlots(e);
    InvReady(e);
    var w, w' := e.world, Link(e.world, src, sub);
    var e' := e.(world := w');
    SubscribeReads(w, src, sub, sub);
    if src !in w.reg.DepsOf(sub) && src in w.store.idx && CoveredByTracked(e, sub) {
      var root :| Tracked(e.cache, root) && sub in e.cache.regions[root].members;
      var r := e.cache.regions[root];
      assert Exact(w, r);
      forall cols: seq<nat> | Has(r, sub, cols) ensures !ReadsDeps(w', sub, cols) { DepsDiffer(w, w', sub, src, cols); }
      RowBreaks(e', root, sub);
    } else {
      forall root | Tracked(e'.cache, root) ensures Exact(w', e'.cache.regions[root]) {
        SubscribedRows(e, root, src, sub);
      }
    }
    hide Inv, Link;
  }

  lemma SubscribedRows(e: EngineState, root: Uid, src: Uid, sub: Uid)
    requires e.world.store.Shaped() && Current(e) && Tracked(e.cache, root)
    requires src in e.world.reg.DepsOf(sub) || src !in e.world.store.idx || !CoveredByTracked(e, sub)
    ensures Exact(Link(e.world, src, sub), e.cache.regions[root])
  {
    var w, w', r := e.world, Link(e.world, src, sub), e.cache.regions[root];
    forall i | 0 <= i < r.Rows() ensures ReadsDeps(w', r.members[i], r.Deps(i)) {
      var m := r.members[i];
      SubscribeReads(w, src, sub, m);
      assert m in r.members && ReadsDeps(w, m, r.Deps(i));
      assert forall d :: d in w.store.idx ==> (d in w'.reg.DepsOf(m) <==> d in w.reg.DepsOf(m));
    }
    hide Link;
  }

  // ---- edits

  /** After an edit the tracked artifacts are those that cover no touched node. */
  lemma LostTracked(c: RegionCache, c': RegionCache, nodes: set<Uid>)
    requires Lost(c, c', nodes)
    ensures forall root :: Tracked(c', root) <==> Tracked(c, root) && !Covers(c, root, nodes)
    ensures forall root :: Tracked(c', root) ==> c'.regions[root] == c.regions[root]
  {
    hide Listings, Covers;
  }

  lemma UncoveredMember(c: RegionCache, root: Uid, nodes: set<Uid>, m: Uid)
    requires Tracked(c, root) && !Covers(c, root, nodes) && m in c.regions[root].members
    ensures m !in nodes
  {}

  /** An edit that changes only what the nodes it touches read keeps the columns. */
  lemma EditedStays(e: EngineState, e': EngineState, nodes: set<Uid>)
    requires Current(e) && Lost(e.cache, e'.cache, nodes) && e'.world.store.idx == e.world.store.idx
    requires forall m :: m !in nodes ==> e'.world.reg.DepsOf(m) == e.world.reg.DepsOf(m)
    ensures Current(e')
  {
    LostTracked(e.cache, e'.cache, nodes);
    forall root, m | Tracked(e'.cache, root) && m in e'.cache.regions[root].members ensures SameReads(e.world, e'.world, m) {
      UncoveredMember(e.cache, root, nodes, m);
    }
    hide Current, Lost, Covers;
    CurrentStays(e, e');
  }

  lemma ConnectStays(e: EngineState, op: IsaOp)
    requires e.world.Wf() && Current(e) && op.EdgeConnect?
    ensures Current(ApplyGraph(e, op).e)
  {
    ConnectLoses(e, op);
    ConnectDeps(e, op);
    hide *;
    EditedStays(e, ApplyGraph(e, op).e, Touched(e, op));
  }

  lemma ConnectDeps(e: EngineState, op: IsaOp)
    requires e.world.Wf() && op.EdgeConnect?
    ensures var w' := ApplyGraph(e, op).e.world;
      w'.store.idx == e.world.store.idx && forall m :: m !in Touched(e, op) ==> w'.reg.DepsOf(m) == e.world.reg.DepsOf(m)
  {
    hide RegionCache.Invalidate;
  }

  lemma DelEdgeStays(e: EngineState, op: IsaOp)
    requires e.world.Wf() && Current(e) && op.DelEdge?
    ensures Current(ApplyGraph(e, op).e)
  {
    DelEdgeLoses(e, op);
    DelEdgeDeps(e, op);
    hide *;
    EditedStays(e, ApplyGraph(e, op).e, Touched(e, op));
  }

  lemma UnlinkReads(w: World, src: Uid, tgt: Uid, m: Uid)
    requires w.store.Shaped()
    ensures var w' := Unlink(w, src, tgt);
      w'.store == w.store && w'.reg.DepsOf(m) == if m == tgt then w.reg.DepsOf(m) - {src} else w.reg.DepsOf(m)
  {}

  lemma DelEdgeDeps(e: EngineState, op: IsaOp)
    requires e.world.Wf() && op.DelEdge?
    ensures var w' := ApplyGraph(e, op).e.world;
      w'.store.idx == e.world.store.idx && forall m :: m !in Touched(e, op) ==> w'.reg.DepsOf(m) == e.world.reg.DepsOf(m)
  {
    if Touched(e, op) != {} {
      var src, tgt := e.edges[op.id].src, e.edges[op.id].tgt;
      var w' := ApplyGraph(e, op).e.world;
      assert w' == Unlink(e.world, src, tgt) by { hide Unlink, RegionCache.Invalidate; }
      forall m | m !in Touched(e, op) ensures w'.reg.DepsOf(m) == e.world.reg.DepsOf(m) { UnlinkReads(e.world, src, tgt, m); }
      UnlinkReads(e.world, src, tgt, src);
    }
    hide Unlink, RegionCache.Invalidate;
  }

  // ---- removing a node

  lemma {:induction false} RemoveEdgesReads(e: EngineState, ids: seq<Uid>, id: Uid, m: Uid)
    requires e.world.store.Shaped() && m != id
    requires forall edge :: edge in ids && edge in e.edges ==> e.edges[edge].src == id || e.edges[edge].tgt == id
    ensures RemoveEdges(e, ids).world.reg.DepsOf(m) - {id} == e.world.reg.DepsOf(m) - {id}
    decreases |ids|
  {
    if ids != [] {
      var front, last := ids[..|ids| - 1], ids[|ids| - 1];
      assert ids == front + [last];
      var before := RemoveEdges(e, front);
      RemoveEdgesReads(e, front, id, m);
      if last in before.edges {
        assert before.edges[last] == e.edges[last] && last in ids;
        UnlinkReads(before.world, before.edges[last].src, before.edges[last].tgt, m);
      }
      hide Unlink;
    }
  }

  lemma RemoveNodeReads(reg: Registry, id: Uid, m: Uid)
    requires Related(reg)
    ensures reg.RemoveNode(id).DepsOf(m) == if m == id then {} else reg.DepsOf(m) - {id}
  {
    RelatedIsRelation(reg);
    RemoveNodeRelation(reg, id, Pairs(reg));
    forall s ensures s in reg.RemoveNode(id).DepsOf(m) <==> s in (if m == id then {} else reg.DepsOf(m) - {id}) {
      assert s in reg.RemoveNode(id).DepsOf(m) <==> (s, m) in Apart(Pairs(reg), id);
    }
    hide Registry.RemoveNode;
  }

  /** Removing a node takes it out of every dependency set. */
  lemma DeleteNodeReads(e: EngineState, id: Uid, m: Uid)
    requires Inv(e)
    ensures e.world.Wf()
    ensures DeleteNode(e, id).world.reg.DepsOf(m) == if m == id then {} else e.world.reg.DepsOf(m) - {id}
    ensures DeleteNode(e, id).world.store.idx == e.world.store.idx
  {
    InvReady(e);
    var ids := Ascending(Incident(e, id));
    AscendingElements(Incident(e, id));
    RemoveEdgesKeep(e, ids);
    var e1 := RemoveEdges(e, ids);
    InvRegistry(e1);
    RemoveNodeReads(e1.world.reg, id, m);
    if m != id { RemoveEdgesReads(e, ids, id, m); }
    assert DeleteNode(e, id).world.reg == e1.world.reg.RemoveNode(id) by { hide RemoveEdges, Registry.RemoveNode, RegionCache.Invalidate; }
    hide RemoveEdges, Registry.RemoveNode, RegionCache.Invalidate, Inv, Incident;
  }

  lemma DelNodeExactly(e: EngineState, op: IsaOp)
    requires Inv(e) && Current(e) && op.DelNode?
    ensures e.world.Wf() && (Current(ApplyGraph(e, op).e) <==> RemoteAt(e, op.id) || op.id !in e.world.store.idx || !ReadFromOutside(e, op.id))
  {
    InvReady(e);
    DelNodeIs(e, op);
    if RemoteAt(e, op.id) {
    } else if op.id in e.world.store.idx && ReadFromOutside(e, op.id) {
      var root, m :| TrackedReader(e, root, m, op.id) && op.id !in e.cache.regions[root].members;
      DelNodeBreaks(e, op, root, m);
    } else {
      DelNodeStays(e, op);
    }
    hide Inv, Current, ApplyGraph, ReadFromOutside, RemoteAt;
  }

  lemma DelNodeIs(e: EngineState, op: IsaOp)
    requires e.world.Wf() && op.DelNode?
    ensures var e' := ApplyGraph(e, op).e;
      if RemoteAt(e, op.id) then e' == e
      else e'.world == DeleteNode(e, op.id).world && e'.cache == DeleteNode(e, op.id).cache
  {
    RemoteIs(e, op.id);
    hide DeleteNode, RemoteAt, Incident;
  }

  lemma ReaderParts(e: EngineState, root: Uid, m: Uid, id: Uid)
    requires TrackedReader(e, root, m, id)
    ensures Tracked(e.cache, root) && root in e.cache.regions && m in e.cache.regions[root].members && id in e.world.reg.DepsOf(m)
    ensures id !in e.cache.regions[root].members ==> m != id && !Covers(e.cache, root, {id})
  {}

  lemma TouchedNode(e: EngineState, op: IsaOp)
    requires op.DelNode? && !RemoteAt(e, op.id)
    ensures Touched(e, op) == {op.id}
  {
    hide RemoteAt;
  }

  /** The reader outside keeps its artifact and loses the dependency. */
  lemma OutsideReader(e: EngineState, op: IsaOp, root: Uid, m: Uid)
    requires Inv(e) && op.DelNode? && !RemoteAt(e, op.id) && e.world.Wf()
    requires TrackedReader(e, root, m, op.id) && Tracked(e.cache, root) && op.id !in e.cache.regions[root].members
    ensures var e' := ApplyGraph(e, op).e;
      && Tracked(e'.cache, root) && root in e'.cache.regions && e'.cache.regions[root] == e.cache.regions[root]
      && m in e.cache.regions[root].members
      && e'.world.store.idx == e.world.store.idx && op.id in e.world.reg.DepsOf(m) && op.id !in e'.world.reg.DepsOf(m)
  {
    hide ApplyGraph, DeleteNode, Inv, Lost, RemoteAt, Touched, Covers, TrackedReader;
    ReaderParts(e, root, m, op.id);
    TouchedNode(e, op);
    DelNodeIs(e, op);
    DelNodeLoses(e, op);
    LostTracked(e.cache, ApplyGraph(e, op).e.cache, {op.id});
    DeleteNodeReads(e, op.id, m);
  }

  lemma RegionExact(e: EngineState, root: Uid)
    requires Current(e) && Tracked(e.cache, root)
    ensures Exact(e.world, e.cache.regions[root]) && e.cache.regions[root].Shaped()
  {}

  lemma ExactRow(w: World, r: Region, m: Uid, cols: seq<nat>)
    requires Exact(w, r) && Has(r, m, cols)
    ensures ReadsDeps(w, m, cols)
  {
    hide ReadsDeps;
  }

  lemma DelNodeBreaks(e: EngineState, op: IsaOp, root: Uid, m: Uid)
    requires Inv(e) && Current(e) && op.DelNode? && !RemoteAt(e, op.id) && op.id in e.world.store.idx && e.world.Wf()
    requires TrackedReader(e, root, m, op.id) && op.id !in e.cache.regions[root].members
    ensures !Current(ApplyGraph(e, op).e)
  {
    var e', r := ApplyGraph(e, op).e, e.cache.regions[root];
    InvSlots(e);
    assert Tracked(e.cache, root);
    hide *;
    OutsideReader(e, op, root, m);
    RegionExact(e, root);
    forall cols: seq<nat> | Has(r, m, cols) ensures !ReadsDeps(e'.world, m, cols) {
      ExactRow(e.world, r, m, cols);
      DepsDiffer(e.world, e'.world, m, op.id, cols);
    }
    RowBreaks(e', root, m);
  }

  lemma DelNodeStays(e: EngineState, op: IsaOp)
    requires Inv(e) && Current(e) && op.DelNode? && !RemoteAt(e, op.id) && e.world.Wf()
    requires op.id !in e.world.store.idx || !ReadFromOutside(e, op.id)
    ensures Current(ApplyGraph(e, op).e)
  {
    var e' := ApplyGraph(e, op).e;
    DelNodeIs(e, op);
    DelNodeLoses(e, op);
    LostTracked(e.cache, e'.cache, {op.id});
    forall root | Tracked(e'.cache, root) ensures Exact(e'.world, e'.cache.regions[root]) {
      UncoveredRows(e, e', op.id, root);
    }
    hide ApplyGraph, DeleteNode, Inv, Lost, RemoteAt, Exact;
  }

  /** The same dependencies among the nodes with slots give the same columns. */
  lemma SameColumns(w: World, w': World, m: Uid, cols: seq<nat>)
    requires ReadsDeps(w, m, cols) && w'.store.idx == w.store.idx
    requires forall d :: d in w.store.idx ==> (d in w'.reg.DepsOf(m) <==> d in w.reg.DepsOf(m))
    ensures ReadsDeps(w', m, cols)
  {}

  lemma UncoveredRow(e: EngineState, e': EngineState, id: Uid, root: Uid, m: Uid, cols: seq<nat>)
    requires Inv(e) && e.world.Wf() && e'.world == DeleteNode(e, id).world && ReadsDeps(e.world, m, cols)
    requires Tracked(e.cache, root) && m in e.cache.regions[root].members && id !in e.cache.regions[root].members
    requires id !in e.world.store.idx || !ReadFromOutside(e, id)
    ensures ReadsDeps(e'.world, m, cols)
  {
    assert id in e.world.store.idx ==> id !in e.world.reg.DepsOf(m) by {
      assert id in e.world.store.idx ==> !TrackedReader(e, root, m, id);
      hide Inv, DeleteNode;
    }
    hide *;
    DeleteNodeReads(e, id, m);
    SameColumns(e.world, e'.world, m, cols);
  }

  lemma UncoveredRows(e: EngineState, e': EngineState, id: Uid, root: Uid)
    requires Inv(e) && e.world.Wf() && Current(e) && e'.world == DeleteNode(e, id).world
    requires Tracked(e.cache, root) && !Covers(e.cache, root, {id}) && (id !in e.world.store.idx || !ReadFromOutside(e, id))
    ensures Exact(e'.world, e.cache.regions[root])
  {
    var r := e.cache.regions[root];
    RegionExact(e, root);
    forall m | m in r.members ensures m != id { UncoveredMember(e.cache, root, {id}, m); }
    forall i | 0 <= i < r.Rows() ensures ReadsDeps(e'.world, r.members[i], r.Deps(i)) {
      assert r.members[i] in r.members;
      UncoveredRow(e, e', id, root, r.members[i], r.Deps(i));
    }
    hide DeleteNode, Inv, Covers, ReadsDeps, ReadFromOutside, Tracked;
  }

  // ---- everything else

  lemma DeclareExactly(e: EngineState, op: IsaOp, ch: Choices)
    requires Current(e) && op.RegionDeclare?
    ensures Current(ApplyTables(e, op, ch).e) <==> KeepsColumns(e, op, ch)
  {
    var e', stability, r := ApplyTables(e, op, ch).e, op.stability, Declared(e, op, ch);
    assert e'.world == e.world;
    assert forall root :: root != op.root ==> (Tracked(e'.cache, root) <==> Tracked(e.cache, root));
    assert forall root :: root != op.root && Tracked(e.cache, root) ==> e'.cache.regions[root] == e.cache.regions[root];
    assert Tracked(e'.cache, op.root) <==> r.Some? && stability == EpochTracked;
    assert Tracked(e'.cache, op.root) ==> e'.cache.regions[op.root] == r.value;
    hide Exact, Tracked, ApplyTables, Declared;
  }

  lemma TablesStay(e: EngineState, op: IsaOp, ch: Choices)
    requires Current(e) && !ChangesGraph(op) && !MovesValues(op) && !op.RegionDeclare?
    ensures Current(ApplyTables(e, op, ch).e)
  {
    var e' := ApplyTables(e, op, ch).e;
    assert e'.cache == e.cache && e'.world.store == e.world.store && e'.world.reg.deps == e.world.reg.deps;
    hide ApplyTables;
    CurrentStays(e, e');
  }

  // ---- moving values leaves artifacts and contracts

  lemma {:induction false} ResolvedCache(e: EngineState, ids: seq<Uid>, v: T)
    requires e.world.Wf()
    ensures ResolveAll(e, ids, v).cache == e.cache
    decreases |ids|
  {
    if ids != [] {
      var before := ResolveAll(e, ids[..|ids| - 1], v);
      ResolvedCache(e, ids[..|ids| - 1], v);
      assert ResolveAll(e, ids, v) == ResolveOne(before, ids[|ids| - 1], v);
    }
    hide ResolveAll, PushSubs;
  }

  lemma StabilisedCache(e: EngineState, seeds: seq<Uid>, s: Stabilized)
    requires e.world.Wf()
    ensures Stabilise(e, seeds, s).cache == e.cache
  {
    DemandNegWf(e, Ascending(s.members));
    match s.verdict {
      case Settled(v) => if v.Some? { ResolvedCache(e, Ascending(s.members), v.value); }
      case _ =>
    }
    hide ResolveAll, DemandNeg;
  }

  lemma {:induction false} EachCache(e: EngineState, requests: seq<seq<Uid>>, answers: seq<Stabilized>)
    requires e.world.Wf()
    ensures StabiliseEach(e, requests, answers).cache == e.cache
    decreases |requests|
  {
    if requests != [] && answers != [] {
      StabilisedCache(e, requests[0], answers[0]);
      EachCache(Stabilise(e, requests[0], answers[0]), requests[1..], answers[1..]);
    }
    hide Stabilise;
  }

  lemma {:induction false} SettledCache(e: EngineState, auth: map<(Uid, Uid), Verdict>, rounds: seq<seq<Stabilized>>)
    requires e.world.Wf()
    ensures Settle(e, auth, rounds).e.cache == e.cache
    decreases |rounds|
  {
    DrainWf(QueueOf(e), e.now, auth, e.handled, e.maxSteps);
    var e1 := WithQueue(e, Drain(QueueOf(e), e.now, auth, e.handled, e.maxSteps).q);
    if rounds != [] {
      var e2 := e1.(events := WithoutRequests(e1.events));
      EachCache(e2, Requests(e1.events), rounds[0]);
      SettledCache(StabiliseEach(e2, Requests(e1.events), rounds[0]), auth, rounds[1..]);
    }
    hide Drain, StabiliseEach;
  }

  lemma {:induction false} RunCache(e: EngineState, roots: seq<Uid>)
    requires e.world.Wf() && CacheRunnable(e)
    ensures RunRegions(e, roots).cache == e.cache
    decreases |roots|
  {
    if roots != [] {
      RunCache(e, roots[..|roots| - 1]);
      RunRegionKeeps(RunRegions(e, roots[..|roots| - 1]), roots[|roots| - 1]);
    }
    hide RunRegion;
  }

  lemma DrainedCache(e: EngineState, ch: Choices)
    requires e.world.Wf() && CacheRunnable(e)
    ensures DrainAndStabilize(e, ch.roots, ch.auth, ch.rounds).e.cache == e.cache.(dirty := {})
  {
    var e1 := e.(cache := e.cache.(dirty := {}));
    RunCache(e1, ch.roots);
    var e2 := RunRegions(e1, ch.roots);
    SettledCache(e2.(dirtySlots := Cleared(|e2.dirtySlots|)), ch.auth, ch.rounds);
    hide RunRegions, Settle;
  }

  ghost predicate SameArtifacts(c: RegionCache, c': RegionCache) {
    c'.regions == c.regions && c'.contracts == c.contracts && c'.inputTo == c.inputTo
  }

  lemma ValuesCache(e: EngineState, op: IsaOp, ch: Choices)
    requires e.world.Wf() && CacheRunnable(e) && MovesValues(op)
    ensures SameArtifacts(e.cache, ApplyValues(e, op, ch).e.cache)
  {
    match op {
      case SetValue(node, v) =>
        if node in e.world.nodes && v != e.world.nodes[node].value {
          WriteValueReady(e, node, v);
          DrainedCache(WriteValue(e, node, v), ch);
          WrittenCache(e, node, v);
          hide WriteValue;
        }
      case Propagate(node) => DrainedCache(e.Enqueue(Push(node)).Log(Attribute), ch);
      case Demand(node) => DrainedCache(e.Enqueue(DemandItem(node)).Log(Attribute), ch);
      case Reflect(node) =>
        var e1 := e.Log(Attribute);
        if node in e.world.nodes {
          ReflectValueReady(e1, node);
          DrainedCache(ReflectValue(e1, node), ch);
          ReflectedCache(e1, node);
          hide ReflectValue;
        }
      case Stabilize(region) =>
        StabilisedCache(e, if region.Some? then region.value else Ascending(ZeroNodes(e.world)), ch.explicitRun);
        hide Stabilise;
    }
    hide DrainAndStabilize;
  }

  lemma WrittenCache(e: EngineState, node: Uid, v: T)
    requires e.world.Wf() && node in e.world.nodes
    ensures SameArtifacts(e.cache, WriteValue(e, node, v).cache)
  {}

  lemma ReflectedCache(e: EngineState, node: Uid)
    requires e.world.Wf() && node in e.world.nodes
    ensures SameArtifacts(e.cache, ReflectValue(e, node).cache)
  {}

  lemma DrainedMoves(e: EngineState, e1: EngineState, ch: Choices)
    requires Inv(e) && Inv(e1) && Moved(e, e1)
    ensures e1.world.Wf() && CacheRunnable(e1) && Moved(e, DrainAndStabilize(e1, ch.roots, ch.auth, ch.rounds).e)
  {
    DrainAndStabilizeKeeps(e1, ch);
    hide *;
    KeptMoves(e, e1, DrainAndStabilize(e1, ch.roots, ch.auth, ch.rounds).e);
  }

  lemma KeptMoves(e: EngineState, e1: EngineState, e2: EngineState)
    requires Moved(e, e1) && Kept(e1, e2)
    ensures Moved(e, e2)
  {
    MovedTransitive(e, e1, e2);
    hide Inv, Moved;
  }

  lemma EnqueuedMoves(e: EngineState, item: WorkItem)
    requires Inv(e)
    ensures Inv(e.Enqueue(item).Log(Attribute)) && Moved(e, e.Enqueue(item).Log(Attribute))
  {
    OnlyQueues(e, e.Enqueue(item));
    LogKeeps(e.Enqueue(item), Attribute);
  }

  lemma StabilisedMoves(e: EngineState, seeds: seq<Uid>, s: Stabilized)
    requires Inv(e)
    ensures e.world.Wf() && Moved(e, TakeEvents(Stabilise(e, seeds, s).Log(Egraph)).e)
  {
    StabiliseKeeps(e, seeds, s);
    hide Inv, Stabilise;
  }

  lemma ReflectedMoves(e: EngineState, node: Uid)
    requires Inv(e)
    ensures Inv(e.Log(Attribute)) && Moved(e, e.Log(Attribute)) && e.Log(Attribute).world.Wf()
    ensures node in e.world.nodes ==>
      Inv(ReflectValue(e.Log(Attribute), node)) && Moved(e, ReflectValue(e.Log(Attribute), node))
  {
    var e1 := e.Log(Attribute);
    LogKeeps(e, Attribute);
    InvReady(e1);
    if node in e.world.nodes {
      ReflectValueKeeps(e1, node);
      hide Inv, Moved, ReflectValue;
      MovedTransitive(e, e1, ReflectValue(e1, node));
    }
  }

  /** Moving values moves nothing else. */
  lemma ValuesMove(e: EngineState, op: IsaOp, ch: Choices)
    requires Inv(e) && e.world.Wf() && CacheRunnable(e) && MovesValues(op)
    ensures Moved(e, ApplyValues(e, op, ch).e)
  {
    MovedRefl(e);
    hide Inv, Moved, DrainAndStabilize, Stabilise, WriteValue, ReflectValue;
    match op {
      case SetValue(node, v) =>
        if node in e.world.nodes && v != e.world.nodes[node].value {
          WriteValueKeeps(e, node, v);
          DrainedMoves(e, WriteValue(e, node, v), ch);
        }
      case Propagate(node) =>
        EnqueuedMoves(e, Push(node));
        DrainedMoves(e, e.Enqueue(Push(node)).Log(Attribute), ch);
      case Demand(node) =>
        EnqueuedMoves(e, DemandItem(node));
        DrainedMoves(e, e.Enqueue(DemandItem(node)).Log(Attribute), ch);
      case Reflect(node) =>
        ReflectedMoves(e, node);
        if node in e.world.nodes { DrainedMoves(e, ReflectValue(e.Log(Attribute), node), ch); }
      case Stabilize(region) =>
        StabilisedMoves(e, if region.Some? then region.value else Ascending(ZeroNodes(e.world)), ch.explicitRun);
    }
  }

  lemma MovedStays(e: EngineState, e': EngineState)
    requires Current(e) && SameGraph(e.world, e'.world) && SameArtifacts(e.cache, e'.cache)
    ensures Current(e')
  {
    hide Current;
    CurrentStays(e, e');
  }

  lemma MovedGraph(e: EngineState, e': EngineState)
    requires Moved(e, e')
    ensures SameGraph(e.world, e'.world)
  {}

  lemma ValuesStay(e: EngineState, op: IsaOp, ch: Choices)
    requires Inv(e) && e.world.Wf() && CacheRunnable(e) && Current(e) && MovesValues(op)
    ensures Current(ApplyValues(e, op, ch).e)
  {
    hide Inv, Current, Moved, SameGraph, SameArtifacts, ApplyValues;
    ValuesCache(e, op, ch);
    ValuesMove(e, op, ch);
    MovedGraph(e, ApplyValues(e, op, ch).e);
    MovedStays(e, ApplyValues(e, op, ch).e);
  }

  // ---- the exact condition ------------------------------------------------------------------------------

  lemma CreateCase(e: EngineState, op: IsaOp)
    requires Inv(e) && e.world.Wf() && Current(e) && op.NodeCreate?
    ensures Current(ApplyGraph(e, op).e) <==> !ReadByTracked(e, op.id)
  {
    CreateExactly(e, op.id, op.kind);
    SameTables(CreateNode(e, op.id, op.kind), ApplyGraph(e, op).e);
    hide Inv, Current, CreateNode, ReadByTracked;
  }

  lemma SubscribeCase(e: EngineState, op: IsaOp)
    requires Inv(e) && e.world.Wf() && Current(e) && op.Subscribe?
    ensures Current(ApplyGraph(e, op).e) <==>
      op.source in e.world.reg.DepsOf(op.subscriber) || op.source !in e.world.store.idx || !CoveredByTracked(e, op.subscriber)
  {
    SubscribeExactly(e, op.source, op.subscriber);
    SameTables(e.(world := Link(e.world, op.source, op.subscriber)), ApplyGraph(e, op).e);
    hide Inv, Current, Link, CoveredByTracked;
  }

  lemma GraphExactly(e: EngineState, op: IsaOp, ch: Choices)
    requires Inv(e) && e.world.Wf() && Current(e) && ChangesGraph(op)
    ensures Current(ApplyGraph(e, op).e) <==> KeepsColumns(e, op, ch)
  {
    hide Inv, Current, ApplyGraph, RemoteAt, ReadFromOutside, ReadByTracked, CoveredByTracked;
    match op {
      case NodeCreate(_, _, _, _) => CreateCase(e, op);
      case EdgeConnect(_, _, _, _, _) => ConnectStays(e, op);
      case Subscribe(_, _) => SubscribeCase(e, op);
      case DelNode(_) => DelNodeExactly(e, op);
      case DelEdge(_) => DelEdgeStays(e, op);
    }
  }

  lemma SameTables(e: EngineState, e': EngineState)
    requires e'.world == e.world && e'.cache == e.cache
    ensures Current(e') <==> Current(e)
  {}

  lemma SameCondition(e: EngineState, op: IsaOp, ch: Choices)
    ensures KeepsColumns(e.(events := []), op, ch) <==> KeepsColumns(e, op, ch)
  {
    var e0 := e.(events := []);
    forall root, m, id ensures TrackedReader(e0, root, m, id) == TrackedReader(e, root, m, id) {}
    match op {
      case NodeCreate(id, _, _, _) => assert ReadByTracked(e0, id) == ReadByTracked(e, id);
      case Subscribe(_, subscriber) => assert CoveredByTracked(e0, subscriber) == CoveredByTracked(e, subscriber);
      case DelNode(id) => assert RemoteAt(e0, id) == RemoteAt(e, id) && ReadFromOutside(e0, id) == ReadFromOutside(e, id);
      case _ =>
    }
    hide TrackedReader;
  }

  /** An instruction leaves every tracked artifact reading exactly its members' present dependencies if and only
      if it is none of the exceptions: creating a node that a tracked member reads, subscribing a tracked member to
      a source it does not read, deleting a source of an artifact that does not cover it, or declaring a root tracked whose
      artifact does not read what its members do. */
  lemma KeepsCurrentExactly(e: EngineState, op: IsaOp, ch: Choices)
    requires Inv(e) && Current(e)
    ensures Current(Call(e, op, ch).e) <==> KeepsColumns(e, op, ch)
  {
    var e0 := e.(events := []);
    OnlyQueues(e, e0);
    InvReady(e);
    SameTables(e, e0);
    SameCondition(e, op, ch);
    hide Inv, Current, KeepsColumns, ApplyGraph, ApplyValues, ApplyTables;
    if ChangesGraph(op) {
      GraphExactly(e0, op, ch);
    } else if MovesValues(op) {
      ValuesStay(e0, op, ch);
      ValuesCondition(e0, op, ch);
    } else if op.RegionDeclare? {
      DeclareExactly(e0, op, ch);
    } else {
      TablesStay(e0, op, ch);
      TablesCondition(e0, op, ch);
    }
  }

  lemma ValuesCondition(e: EngineState, op: IsaOp, ch: Choices)
    requires MovesValues(op)
    ensures KeepsColumns(e, op, ch)
  {}

  lemma TablesCondition(e: EngineState, op: IsaOp, ch: Choices)
    requires !ChangesGraph(op) && !MovesValues(op) && !op.RegionDeclare?
    ensures KeepsColumns(e, op, ch)
  {}

  /** Over every run of such instructions from the empty engine, every tracked artifact reads exactly its members'
      present dependencies. */
  lemma RunsStayCurrent(states: seq<EngineState>, ops: seq<IsaOp>, choices: seq<Choices>)
    requires Run(states, ops, choices) && states[0] == EMPTY_ENGINE
    requires forall i :: 0 <= i < |ops| ==> KeepsColumns(states[i], ops[i], choices[i])
    ensures forall i :: 0 <= i < |states| ==> Current(states[i])
  {
    hide Inv, Current, KeepsColumns, Step, EMPTY_ENGINE;
    RunsKeep(states, ops, choices);
    EmptyCurrent();
    for k := 0 to |ops|
      invariant forall i :: 0 <= i <= k ==> Current(states[i])
    {
      StepStaysCurrent(states[k], ops[k], choices[k], states[k + 1]);
    }
  }

  lemma EmptyCurrent()
    ensures Current(EMPTY_ENGINE)
  {}

  lemma StepStaysCurrent(e: EngineState, op: IsaOp, ch: Choices, e': EngineState)
    requires Inv(e) && Current(e) && KeepsColumns(e, op, ch) && Step(e, op, ch, e')
    ensures Current(e')
  {
    KeepsCurrentExactly(e, op, ch);
    hide Inv, Current, KeepsColumns, Apply;
  }

  /** What `compile_region` delivers is exact when the members' dense lists are right. */
  lemma CompiledIsExact(w: World, members: seq<Uid>, r: Region)
    requires CompiledFrom(w, members, r) && Faithful(w, members)
    ensures Exact(w, r)
  {
    forall i | 0 <= i < r.Rows() ensures ReadsDeps(w, r.members[i], r.Deps(i)) {
      assert r.members[i] in r.members;
      RowReadsDeps(w, r.members[i], r.Deps(i));
    }
  }
}
