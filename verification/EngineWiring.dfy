/** Runs without subscriptions, stabilisation or compiled regions, with fresh ids and at most one
    edge per pair, keep the dense lists and the counters exact. */
module EngineWiring {
  import opened Base
  import opened Bits
  import opened Ternary
  import opened Time
  import opened Isa
  import opened ValueStores
  import opened Deps
  import opened Propagation
  import opened StepFacts
  import opened Draining
  import opened Coherence
  import opened Writes
  import opened EngineModel
  import opened EngineValues
  import opened RegistryFacts
  import opened EngineInvariant
  import CounterPath

  /** s -> t is recorded by some edge. */
  ghost predicate HasEdge(edges: map<Uid, Edge>, s: Uid, t: Uid) {
    exists id :: id in edges && edges[id].src == s && edges[id].tgt == t
  }

  /** The edges are the registry's relation, one edge per pair. */
  ghost predicate EdgesAre(edges: map<Uid, Edge>, reg: Registry) {
    && (forall s: Uid, t: Uid :: s in reg.DepsOf(t) <==> HasEdge(edges, s, t))
    && forall i, j :: i in edges && j in edges && i != j ==> edges[i].src != edges[j].src || edges[i].tgt != edges[j].tgt
  }

  ghost predicate PlainInv(e: EngineState) {
    Inv(e) && Wired(e.world) && EdgesAre(e.edges, e.world.reg) && e.cache.regions == map[]
  }

  /** Fresh node and edge ids, at most one edge per pair, no bare subscription, no stabilisation,
      no compiled region. */
  ghost predicate Plain(e: EngineState, op: IsaOp, ch: Choices) {
    && (op.NodeCreate? ==> op.id !in e.world.store.idx)
    && (op.EdgeConnect? ==> op.id !in e.edges && op.src !in e.world.reg.DepsOf(op.tgt))
    && !op.Subscribe? && !op.Stabilize?
    && (op.RegionDeclare? ==> op.compile != CompileEager || ch.compiled.None?)
    && ch.rounds == []
  }

  // ---- creating a node -------------------------------------------------------------------------

  /** t's lists, dependency values and counters are what they were. */
  ghost predicate SameAt(w: World, w': World, t: Uid)
    requires w.Wf() && w'.Wf()
  {
    && w'.reg.OrderedDepsOf(t) == w.reg.OrderedDepsOf(t) && w'.reg.OrderedIdxOf(t) == w.reg.OrderedIdxOf(t)
    && w'.reg.DepsOf(t) == w.reg.DepsOf(t) && w'.DepVals(t) == w.DepVals(t)
    && (t in w'.reg.counters <==> t in w.reg.counters) && (t in w.reg.counters ==> w'.reg.counters[t] == w.reg.counters[t])
  }

  /** The listed dependencies of t keep their nodes and slots. */
  ghost predicate ListedStand(w: World, w': World, t: Uid) {
    forall s :: s in w.reg.OrderedDepsOf(t) ==>
      s in w'.nodes && s in w.store.idx && s in w'.store.idx && w'.store.idx[s] == w.store.idx[s]
  }

  lemma SameAtKeeps(w: World, w': World, t: Uid)
    requires w.Wf() && w'.Wf() && SameAt(w, w', t) && ListedStand(w, w', t) && ListsRight(w, t) && CountersRight(w, t)
    ensures ListsRight(w', t) && CountersRight(w', t)
  {
    var ids := w.reg.OrderedDepsOf(t);
    forall k | 0 <= k < |ids| ensures ids[k] in w'.nodes && ids[k] in w'.store.idx && w'.reg.OrderedIdxOf(t)[k] == w'.store.idx[ids[k]] {
      assert ids[k] in ids;
    }
  }

  ghost predicate SameCell(w: World, w': World, s: Uid) {
    && s in w.store.idx && w.store.idx[s] < |w'.store.cache| && w.store.idx[s] < |w.store.cache|
    && w'.store.cache[w.store.idx[s]] == w.store.cache[w.store.idx[s]]
  }

  lemma SameCells(w: World, w': World, t: Uid)
    requires w.Wf() && w'.Wf() && ListsRight(w, t)
    requires w'.reg.OrderedDepsOf(t) == w.reg.OrderedDepsOf(t) && w'.reg.OrderedIdxOf(t) == w.reg.OrderedIdxOf(t)
    requires forall s :: s in w.reg.OrderedDepsOf(t) ==> SameCell(w, w', s)
    ensures w'.DepVals(t) == w.DepVals(t)
  {
    var ids, idx := w.reg.OrderedDepsOf(t), w.reg.OrderedIdxOf(t);
    forall k | 0 <= k < |idx| ensures w'.store.cache[idx[k]] == w.store.cache[idx[k]] { assert ids[k] in ids; }
  }

  lemma ListedHave(w: World, t: Uid, s: Uid)
    requires ListsRight(w, t) && s in w.reg.OrderedDepsOf(t)
    ensures s in w.nodes && s in w.store.idx
  {
    var k :| 0 <= k < |w.reg.OrderedDepsOf(t)| && w.reg.OrderedDepsOf(t)[k] == s;
  }

  /** A world whose registry lists are the same and whose listed slots hold what they held. */
  lemma StoreWired(w: World, w': World)
    requires Wired(w) && Coherent(w')
    requires w'.reg.deps == w.reg.deps && w'.reg.orderedDeps == w.reg.orderedDeps && w'.reg.orderedIdx == w.reg.orderedIdx
    requires w'.reg.counters == w.reg.counters
    requires forall t, s :: s in w.reg.OrderedDepsOf(t) ==>
      s in w'.nodes && s in w'.store.idx && s in w.store.idx && w'.store.idx[s] == w.store.idx[s] && SameCell(w, w', s)
    ensures Wired(w')
  {
    forall t ensures ListsRight(w', t) && CountersRight(w', t) {
      assert ListsRight(w, t) && CountersRight(w, t);
      assert w'.reg.OrderedDepsOf(t) == w.reg.OrderedDepsOf(t);
      SameCells(w, w', t);
      SameAtKeeps(w, w', t);
    }
  }

  lemma CreateNodeWired(w: World, id: Uid, kind: NodeKind)
    requires Wired(w) && id !in w.store.idx
    requires Coherent(World(w.nodes[id := Node(kind, Neg, 0)], w.reg.SetMode(id, Eager), w.store.Alloc(id)))
    ensures Wired(World(w.nodes[id := Node(kind, Neg, 0)], w.reg.SetMode(id, Eager), w.store.Alloc(id)))
  {
    var w' := World(w.nodes[id := Node(kind, Neg, 0)], w.reg.SetMode(id, Eager), w.store.Alloc(id));
    forall t, s | s in w.reg.OrderedDepsOf(t)
      ensures s in w'.nodes && s in w'.store.idx && s in w.store.idx && w'.store.idx[s] == w.store.idx[s] && SameCell(w, w', s)
    {
      assert ListsRight(w, t);
      ListedHave(w, t, s);
    }
    StoreWired(w, w');
  }

  // ---- linking --------------------------------------------------------------------------------------

  lemma LinkAt(w: World, src: Uid, tgt: Uid)
    requires w.store.Shaped() && src in w.store.idx
    ensures var reg := Link(w, src, tgt).reg;
      && reg.OrderedDepsOf(tgt) == w.reg.OrderedDepsOf(tgt) + [src]
      && reg.OrderedIdxOf(tgt) == w.reg.OrderedIdxOf(tgt) + [w.store.idx[src]]
      && reg.DepsOf(tgt) == w.reg.DepsOf(tgt) + {src}
      && tgt in reg.counters
      && reg.counters[tgt] == (if tgt in w.reg.counters then w.reg.counters[tgt] else NO_DEPS).Add(w.store.Get(src))
  {}

  /** Appending a dependency to the lists and counting it keeps them right. */
  lemma AppendedRight(w: World, w': World, src: Uid, t: Uid)
    requires w.Wf() && w'.Wf() && Mirrored(w) && w'.nodes == w.nodes && w'.store == w.store
    requires ListsRight(w, t) && CountersRight(w, t) && src in w.nodes && src !in w.reg.DepsOf(t)
    requires w'.reg.OrderedDepsOf(t) == w.reg.OrderedDepsOf(t) + [src] && w'.reg.DepsOf(t) == w.reg.DepsOf(t) + {src}
    requires w'.reg.OrderedIdxOf(t) == w.reg.OrderedIdxOf(t) + [w.store.idx[src]] && t in w'.reg.counters
    requires w'.reg.counters[t] == (if t in w.reg.counters then w.reg.counters[t] else NO_DEPS).Add(w.store.Get(src))
    ensures ListsRight(w', t) && CountersRight(w', t)
  {
    var vals, v := w.DepVals(t), w.store.Get(src);
    DepValsAre(w, t);
    HistogramAppend(vals, v);
    assert t !in w.reg.counters ==> vals == [];
    assert w'.DepVals(t) == vals + [v];
  }

  lemma LinkTarget(w: World, w': World, src: Uid, tgt: Uid)
    requires Wired(w) && src in w.nodes && src !in w.reg.DepsOf(tgt) && w' == Link(w, src, tgt) && w'.Wf()
    ensures ListsRight(w', tgt) && CountersRight(w', tgt)
  {
    assert ListsRight(w, tgt) && CountersRight(w, tgt);
    LinkAt(w, src, tgt);
    AppendedRight(w, w', src, tgt);
  }

  lemma LinkOther(w: World, w': World, src: Uid, tgt: Uid, t: Uid)
    requires Wired(w) && src in w.nodes && w' == Link(w, src, tgt) && w'.Wf() && t != tgt
    ensures ListsRight(w', t) && CountersRight(w', t)
  {
    assert ListsRight(w, t) && CountersRight(w, t);
    assert w'.reg.DepsOf(t) == w.reg.DepsOf(t);
  }

  lemma LinkWired(w: World, src: Uid, tgt: Uid)
    requires Wired(w) && src in w.nodes && src !in w.reg.DepsOf(tgt) && Coherent(Link(w, src, tgt))
    ensures Wired(Link(w, src, tgt))
  {
    var w' := Link(w, src, tgt);
    forall t ensures ListsRight(w', t) && CountersRight(w', t) {
      if t == tgt { LinkTarget(w, w', src, tgt); } else { LinkOther(w, w', src, tgt, t); }
    }
  }

  // ---- unlinking --------------------------------------------------------------------------------------

  lemma UnlinkAt(w: World, src: Uid, tgt: Uid)
    requires w.store.Shaped() && src in w.reg.OrderedDepsOf(tgt) && |w.reg.OrderedIdxOf(tgt)| == |w.reg.OrderedDepsOf(tgt)|
    ensures var reg, i := Unlink(w, src, tgt).reg, IndexOf(w.reg.OrderedDepsOf(tgt), src);
      && reg.OrderedDepsOf(tgt) == RemoveAt(w.reg.OrderedDepsOf(tgt), i)
      && reg.OrderedIdxOf(tgt) == RemoveAt(w.reg.OrderedIdxOf(tgt), i)
      && reg.DepsOf(tgt) == w.reg.DepsOf(tgt) - {src}
      && (tgt in reg.counters <==> tgt in w.reg.counters)
      && (tgt in reg.counters ==> reg.counters[tgt] == w.reg.counters[tgt].Remove(w.store.Get(src)))
  {}

  /** Removing a dependency from the lists and uncounting it keeps them right. */
  lemma RemovedRight(w: World, w': World, src: Uid, t: Uid, i: nat)
    requires w.Wf() && w'.Wf() && Mirrored(w) && w'.nodes == w.nodes && w'.store == w.store
    requires ListsRight(w, t) && CountersRight(w, t) && i < |w.reg.OrderedDepsOf(t)| && w.reg.OrderedDepsOf(t)[i] == src
    requires w'.reg.OrderedDepsOf(t) == RemoveAt(w.reg.OrderedDepsOf(t), i) && w'.reg.DepsOf(t) == w.reg.DepsOf(t) - {src}
    requires w'.reg.OrderedIdxOf(t) == RemoveAt(w.reg.OrderedIdxOf(t), i)
    requires t in w'.reg.counters <==> t in w.reg.counters
    requires t in w'.reg.counters ==> w'.reg.counters[t] == w.reg.counters[t].Remove(w.store.Get(src))
    ensures ListsRight(w', t) && CountersRight(w', t)
  {
    var vals := w.DepVals(t);
    DepValsAre(w, t);
    RemovedElements(w.reg.OrderedDepsOf(t), i);
    HistogramRemove(vals, i);
    assert vals[i] == w.store.Get(src);
    RemovedLists(w, w', t, i);
  }

  lemma RemovedLists(w: World, w': World, t: Uid, i: nat)
    requires w.Wf() && w'.Wf() && w'.nodes == w.nodes && w'.store == w.store
    requires |w.reg.OrderedIdxOf(t)| == |w.reg.OrderedDepsOf(t)| && i < |w.reg.OrderedDepsOf(t)|
    requires forall k :: 0 <= k < |w.reg.OrderedDepsOf(t)| ==>
      var ids := w.reg.OrderedDepsOf(t); ids[k] in w.nodes && ids[k] in w.store.idx && w.reg.OrderedIdxOf(t)[k] == w.store.idx[ids[k]]
    requires w'.reg.OrderedDepsOf(t) == RemoveAt(w.reg.OrderedDepsOf(t), i)
    requires w'.reg.OrderedIdxOf(t) == RemoveAt(w.reg.OrderedIdxOf(t), i)
    ensures |w.DepVals(t)| == |w.reg.OrderedDepsOf(t)| && w'.DepVals(t) == RemoveAt(w.DepVals(t), i)
    ensures var ids := w'.reg.OrderedDepsOf(t);
      |w'.reg.OrderedIdxOf(t)| == |ids| && forall k :: 0 <= k < |ids| ==>
        ids[k] in w'.nodes && ids[k] in w'.store.idx && w'.reg.OrderedIdxOf(t)[k] == w'.store.idx[ids[k]]
  {}

  lemma UnlinkTarget(w: World, w': World, src: Uid, tgt: Uid)
    requires Wired(w) && src in w.reg.DepsOf(tgt) && w' == Unlink(w, src, tgt) && w'.Wf()
    ensures ListsRight(w', tgt) && CountersRight(w', tgt)
  {
    assert ListsRight(w, tgt) && CountersRight(w, tgt);
    UnlinkAt(w, src, tgt);
    RemovedRight(w, w', src, tgt, IndexOf(w.reg.OrderedDepsOf(tgt), src));
  }

  lemma RemovedElements(ids: seq<Uid>, i: nat)
    requires Distinct(ids) && i < |ids|
    ensures Distinct(RemoveAt(ids, i)) && forall s :: s in RemoveAt(ids, i) <==> s in ids && s != ids[i]
  {
    var less := RemoveAt(ids, i);
    forall s ensures s in less <==> s in ids && s != ids[i] {
      if s in ids && s != ids[i] {
        var k :| 0 <= k < |ids| && ids[k] == s;
        assert less[if k < i then k else k - 1] == s;
      }
      if s in less {
        var k :| 0 <= k < |less| && less[k] == s;
        assert ids[if k < i then k else k + 1] == s;
      }
    }
  }

  lemma UnlinkOther(w: World, w': World, src: Uid, tgt: Uid, t: Uid)
    requires Wired(w) && w' == Unlink(w, src, tgt) && w'.Wf() && t != tgt
    ensures ListsRight(w', t) && CountersRight(w', t)
  {
    assert ListsRight(w, t) && CountersRight(w, t);
    assert w'.reg.DepsOf(t) == w.reg.DepsOf(t);
    assert w'.reg.OrderedDepsOf(t) == w.reg.OrderedDepsOf(t) && w'.reg.OrderedIdxOf(t) == w.reg.OrderedIdxOf(t);
  }

  lemma UnlinkWired(w: World, src: Uid, tgt: Uid)
    requires Wired(w) && src in w.reg.DepsOf(tgt) && Coherent(Unlink(w, src, tgt))
    ensures Wired(Unlink(w, src, tgt))
  {
    var w' := Unlink(w, src, tgt);
    forall t ensures ListsRight(w', t) && CountersRight(w', t) {
      if t == tgt { UnlinkTarget(w, w', src, tgt); } else { UnlinkOther(w, w', src, tgt, t); }
    }
  }

  // ---- removing a node ------------------------------------------------------------------------------

  lemma RemoveQuietNode(reg: Registry, id: Uid)
    requires reg.DepsOf(id) == {} && reg.SubsOf(id) == {}
    ensures reg.RemoveNode(id) == Registry(reg.deps - {id}, reg.subs - {id}, reg.modes - {id}, reg.orderedDeps - {id},
                                           reg.orderedIdx - {id}, reg.meta, reg.counters - {id})
  {}

  /** Dropping a node nothing reads and that reads nothing. */
  lemma DropNodeWired(w: World, id: Uid)
    requires Wired(w) && w.reg.DepsOf(id) == {} && w.reg.SubsOf(id) == {}
    requires Coherent(World(w.nodes - {id}, w.reg.RemoveNode(id), w.store.Set(id, Neg)))
    ensures Wired(World(w.nodes - {id}, w.reg.RemoveNode(id), w.store.Set(id, Neg)))
  {
    var w' := World(w.nodes - {id}, w.reg.RemoveNode(id), w.store.Set(id, Neg));
    RemoveQuietNode(w.reg, id);
    forall t ensures ListsRight(w', t) && CountersRight(w', t) {
      assert ListsRight(w, t) && CountersRight(w, t);
      if t != id { DropNodeOther(w, w', id, t); }
    }
  }

  /** A node t reads is not id, and keeps its slot. */
  lemma DropNodeCell(w: World, w': World, id: Uid, t: Uid, s: Uid)
    requires Coherent(w) && ListsRight(w, t) && w.reg.SubsOf(id) == {} && s in w.reg.OrderedDepsOf(t)
    requires w'.nodes == w.nodes - {id} && w'.store == w.store.Set(id, Neg)
    ensures s in w'.nodes && s in w'.store.idx && s in w.store.idx && w'.store.idx[s] == w.store.idx[s] && SameCell(w, w', s)
  {
    ListedHave(w, t, s);
    assert s in w.reg.DepsOf(t) && t in w.reg.SubsOf(s);
  }

  lemma DropNodeOther(w: World, w': World, id: Uid, t: Uid)
    requires Coherent(w) && w'.Wf() && ListsRight(w, t) && CountersRight(w, t) && t != id && w.reg.SubsOf(id) == {}
    requires w'.nodes == w.nodes - {id} && w'.store == w.store.Set(id, Neg)
    requires w'.reg.orderedDeps == w.reg.orderedDeps - {id} && w'.reg.orderedIdx == w.reg.orderedIdx - {id}
    requires w'.reg.deps == w.reg.deps - {id} && w'.reg.counters == w.reg.counters - {id}
    ensures ListsRight(w', t) && CountersRight(w', t)
  {
    forall s | s in w.reg.OrderedDepsOf(t)
      ensures s in w'.nodes && s in w'.store.idx && s in w.store.idx && w'.store.idx[s] == w.store.idx[s] && SameCell(w, w', s)
    {
      DropNodeCell(w, w', id, t, s);
    }
    assert w'.reg.OrderedDepsOf(t) == w.reg.OrderedDepsOf(t) && w'.reg.OrderedIdxOf(t) == w.reg.OrderedIdxOf(t);
    SameCells(w, w', t);
    SameAtKeeps(w, w', t);
  }

  // ---- the edges are the relation ----------------------------------------------------------------------

  lemma UnlinkDeps(w: World, src: Uid, tgt: Uid)
    requires w.store.Shaped()
    ensures forall t :: Unlink(w, src, tgt).reg.DepsOf(t) == if t == tgt then w.reg.DepsOf(t) - {src} else w.reg.DepsOf(t)
  {}

  lemma LinkDeps(w: World, src: Uid, tgt: Uid)
    requires w.store.Shaped()
    ensures forall t :: Link(w, src, tgt).reg.DepsOf(t) == if t == tgt then w.reg.DepsOf(t) + {src} else w.reg.DepsOf(t)
  {}

  lemma EdgesLess(edges: map<Uid, Edge>, reg: Registry, reg': Registry, id: Uid)
    requires EdgesAre(edges, reg) && id in edges
    requires forall t :: reg'.DepsOf(t) == if t == edges[id].tgt then reg.DepsOf(t) - {edges[id].src} else reg.DepsOf(t)
    ensures EdgesAre(edges - {id}, reg')
  {
    var src, tgt, less := edges[id].src, edges[id].tgt, edges - {id};
    forall s: Uid, t: Uid ensures s in reg'.DepsOf(t) <==> HasEdge(less, s, t) {
      if HasEdge(less, s, t) {
        var i :| i in less && less[i].src == s && less[i].tgt == t;
        assert i in edges && HasEdge(edges, s, t);
      }
      if s in reg'.DepsOf(t) {
        assert HasEdge(edges, s, t);
        var i :| i in edges && edges[i].src == s && edges[i].tgt == t;
        assert i in less;
      }
    }
  }

  lemma EdgesMore(edges: map<Uid, Edge>, reg: Registry, reg': Registry, id: Uid, edge: Edge)
    requires EdgesAre(edges, reg) && id !in edges && edge.src !in reg.DepsOf(edge.tgt)
    requires forall t :: reg'.DepsOf(t) == if t == edge.tgt then reg.DepsOf(t) + {edge.src} else reg.DepsOf(t)
    ensures EdgesAre(edges[id := edge], reg')
  {
    var more := edges[id := edge];
    forall s: Uid, t: Uid ensures s in reg'.DepsOf(t) <==> HasEdge(more, s, t) {
      if HasEdge(more, s, t) {
        var i :| i in more && more[i].src == s && more[i].tgt == t;
        assert i != id ==> HasEdge(edges, s, t);
      }
      if s in reg'.DepsOf(t) {
        if s in reg.DepsOf(t) {
          var i :| i in edges && edges[i].src == s && edges[i].tgt == t;
          assert more[i] == edges[i];
        } else {
          assert more[id] == edge;
        }
      }
    }
    forall i | i in edges ensures edges[i].src != edge.src || edges[i].tgt != edge.tgt {
      assert !HasEdge(edges, edge.src, edge.tgt);
    }
  }

  lemma EdgesSame(edges: map<Uid, Edge>, reg: Registry, reg': Registry)
    requires EdgesAre(edges, reg) && forall t :: reg'.DepsOf(t) == reg.DepsOf(t)
    ensures EdgesAre(edges, reg')
  {}

  lemma RemoveEdgePlain(e: EngineState, id: Uid)
    requires PlainInv(e) && id in e.edges && Inv(RemoveEdge(e, id))
    ensures PlainInv(RemoveEdge(e, id))
  {
    var src, tgt, e' := e.edges[id].src, e.edges[id].tgt, RemoveEdge(e, id);
    assert HasEdge(e.edges, src, tgt);
    UnlinkWired(e.world, src, tgt);
    UnlinkDeps(e.world, src, tgt);
    EdgesLess(e.edges, e.world.reg, e'.world.reg, id);
  }

  lemma {:induction false} RemoveEdgesPlain(e: EngineState, ids: seq<Uid>)
    requires PlainInv(e)
    ensures PlainInv(RemoveEdges(e, ids))
    decreases |ids|
  {
    if ids != [] {
      var before := RemoveEdges(e, ids[..|ids| - 1]);
      RemoveEdgesPlain(e, ids[..|ids| - 1]);
      if ids[|ids| - 1] in before.edges {
        RemoveEdgeKeeps(before, ids[|ids| - 1]);
        RemoveEdgePlain(before, ids[|ids| - 1]);
      }
    }
  }

  /** A node without edges is dropped from a plain engine. */
  lemma DropNodePlain(e1: EngineState, e': EngineState, id: Uid)
    requires PlainInv(e1) && Inv(e') && e1.world.reg.DepsOf(id) == {} && e1.world.reg.SubsOf(id) == {}
    requires e1.world.Wf() && e'.world == World(e1.world.nodes - {id}, e1.world.reg.RemoveNode(id), e1.world.store.Set(id, Neg))
    requires e'.edges == e1.edges && e'.cache.regions == map[]
    ensures PlainInv(e')
  {
    DropNodeWired(e1.world, id);
    RemoveQuietNode(e1.world.reg, id);
    EdgesSame(e1.edges, e1.world.reg, e'.world.reg);
    hide Wired, EdgesAre, Inv;
  }

  lemma DeletedIs(e: EngineState, id: Uid)
    requires e.world.Wf() && e.cache.regions == map[]
    ensures var e1, e' := RemoveEdges(e, Ascending(Incident(e, id))), DeleteNode(e, id);
      && e1.world.store == e.world.store && e'.edges == e1.edges && e'.cache.regions == map[]
      && e'.world == World(e1.world.nodes - {id}, e1.world.reg.RemoveNode(id), e1.world.store.Set(id, Neg))
  {}

  lemma PlainParts(e: EngineState)
    requires PlainInv(e)
    ensures Inv(e) && e.world.Wf() && e.world.store.Shaped() && e.cache.regions == map[]
    ensures |e.world.store.planeP0| == |e.world.store.planeP1| == Words(|e.world.store.cache|)
  {}

  lemma DeleteNodePlain(e: EngineState, id: Uid)
    requires PlainInv(e)
    ensures PlainInv(DeleteNode(e, id))
  {
    hide *;
    PlainParts(e);
    var ids := Ascending(Incident(e, id));
    var e1 := RemoveEdges(e, ids);
    AscendingElements(Incident(e, id));
    RemoveEdgesPlain(e, ids);
    PlainParts(e1);
    DeleteNodeKeeps(e, id);
    NoEdgesAt(e, e1, ids, id);
    DeletedIs(e, id);
    DropNodePlain(e1, DeleteNode(e, id), id);
  }

  lemma NoEdgesAt(e: EngineState, e1: EngineState, ids: seq<Uid>, id: Uid)
    requires PlainInv(e1) && (forall i :: i in e1.edges ==> i in e.edges && e1.edges[i] == e.edges[i] && i !in ids)
    requires forall i :: i in ids <==> i in Incident(e, id)
    ensures e1.world.reg.DepsOf(id) == {} && e1.world.reg.SubsOf(id) == {}
  {
    forall i | i in e1.edges ensures e1.edges[i].src != id && e1.edges[i].tgt != id { assert i !in Incident(e, id); }
    forall s ensures s !in e1.world.reg.DepsOf(id) { assert !HasEdge(e1.edges, s, id); }
    forall t ensures t !in e1.world.reg.SubsOf(id) { assert !HasEdge(e1.edges, id, t); }
  }

  // ---- values ---------------------------------------------------------------------------------------------

  /** Moving values keeps the plain invariant when it keeps the world wired. */
  lemma MovedPlain(e: EngineState, e': EngineState)
    requires PlainInv(e) && Kept(e, e') && Wired(e'.world)
    ensures PlainInv(e')
  {
    forall t ensures e'.world.reg.DepsOf(t) == e.world.reg.DepsOf(t) {}
    EdgesSame(e.edges, e.world.reg, e'.world.reg);
  }

  lemma WriteValuePlain(e: EngineState, node: Uid, v: T)
    requires PlainInv(e) && node in e.world.nodes && v != e.world.nodes[node].value
    ensures PlainInv(WriteValue(e, node, v))
  {
    WriteValueKeeps(e, node, v);
    WriteKeeps(e.world, node, v, e.now.Advance(Attribute));
    assert WriteValue(e, node, v).world == WriteWorld(e.world, node, v, e.now.Advance(Attribute));
    MovedPlain(e, WriteValue(e, node, v));
  }

  /** A node's version may move alone. */
  lemma VersionWired(w: World, node: Uid)
    requires Wired(w) && node in w.nodes && w.nodes[node].value == Zero
    ensures Wired(w.(nodes := w.nodes[node := Reflected(w.nodes[node])], store := w.store.Set(node, Zero)))
  {
    PutBoth(w, node, Reflected(w.nodes[node]));
    var w' := w.(nodes := w.nodes[node := Reflected(w.nodes[node])], store := w.store.Set(node, Zero));
    forall t, s | s in w.reg.OrderedDepsOf(t)
      ensures s in w'.nodes && s in w'.store.idx && s in w.store.idx && w'.store.idx[s] == w.store.idx[s] && SameCell(w, w', s)
    {
      assert ListsRight(w, t);
      ListedHave(w, t, s);
    }
    StoreWired(w, w');
  }

  /** Bumping counters by no transition changes none. */
  lemma QuietNotify(w: World, node: Uid, v: T, now: ProductTime)
    requires Wired(w) && node in w.nodes && w.nodes[node].value == v
    ensures Wired(w.(reg := Notify(w.reg, node, v, v, now).reg))
  {
    var subs, a := Ascending(w.reg.SubsOf(node)), Acc(w.reg, [], [], NO_STATS);
    AscendingDistinct(w.reg.SubsOf(node));
    CounterPath.BumpThenPush(a, node, subs, v, v, WriteCtx(now));
    BumpAllResult(w.reg, subs, v, v);
    var reg0 := BumpAll(w.reg, subs, v, v);
    assert reg0.counters == w.reg.counters;
    assert reg0 == w.reg;
    PushSubsResult(a, node, subs, WriteCtx(now));
    WroteWired(w, w.(reg := Notify(w.reg, node, v, v, now).reg), node, v);
  }

  lemma ReflectZeroPlain(e: EngineState, node: Uid)
    requires PlainInv(e) && node in e.world.nodes && e.world.nodes[node].value == Zero
    ensures Wired(ReflectValue(e, node).world)
  {
    var w := e.world.(nodes := e.world.nodes[node := Reflected(e.world.nodes[node])], store := e.world.store.Set(node, Zero));
    VersionWired(e.world, node);
    QuietNotify(w, node, Zero, e.now);
    assert ReflectValue(e, node).world == w.(reg := Notify(w.reg, node, Zero, Zero, e.now).reg);
  }

  lemma ReflectValuePlain(e: EngineState, node: Uid)
    requires PlainInv(e) && node in e.world.nodes
    ensures PlainInv(ReflectValue(e, node))
  {
    ReflectValueKeeps(e, node);
    if e.world.nodes[node].value == Zero {
      ReflectZeroPlain(e, node);
    } else {
      WriteKeeps(e.world, node, MvNeg(e.world.nodes[node].value), e.now);
      assert ReflectValue(e, node).world == WriteWorld(e.world, node, MvNeg(e.world.nodes[node].value), e.now);
    }
    MovedPlain(e, ReflectValue(e, node));
  }

  lemma {:induction false} NoRegionsRun(e: EngineState, roots: seq<Uid>)
    requires e.world.Wf() && e.cache.regions == map[]
    ensures CacheRunnable(e) && RunRegions(e, roots) == e
    decreases |roots|
  {
    if roots != [] { NoRegionsRun(e, roots[..|roots| - 1]); }
  }

  lemma SettlePlain(e: EngineState, auth: map<(Uid, Uid), Verdict>)
    requires PlainInv(e)
    ensures e.world.Wf() && PlainInv(Settle(e, auth, []).e)
  {
    SettleKeeps(e, auth, []);
    DrainKeeps(QueueOf(e), e.now, auth, e.handled, e.maxSteps);
    MovedPlain(e, Settle(e, auth, []).e);
  }

  lemma DrainAndStabilizePlain(e: EngineState, ch: Choices)
    requires PlainInv(e) && ch.rounds == []
    ensures e.world.Wf() && CacheRunnable(e) && PlainInv(DrainAndStabilize(e, ch.roots, ch.auth, ch.rounds).e)
  {
    var e0 := e.(cache := e.cache.(dirty := {}));
    OnlyQueues(e, e0);
    NoRegionsRun(e0, ch.roots);
    var e1 := e0.(dirtySlots := Cleared(|e0.dirtySlots|));
    OnlyQueues(e0, e1);
    KeptTransitive(e, e0, e1);
    MovedPlain(e, e1);
    SettlePlain(e1, ch.auth);
  }

  /** Only queues, events, marks or the clock differ. */
  lemma QueuesPlain(e: EngineState, e': EngineState)
    requires PlainInv(e) && e'.world == e.world && e'.edges == e.edges && e'.cache.regions == e.cache.regions
    requires |e'.dirtySlots| == |e.dirtySlots| && |e'.handled| == |e.handled| && ClockAhead(e.world.reg, e'.now)
    ensures PlainInv(e')
  {
    OnlyQueues(e, e');
    MovedPlain(e, e');
  }

  lemma TakenPlain(e: EngineState, dim: TimeDim)
    requires PlainInv(e)
    ensures PlainInv(TakeEvents(e.Log(dim)).e)
  {
    ClockMonotone(e.world.reg, e.now, dim);
    QueuesPlain(e, TakeEvents(e.Log(dim)).e);
  }

  lemma EnqueuedPlain(e: EngineState, item: WorkItem, ch: Choices)
    requires PlainInv(e) && ch.rounds == []
    ensures var e1 := e.Enqueue(item).Log(Attribute);
      e1.world.Wf() && CacheRunnable(e1) && PlainInv(DrainAndStabilize(e1, ch.roots, ch.auth, ch.rounds).e)
  {
    ClockMonotone(e.world.reg, e.now, Attribute);
    QueuesPlain(e, e.Enqueue(item).Log(Attribute));
    DrainAndStabilizePlain(e.Enqueue(item).Log(Attribute), ch);
  }

  // ---- instructions and runs --------------------------------------------------------------------------------

  lemma ApplyValuesPlain(e: EngineState, op: IsaOp, ch: Choices)
    requires PlainInv(e) && e.world.Wf() && CacheRunnable(e) && MovesValues(op) && Plain(e, op, ch)
    ensures PlainInv(ApplyValues(e, op, ch).e)
  {
    match op {
      case SetValue(node, v) =>
        if node in e.world.nodes && v != e.world.nodes[node].value {
          WriteValuePlain(e, node, v);
          DrainAndStabilizePlain(WriteValue(e, node, v), ch);
        }
      case Propagate(node) => EnqueuedPlain(e, Push(node), ch);
      case Demand(node) => EnqueuedPlain(e, DemandItem(node), ch);
      case Reflect(node) =>
        ClockMonotone(e.world.reg, e.now, Attribute);
        QueuesPlain(e, e.Log(Attribute));
        if node in e.world.nodes {
          ReflectValuePlain(e.Log(Attribute), node);
          DrainAndStabilizePlain(ReflectValue(e.Log(Attribute), node), ch);
        }
      case _ =>
    }
  }

  lemma CreateNodePlain(e: EngineState, id: Uid, kind: NodeKind)
    requires PlainInv(e) && id !in e.world.store.idx
    ensures PlainInv(CreateNode(e, id, kind))
  {
    CreateNodeKeeps(e, id, kind);
    CreateNodeWired(e.world, id, kind);
    EdgesSame(e.edges, e.world.reg, CreateNode(e, id, kind).world.reg);
  }

  /** The world and the edges after a connection. */
  lemma ConnectWorld(w: World, edges: map<Uid, Edge>, id: Uid, src: Uid, tgt: Uid, reg: Registry, edge: Edge)
    requires Wired(w) && EdgesAre(edges, w.reg) && reg == w.reg.(modes := reg.modes)
    requires src in w.nodes && id !in edges && src !in w.reg.DepsOf(tgt) && edge.src == src && edge.tgt == tgt
    requires Coherent(Link(w.(reg := reg), src, tgt))
    ensures Wired(Link(w.(reg := reg), src, tgt)) && EdgesAre(edges[id := edge], Link(w.(reg := reg), src, tgt).reg)
  {
    var w1 := w.(reg := reg);
    ModesWired(w, reg);
    EdgesSame(edges, w.reg, reg);
    assert reg.DepsOf(tgt) == w.reg.DepsOf(tgt);
    LinkWired(w1, src, tgt);
    LinkDeps(w1, src, tgt);
    EdgesMore(edges, reg, Link(w1, src, tgt).reg, id, edge);
  }

  lemma ConnectPlain(e: EngineState, id: Uid, src: Uid, tgt: Uid, dep: DepKind)
    requires PlainInv(e) && src in e.world.nodes && tgt in e.world.nodes && id !in e.edges && src !in e.world.reg.DepsOf(tgt)
    ensures PlainInv(Connect(e, id, src, tgt, dep))
  {
    ConnectKeeps(e, id, src, tgt, dep);
    ConnectWorld(e.world, e.edges, id, src, tgt, InferMode(e.world.reg, tgt, dep), Edge(src, tgt, dep.Remote?));
    hide Wired, EdgesAre;
  }

  /** Modes and metadata are not read by the lists and counters. */
  lemma ModesWired(w: World, reg: Registry)
    requires Wired(w) && reg == w.reg.(modes := reg.modes, meta := reg.meta) && reg.meta.Keys == w.reg.meta.Keys
    ensures Wired(w.(reg := reg))
  {
    var w' := w.(reg := reg);
    SameShapeRelated(w.reg, reg);
    forall t ensures ListsRight(w', t) && CountersRight(w', t) {
      assert ListsRight(w, t) && CountersRight(w, t);
      assert w'.DepVals(t) == w.DepVals(t);
    }
  }

  lemma DeleteEdgePlain(e: EngineState, id: Uid)
    requires PlainInv(e) && id in e.edges
    ensures PlainInv(DeleteEdge(e, id))
  {
    var src, tgt := e.edges[id].src, e.edges[id].tgt;
    var e1 := e.(cache := e.cache.Invalidate(src).Invalidate(tgt));
    InvalidateWithin(e.cache, src);
    InvalidateWithin(e.cache.Invalidate(src), tgt);
    QueuesPlain(e, e1);
    RemoveEdgeKeeps(e1, id);
    RemoveEdgePlain(e1, id);
  }

  lemma AdditionPlain(e: EngineState, op: IsaOp, ch: Choices)
    requires PlainInv(e) && e.world.Wf() && (op.NodeCreate? || op.EdgeConnect?) && Plain(e, op, ch)
    ensures PlainInv(ApplyGraph(e, op).e)
  {
    match op {
      case NodeCreate(id, _, kind, _) =>
        CreateNodePlain(e, id, kind);
        TakenPlain(CreateNode(e, id, kind), TimeDim.Identity);
      case EdgeConnect(id, _, src, tgt, dep) =>
        if src in e.world.nodes && tgt in e.world.nodes {
          ConnectPlain(e, id, src, tgt, dep);
          TakenPlain(Connect(e, id, src, tgt, dep), Dependency);
        }
    }
  }

  /** A deletion is refused or has nothing to delete, or it is the deletion and a tick. */
  lemma DeletionReply(e: EngineState, op: IsaOp)
    requires e.world.Wf() && (op.DelNode? || op.DelEdge?)
    ensures var e' := ApplyGraph(e, op).e;
      || e' == e || e' == e.(events := [])
      || (op.DelNode? && e' == TakeEvents(DeleteNode(e, op.id).Log(TimeDim.Identity)).e)
      || (op.DelEdge? && op.id in e.edges && e' == TakeEvents(DeleteEdge(e, op.id).Log(Dependency)).e)
  {
    hide DeleteNode, DeleteEdge;
  }

  lemma DeletionPlain(e: EngineState, op: IsaOp)
    requires PlainInv(e) && e.world.Wf() && (op.DelNode? || op.DelEdge?)
    ensures PlainInv(ApplyGraph(e, op).e)
  {
    QueuesPlain(e, e.(events := []));
    DeletionReply(e, op);
    hide PlainInv, DeleteNode, DeleteEdge, ApplyGraph;
    if op.DelNode? {
      DeleteNodePlain(e, op.id);
      TakenPlain(DeleteNode(e, op.id), TimeDim.Identity);
    } else if op.id in e.edges {
      DeleteEdgePlain(e, op.id);
      TakenPlain(DeleteEdge(e, op.id), Dependency);
    }
  }

  lemma ApplyGraphPlain(e: EngineState, op: IsaOp, ch: Choices)
    requires PlainInv(e) && e.world.Wf() && ChangesGraph(op) && Plain(e, op, ch)
    ensures PlainInv(ApplyGraph(e, op).e)
  {
    if op.DelNode? || op.DelEdge? { DeletionPlain(e, op); } else { AdditionPlain(e, op, ch); }
  }

  lemma RetabledPlain(e: EngineState, reg: Registry)
    requires PlainInv(e) && reg == e.world.reg.(modes := reg.modes, meta := reg.meta) && reg.meta.Keys == e.world.reg.meta.Keys
    requires Inv(e.WithReg(reg))
    ensures PlainInv(e.WithReg(reg))
  {
    ModesWired(e.world, reg);
    EdgesSame(e.edges, e.world.reg, reg);
  }

  lemma SetModePlain(e: EngineState, node: Uid, mode: ExecMode)
    requires PlainInv(e)
    ensures PlainInv(TakeEvents(e.WithReg(e.world.reg.SetMode(node, mode)).Log(TimeDim.Identity)).e)
  {
    SideTablesInv(e, e.world.reg.SetMode(node, mode));
    RetabledPlain(e, e.world.reg.SetMode(node, mode));
    TakenPlain(e.WithReg(e.world.reg.SetMode(node, mode)), TimeDim.Identity);
  }

  lemma SetMaskPlain(e: EngineState, src: Uid, sub: Uid, mask: set<TimeDim>)
    requires PlainInv(e)
    ensures PlainInv(TakeEvents(e.WithReg(e.world.reg.SetMask(src, sub, mask)).Log(TimeDim.Identity)).e)
  {
    SetMaskInv(e, src, sub, mask);
    RetabledPlain(e, e.world.reg.SetMask(src, sub, mask));
    TakenPlain(e.WithReg(e.world.reg.SetMask(src, sub, mask)), TimeDim.Identity);
  }

  lemma ApplyTablesPlain(e: EngineState, op: IsaOp, ch: Choices)
    requires PlainInv(e) && !ChangesGraph(op) && !MovesValues(op) && Plain(e, op, ch)
    ensures PlainInv(ApplyTables(e, op, ch).e)
  {
    assert Inv(e);
    hide PlainInv, Inv;
    match op {
      case SetMode(node, mode) => SetModePlain(e, node, mode);
      case SetEdgeLabel(source, target, edgeLabel) => SetMaskPlain(e, source, target, edgeLabel.projectionMask.dims);
      case PartitionBind(node, partition) =>
        QueuesPlain(e, e.(partitions := e.partitions[node := partition]));
        TakenPlain(e.(partitions := e.partitions[node := partition]), TimeDim.Identity);
      case RegionDeclare(root, _, stability, _) =>
        var e1 := e.(cache := e.cache.(contracts := e.cache.contracts[root := stability]));
        QueuesPlain(e, e1);
        TakenPlain(e1, TimeDim.Identity);
      case _ => TakenPlain(e, TimeDim.Identity);
    }
  }

  lemma ApplyPlain(e: EngineState, op: IsaOp, ch: Choices)
    requires PlainInv(e) && Plain(e, op, ch)
    ensures e.world.Wf() && CacheRunnable(e) && PlainInv(Apply(e, op, ch).e)
  {
    var e1 := e.(events := []);
    QueuesPlain(e, e1);
    if ChangesGraph(op) {
      ApplyGraphPlain(e1, op, ch);
    } else if MovesValues(op) {
      ApplyValuesPlain(e1, op, ch);
    } else {
      ApplyTablesPlain(e1, op, ch);
    }
  }

  /** In every state of every plain run from the empty engine, each node's dense list is the image
      of its ordered dependencies and its counters are the exact histogram of their values. */
  lemma PlainRunsKeep(states: seq<EngineState>, ops: seq<IsaOp>, choices: seq<Choices>)
    requires Run(states, ops, choices) && states[0] == EMPTY_ENGINE
    requires forall i :: 0 <= i < |ops| ==> Plain(states[i], ops[i], choices[i])
    ensures forall i :: 0 <= i < |states| ==> Wired(states[i].world)
  {
    EmptyPlain();
    for k := 0 to |ops|
      invariant forall i :: 0 <= i <= k ==> PlainInv(states[i])
    {
      hide PlainInv;
      PlainStep(states[k], ops[k], choices[k], states[k + 1]);
    }
  }

  lemma EmptyPlain()
    ensures PlainInv(EMPTY_ENGINE)
  {}

  lemma PlainStep(e: EngineState, op: IsaOp, ch: Choices, e': EngineState)
    requires PlainInv(e) && Plain(e, op, ch) && Step(e, op, ch, e')
    ensures PlainInv(e')
  {
    ApplyPlain(e, op, ch);
  }
}
