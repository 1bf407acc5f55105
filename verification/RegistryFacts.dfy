/** What registration and removal do to the relation the registry holds. */
module RegistryFacts {
  import opened Base
  import opened Ternary
  import opened Time
  import opened Isa
  import opened Deps
  import opened Coherence

  /** Every recorded dense index is below the bound. */
  ghost predicate IdxBelow(reg: Registry, slots: nat) {
    forall n, k :: n in reg.orderedIdx && 0 <= k < |reg.orderedIdx[n]| ==> reg.orderedIdx[n][k] < slots
  }

  /** The registry is one relation, and it is the given one. */
  ghost predicate Relation(reg: Registry, r: iset<(Uid, Uid)>) {
    && forall s: Uid, t: Uid ::
         (s in reg.DepsOf(t) <==> (s, t) in r) && (t in reg.SubsOf(s) <==> (s, t) in r) && ((s, t) in reg.meta <==> (s, t) in r)
  }

  ghost function Pairs(reg: Registry): iset<(Uid, Uid)> { iset s: Uid, t: Uid | s in reg.DepsOf(t) :: (s, t) }

  lemma RelatedIsRelation(reg: Registry)
    ensures Related(reg) <==> Relation(reg, Pairs(reg))
  {
    forall s: Uid, t: Uid ensures (s, t) in Pairs(reg) <==> s in reg.DepsOf(t) {}
    if Relation(reg, Pairs(reg)) {
      forall s: Uid, t: Uid
        ensures (t in reg.SubsOf(s) <==> s in reg.DepsOf(t)) && (t in reg.SubsOf(s) <==> (s, t) in reg.meta)
      {}
    }
  }

  lemma RelationIsRelated(reg: Registry, r: iset<(Uid, Uid)>)
    requires Relation(reg, r)
    ensures Related(reg)
  {
    forall s: Uid, t: Uid
      ensures (t in reg.SubsOf(s) <==> s in reg.DepsOf(t)) && (t in reg.SubsOf(s) <==> (s, t) in reg.meta)
    {
      assert (s in reg.DepsOf(t) <==> (s, t) in r);
    }
  }

  /** Registration adds the pair. */
  lemma SubscribeRelation(reg: Registry, src: Uid, sub: Uid, dense: Option<nat>, r: iset<(Uid, Uid)>)
    requires Relation(reg, r)
    ensures Relation(reg.Subscribe(src, sub, dense), r + iset{(src, sub)})
  {
    var reg' := reg.Subscribe(src, sub, dense);
    forall s: Uid, t: Uid
      ensures (s in reg'.DepsOf(t) <==> (s, t) in r + iset{(src, sub)})
      ensures (t in reg'.SubsOf(s) <==> (s, t) in r + iset{(src, sub)})
      ensures ((s, t) in reg'.meta <==> (s, t) in r + iset{(src, sub)})
    {
      assert (s in reg.DepsOf(t) <==> (s, t) in r);
    }
  }

  /** Registering a pair once more leaves the relation; its metadata starts afresh, and the ordered lists
      of the subscriber gain a second entry. */
  lemma SubscribeAgain(reg: Registry, src: Uid, sub: Uid, d: nat)
    requires Related(reg) && src in reg.DepsOf(sub)
    ensures var reg' := reg.Subscribe(src, sub, Some(d));
      && Related(reg') && Pairs(reg') == Pairs(reg)
      && multiset(reg'.OrderedDepsOf(sub)) == multiset(reg.OrderedDepsOf(sub)) + multiset{src}
      && multiset(reg'.OrderedIdxOf(sub)) == multiset(reg.OrderedIdxOf(sub)) + multiset{d}
      && (src, sub) in reg'.meta && reg'.meta[(src, sub)] == DEFAULT_META
      && forall p :: p in reg.meta && p != (src, sub) ==> p in reg'.meta && reg'.meta[p] == reg.meta[p]
  {
    var reg' := reg.Subscribe(src, sub, Some(d));
    RelatedIsRelation(reg);
    SubscribeRelation(reg, src, sub, Some(d), Pairs(reg));
    RelationIsRelated(reg', Pairs(reg) + iset{(src, sub)});
    forall p: (Uid, Uid) ensures p in Pairs(reg') <==> p in Pairs(reg) {
      assert p == (p.0, p.1);
      assert p in Pairs(reg) <==> p.0 in reg.DepsOf(p.1);
      assert p in Pairs(reg') <==> p.0 in reg'.DepsOf(p.1);
    }
  }

  /** Removal takes the pair away. */
  lemma UnsubscribeRelation(reg: Registry, src: Uid, sub: Uid, r: iset<(Uid, Uid)>)
    requires Relation(reg, r)
    ensures Relation(reg.Unsubscribe(src, sub), r - iset{(src, sub)})
  {
    var reg' := reg.Unsubscribe(src, sub);
    forall s: Uid, t: Uid
      ensures (s in reg'.DepsOf(t) <==> (s, t) in r - iset{(src, sub)})
      ensures (t in reg'.SubsOf(s) <==> (s, t) in r - iset{(src, sub)})
      ensures ((s, t) in reg'.meta <==> (s, t) in r - iset{(src, sub)})
    {
      assert (s in reg.DepsOf(t) <==> (s, t) in r);
    }
  }

  /** The pairs left after the listed sources are unsubscribed from sub. */
  ghost function NotFrom(r: iset<(Uid, Uid)>, srcs: seq<Uid>, sub: Uid): iset<(Uid, Uid)> {
    iset p | p in r && !(p.1 == sub && p.0 in srcs)
  }

  /** The pairs left after the listed subscribers are detached from id. */
  ghost function NotTo(r: iset<(Uid, Uid)>, id: Uid, subList: seq<Uid>): iset<(Uid, Uid)> {
    iset p | p in r && !(p.0 == id && p.1 in subList)
  }

  lemma {:induction false} UnsubscribeAllRelation(reg: Registry, srcs: seq<Uid>, sub: Uid, r: iset<(Uid, Uid)>)
    requires Relation(reg, r)
    ensures Relation(reg.UnsubscribeAll(srcs, sub), NotFrom(r, srcs, sub))
    decreases |srcs|
  {
    if srcs == [] {
      assert r == NotFrom(r, [], sub);
    } else {
      var front, last := srcs[..|srcs| - 1], srcs[|srcs| - 1];
      var before := NotFrom(r, front, sub);
      UnsubscribeAllRelation(reg, front, sub, r);
      UnsubscribeRelation(reg.UnsubscribeAll(front, sub), last, sub, before);
      assert srcs == front + [last];
      assert before - iset{(last, sub)} == NotFrom(r, srcs, sub);
    }
  }

  /** Dependencies and metadata hold r; the subscriber sets of all nodes but id do. */
  ghost predicate Detaching(reg: Registry, r: iset<(Uid, Uid)>, id: Uid) {
    forall s: Uid, t: Uid ::
      (s in reg.DepsOf(t) <==> (s, t) in r) && ((s, t) in reg.meta <==> (s, t) in r)
      && (s != id ==> (t in reg.SubsOf(s) <==> (s, t) in r))
  }

  lemma DetachOne(reg: Registry, id: Uid, sub: Uid, r: iset<(Uid, Uid)>)
    requires Detaching(reg, r, id)
    ensures Detaching(reg.Detach(id, sub), r - iset{(id, sub)}, id)
  {
    var reg' := reg.Detach(id, sub);
    forall s: Uid, t: Uid
      ensures (s in reg'.DepsOf(t) <==> (s, t) in r - iset{(id, sub)})
      ensures ((s, t) in reg'.meta <==> (s, t) in r - iset{(id, sub)})
      ensures s != id ==> (t in reg'.SubsOf(s) <==> (s, t) in r - iset{(id, sub)})
    {
      assert (s in reg.DepsOf(t) <==> (s, t) in r);
    }
  }

  lemma {:induction false} DetachAllRelation(reg: Registry, id: Uid, subList: seq<Uid>, r: iset<(Uid, Uid)>)
    requires Detaching(reg, r, id)
    ensures Detaching(reg.DetachAll(id, subList), NotTo(r, id, subList), id)
    decreases |subList|
  {
    if subList == [] {
      assert r == NotTo(r, id, []);
    } else {
      var front, last := subList[..|subList| - 1], subList[|subList| - 1];
      var before := NotTo(r, id, front);
      DetachAllRelation(reg, id, front, r);
      DetachOne(reg.DetachAll(id, front), id, last, before);
      assert subList == front + [last];
      assert before - iset{(id, last)} == NotTo(r, id, subList);
    }
  }

  /** The pairs that do not touch a node. */
  ghost function Apart(r: iset<(Uid, Uid)>, id: Uid): iset<(Uid, Uid)> { iset p | p in r && p.0 != id && p.1 != id }

  /** Removing a node leaves exactly the pairs that do not touch it. */
  lemma RemoveNodeRelation(reg: Registry, id: Uid, r: iset<(Uid, Uid)>)
    requires Relation(reg, r)
    ensures Relation(reg.RemoveNode(id), Apart(r, id))
  {
    var srcs := Ascending(reg.DepsOf(id));
    var up, r1 := reg.UnsubscribeAll(srcs, id), NotFrom(r, srcs, id);
    AscendingElements(reg.DepsOf(id));
    UnsubscribeAllRelation(reg, srcs, id, r);
    var subList := Ascending(up.SubsOf(id));
    var down, r2 := up.DetachAll(id, subList), NotTo(r1, id, subList);
    AscendingElements(up.SubsOf(id));
    DetachAllRelation(up, id, subList, r1);
    assert r2 == Apart(r, id) by {
      forall p: (Uid, Uid) ensures p in r2 <==> p in Apart(r, id) { assert p == (p.0, p.1); }
    }
    DropNodeRelation(down, reg.RemoveNode(id), id, r2);
  }

  lemma DropNodeRelation(down: Registry, reg': Registry, id: Uid, r: iset<(Uid, Uid)>)
    requires Detaching(down, r, id) && forall p :: p in r ==> p.0 != id && p.1 != id
    requires reg'.deps == down.deps - {id} && reg'.subs == down.subs - {id} && reg'.meta == down.meta
    ensures Relation(reg', r)
  {
    forall s: Uid, t: Uid
      ensures (s in reg'.DepsOf(t) <==> (s, t) in r) && (t in reg'.SubsOf(s) <==> (s, t) in r) && ((s, t) in reg'.meta <==> (s, t) in r)
    {
      assert (s in down.DepsOf(t) <==> (s, t) in r);
    }
  }

  // ---- dense indices stay in range --------------------------------------------------------------

  lemma {:induction false} UnsubscribeAllBelow(reg: Registry, srcs: seq<Uid>, sub: Uid, slots: nat)
    requires IdxBelow(reg, slots)
    ensures IdxBelow(reg.UnsubscribeAll(srcs, sub), slots)
    decreases |srcs|
  {
    if srcs != [] {
      UnsubscribeAllBelow(reg, srcs[..|srcs| - 1], sub, slots);
      UnsubscribeBelow(reg.UnsubscribeAll(srcs[..|srcs| - 1], sub), srcs[|srcs| - 1], sub, slots);
    }
  }

  lemma UnsubscribeBelow(reg: Registry, src: Uid, sub: Uid, slots: nat)
    requires IdxBelow(reg, slots)
    ensures IdxBelow(reg.Unsubscribe(src, sub), slots)
  {}

  lemma {:induction false} DetachAllBelow(reg: Registry, id: Uid, subList: seq<Uid>, slots: nat)
    requires IdxBelow(reg, slots)
    ensures IdxBelow(reg.DetachAll(id, subList), slots)
    decreases |subList|
  {
    if subList != [] { DetachAllBelow(reg, id, subList[..|subList| - 1], slots); }
  }

  lemma RemoveNodeBelow(reg: Registry, id: Uid, slots: nat)
    requires IdxBelow(reg, slots)
    ensures IdxBelow(reg.RemoveNode(id), slots)
  {
    var up := reg.UnsubscribeAll(Ascending(reg.DepsOf(id)), id);
    UnsubscribeAllBelow(reg, Ascending(reg.DepsOf(id)), id, slots);
    DetachAllBelow(up, id, Ascending(up.SubsOf(id)), slots);
  }

  lemma SubscribeBelow(reg: Registry, src: Uid, sub: Uid, dense: Option<nat>, slots: nat)
    requires IdxBelow(reg, slots) && (dense.Some? ==> dense.value < slots)
    ensures IdxBelow(reg.Subscribe(src, sub, dense), slots)
  {}
}
