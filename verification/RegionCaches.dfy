/** The artifact cache in place: compiled regions, their dirty flags and the reverse input map. */
module RegionCaches {
  import opened Base
  import opened Isa
  import opened Regions
  import opened EngineModel

  lemma {:induction false} WithoutTwice(roots: seq<Uid>, a: set<Uid>, b: set<Uid>)
    ensures Without(Without(roots, a), b) == Without(roots, a + b)
    decreases |roots|
  {
    if roots != [] {
      var front, last := roots[..|roots| - 1], roots[|roots| - 1];
      WithoutTwice(front, a, b);
      WithoutAppend(Without(front, a), if last in a then [] else [last], b);
    }
  }

  lemma WithoutAppend(p: seq<Uid>, q: seq<Uid>, gone: set<Uid>)
    requires |q| <= 1
    ensures Without(p + q, gone) == Without(p, gone) + Without(q, gone)
  {
    if q == [] {
      assert p + q == p;
    } else {
      assert (p + q)[..|p|] == p && q[..0] == [];
    }
  }

  lemma {:induction false} WithoutNone(roots: seq<Uid>)
    ensures Without(roots, {}) == roots
    decreases |roots|
  {
    if roots != [] { WithoutNone(roots[..|roots| - 1]); }
  }

  /** The reverse map with root dropped under each of the inputs. */
  ghost function Retained(inputTo: map<nat, seq<Uid>>, root: Uid, inputs: seq<nat>): map<nat, seq<Uid>> {
    map d | d in inputTo :: if d in inputs then Without(inputTo[d], {root}) else inputTo[d]
  }

  lemma RetainNext(inputTo: map<nat, seq<Uid>>, root: Uid, inputs: seq<nat>, last: nat)
    ensures Retained(inputTo, root, inputs + [last])
         == var before := Retained(inputTo, root, inputs);
            if last in before then before[last := Without(before[last], {root})] else before
  {
    var before := Retained(inputTo, root, inputs);
    if last in inputTo && last in inputs { WithoutTwice(inputTo[last], {root}, {root}); assert {root} + {root} == {root}; }
  }

  /** The reverse map with every dropped root gone from the inputs of its region. */
  ghost function Pruned(cache: RegionCache, gone: set<Uid>): map<nat, seq<Uid>>
    requires gone <= cache.regions.Keys
  {
    map d | d in cache.inputTo :: Without(cache.inputTo[d], cache.Reading(gone, d))
  }

  lemma PruneNext(cache: RegionCache, gone: set<Uid>, root: Uid)
    requires gone <= cache.regions.Keys && root in cache.regions && root !in gone
    ensures Pruned(cache, gone + {root}) == Retained(Pruned(cache, gone), root, cache.regions[root].inputs)
  {
    forall d | d in cache.inputTo
      ensures Pruned(cache, gone + {root})[d] == Retained(Pruned(cache, gone), root, cache.regions[root].inputs)[d]
    {
      var a, b := cache.Reading(gone, d), cache.Reading(gone + {root}, d);
      if d in cache.regions[root].inputs {
        WithoutTwice(cache.inputTo[d], a, {root});
        assert b == a + {root};
      } else {
        assert b == a;
      }
    }
  }

  lemma PruneNone(cache: RegionCache)
    ensures Pruned(cache, {}) == cache.inputTo
  {
    forall d | d in cache.inputTo ensures Pruned(cache, {})[d] == cache.inputTo[d] {
      assert cache.Reading({}, d) == {};
      WithoutNone(cache.inputTo[d]);
    }
  }

  class RegionArtifactCache {
    var regions: map<Uid, Region>
    var contracts: map<Uid, StabilityContract>
    var dirty: set<Uid>
    var inputTo: map<nat, seq<Uid>>

    function View(): RegionCache
      reads this
    {
      RegionCache(regions, contracts, dirty, inputTo)
    }

    constructor ()
      ensures View() == RegionCache(map[], map[], {}, map[])
    {
      regions, contracts, dirty, inputTo := map[], map[], {}, map[];
    }

    /** Store an artifact under its root and list the root under each boundary input. */
    method Insert(root: Uid, region: Region, contract: StabilityContract)
      modifies this
      ensures View() == old(View()).Insert(root, region, contract)
    {
      for i := 0 to |region.inputs|
        invariant View() == old(View()).(inputTo := old(View()).Listed(root, region.inputs[..i]))
      {
        assert region.inputs[..i + 1][..i] == region.inputs[..i];
        var dense := region.inputs[i];
        inputTo := inputTo[dense := (if dense in inputTo then inputTo[dense] else []) + [root]];
      }
      assert region.inputs[..|region.inputs|] == region.inputs;
      regions := regions[root := region];
      contracts := contracts[root := contract];
    }

    /** `roots.retain(|&r| r != root)` */
    static method Retain(roots: seq<Uid>, root: Uid) returns (kept: seq<Uid>)
      ensures kept == Without(roots, {root})
    {
      kept := [];
      for i := 0 to |roots|
        invariant kept == Without(roots[..i], {root})
      {
        assert roots[..i + 1][..i] == roots[..i];
        if roots[i] != root { kept := kept + [roots[i]]; } else { assert kept + [] == kept; }
      }
      assert roots[..|roots|] == roots;
    }

    /** Remove root's entries from the reverse map. */
    method RemoveReverseMapFor(root: Uid)
      modifies `inputTo
      ensures root in regions ==> inputTo == Retained(old(inputTo), root, regions[root].inputs)
    {
      if root in regions {
        var inputs := regions[root].inputs;
        assert Retained(inputTo, root, []) == inputTo;
        for i := 0 to |inputs|
          invariant inputTo == Retained(old(inputTo), root, inputs[..i])
        {
          RetainNext(old(inputTo), root, inputs[..i], inputs[i]);
          assert inputs[..i + 1] == inputs[..i] + [inputs[i]];
          if inputs[i] in inputTo {
            var kept := Retain(inputTo[inputs[i]], root);
            inputTo := inputTo[inputs[i] := kept];
          }
        }
        assert inputs[..|inputs|] == inputs;
      }
    }

    /** Drop every epoch-tracked artifact that covers the node; contracts stay. */
    method InvalidateForNode(node: Uid)
      modifies this
      ensures View() == old(View()).Invalidate(node)
    {
      ghost var cache := View();
      var rest := set root | root in regions && root in contracts && contracts[root] == EpochTracked && node in regions[root].members;
      assert rest == cache.Stale(node);
      PruneNone(cache);
      assert cache.Stale(node) - rest == {};
      while rest != {}
        invariant rest <= cache.Stale(node) && contracts == cache.contracts
        invariant regions == cache.regions - (cache.Stale(node) - rest) && dirty == cache.dirty - (cache.Stale(node) - rest)
        invariant inputTo == Pruned(cache, cache.Stale(node) - rest)
      {
        var root :| root in rest;
        PruneNext(cache, cache.Stale(node) - rest, root);
        assert cache.Stale(node) - rest + {root} == cache.Stale(node) - (rest - {root});
        RemoveReverseMapFor(root);
        regions := regions - {root};
        dirty := dirty - {root};
        rest := rest - {root};
      }
      assert cache.Stale(node) - {} == cache.Stale(node);
    }

    /** Mark the regions that read a slot as a boundary input. */
    method MarkDirtyForInput(dense: nat)
      modifies `dirty
      ensures View() == old(View()).MarkDirty(dense)
    {
      if dense in inputTo {
        var roots := inputTo[dense];
        for i := 0 to |roots|
          invariant dirty == old(dirty) + Elements(roots[..i])
        {
          assert roots[..i + 1] == roots[..i] + [roots[i]];
          dirty := dirty + {roots[i]};
        }
        assert roots[..|roots|] == roots;
      }
    }

    /** Empty the dirty set into a list, in whatever order the set yields. */
    method TakeDirty() returns (roots: seq<Uid>)
      modifies `dirty
      ensures dirty == {} && Distinct(roots) && forall r :: r in roots <==> r in old(dirty)
    {
      roots := [];
      while dirty != {}
        invariant dirty <= old(dirty) && Distinct(roots) && forall r :: r in roots <==> r in old(dirty) - dirty
      {
        var r :| r in dirty;
        assert r !in roots;
        roots := roots + [r];
        dirty := dirty - {r};
      }
    }
  }
}
