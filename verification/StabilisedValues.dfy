/** What an accepted stabilisation does to the engine: every Zero member of the section takes the value
    that evaluating its rules recursively over the pinned boundary gives. */
module StabilisedValues {
  import opened Base
  import opened Ternary
  import opened Deps
  import opened Propagation
  import opened EngineModel
  import opened EngineValues
  import opened EGraphs
  import opened Equations
  import opened Section
  import opened SectionExpr
  import opened PortCompliance

  /** The value of every node after the Zero nodes among the listed ones took v. */
  ghost predicate Resolved(w: World, w': World, ids: seq<Uid>, v: T) {
    w'.nodes.Keys == w.nodes.Keys
    && forall n :: n in w.nodes ==> w'.nodes[n].value == if n in ids && w.nodes[n].value == Zero then v else w.nodes[n].value
  }

  lemma ResolveOneValues(e: EngineState, id: Uid, v: T)
    requires e.world.Wf()
    ensures Resolved(e.world, ResolveOne(e, id, v).world, [id], v)
  {}

  lemma {:induction false} ResolveAllValues(e: EngineState, ids: seq<Uid>, v: T)
    requires e.world.Wf()
    ensures Resolved(e.world, ResolveAll(e, ids, v).world, ids, v)
    decreases |ids|
  {
    if ids != [] {
      var front, last := ids[..|ids| - 1], ids[|ids| - 1];
      ResolveAllValues(e, front, v);
      ResolveOneValues(ResolveAll(e, front, v), last, v);
      assert ids == front + [last];
      assert ResolveAll(e, ids, v) == ResolveOne(ResolveAll(e, front, v), last, v);
      hide ResolveOne, ResolveAll;
    }
  }

  /** The terms built for the members, listed with their roots in the e-graph, and what the roots resolved to. */
  ghost predicate BuiltFrom(g: EGraph, w: World, r: SectionRegion, rank: map<Uid, nat>, ids: seq<Uid>, roots: seq<nat>) {
    && EGraphs.Sound(g) && RanksSection(w, r, rank) && PinsNamed(r) && FullArity(w, r)
    && |ids| == |roots| && (forall n :: n in r.members <==> n in ids)
    && forall i :: 0 <= i < |ids| ==> roots[i] < |g.nodes| && Equal(g.TermOf(roots[i]), MemberTerm(w, r, rank, ids[i]))
  }

  function Constants(g: EGraph, roots: seq<nat>): seq<Option<T>>
    requires g.Wf() && forall i :: 0 <= i < |roots| ==> roots[i] < |g.nodes|
  {
    seq(|roots|, i requires 0 <= i < |roots| => g.Constant(roots[i]))
  }

  /** Every Zero node of the section now has its recursive value over the pinned boundary; no other value moved. */
  ghost predicate RecursivelyResolved(w: World, w': World, r: SectionRegion, rank: map<Uid, nat>)
    requires RanksSection(w, r, rank)
  {
    w'.nodes.Keys == w.nodes.Keys
    && forall n :: n in w.nodes ==>
         w'.nodes[n].value == if n in r.members && w.nodes[n].value == Zero then MemberValue(w, r, rank, n) else w.nodes[n].value
  }

  /** An accepted answer for a section without cycles and with full arity: stabilisation keeps the engine's
      invariant and resolves every Zero member to its recursive value, so none stays Zero. */
  lemma StabiliseResolves(e: EngineState, seeds: seq<Uid>, g: EGraph, r: SectionRegion, rank: map<Uid, nat>,
                          ids: seq<Uid>, roots: seq<nat>, v: T)
    requires Inv(e) && seeds != [] && BuiltFrom(g, e.world, r, rank, ids, roots)
    requires v != Zero && AllResolved(Constants(g, roots), v)
    ensures e.world.Wf() && RanksSection(e.world, r, rank)
    ensures var e' := Stabilise(e, seeds, Stabilized(r.members, Settled(Some(v))));
      && Inv(e') && RecursivelyResolved(e.world, e'.world, r, rank)
      && forall n :: n in r.members && n in e'.world.nodes ==> e'.world.nodes[n].value != Zero
  {
    InvReady(e);
    StabiliseKeeps(e, seeds, Stabilized(r.members, Settled(Some(v))));
    SettledValues(e, seeds, r.members, v);
    AllRecursive(g, e.world, r, rank, ids, roots, v);
    FromResolved(e.world, Stabilise(e, seeds, Stabilized(r.members, Settled(Some(v)))).world, r, rank, Ascending(r.members), v);
    hide *;
  }

  lemma FromResolved(w: World, w': World, r: SectionRegion, rank: map<Uid, nat>, q: seq<Uid>, v: T)
    requires Resolved(w, w', q, v) && (forall n :: n in q <==> n in r.members) && v != Zero
    requires RanksSection(w, r, rank) && forall n :: n in r.members ==> MemberValue(w, r, rank, n) == v
    ensures RecursivelyResolved(w, w', r, rank)
    ensures forall n :: n in r.members && n in w'.nodes ==> w'.nodes[n].value != Zero
  {
    hide MemberValue, RanksSection;
  }

  lemma SettledValues(e: EngineState, seeds: seq<Uid>, members: set<Uid>, v: T)
    requires e.world.Wf() && seeds != []
    ensures Resolved(e.world, Stabilise(e, seeds, Stabilized(members, Settled(Some(v)))).world, Ascending(members), v)
    ensures forall n :: n in Ascending(members) <==> n in members
  {
    AscendingElements(members);
    ResolveAllValues(e, Ascending(members), v);
    hide ResolveAll, Resolved;
  }

  lemma AllRecursive(g: EGraph, w: World, r: SectionRegion, rank: map<Uid, nat>, ids: seq<Uid>, roots: seq<nat>, v: T)
    requires BuiltFrom(g, w, r, rank, ids, roots) && AllResolved(Constants(g, roots), v)
    ensures RanksSection(w, r, rank) && forall n :: n in r.members ==> MemberValue(w, r, rank, n) == v
  {
    AcceptedIsRight(g, r, w, rank, ids, roots, v);
    hide EGraphs.Sound, MemberValue, MemberTerm;
  }
}
