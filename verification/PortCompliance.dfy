/** The acceptance test of a stabilised section. */
module PortCompliance {
  import opened Base
  import opened Ternary
  import opened Isa
  import opened Propagation
  import opened Equations
  import opened EGraphs
  import opened Section
  import opened SectionExpr

  datatype StabZeroKind = Structural | Boundary | Informational
  datatype Compliance = Accepted(v: T) | Refused(kind: StabZeroKind)

  /** Two roots resolved to opposite constants. */
  predicate Disagree(roots: seq<Option<T>>) { Some(Pos) in roots && Some(Neg) in roots }

  /** Every root resolved to v. */
  predicate AllResolved(roots: seq<Option<T>>, v: T) { roots != [] && forall i :: 0 <= i < |roots| ==> roots[i] == Some(v) }

  predicate ZeroPinned(r: SectionRegion) { exists n :: n in r.boundary && r.boundary[n].value == Zero }

  /** `check_port_compliance`, given the constants of the root classes and whether some port oscillates:
      accepted exactly when every root has the same non-Zero constant; refused as structural when two
      roots disagree; otherwise blamed on the boundary when a pin is Zero or a port oscillates. */
  method CheckPortCompliance(r: SectionRegion, roots: seq<Option<T>>, oscillating: bool) returns (c: Compliance)
    ensures forall v :: c == Accepted(v) <==> v != Zero && AllResolved(roots, v)
    ensures c.Refused? ==> c.kind == if Disagree(roots) then Structural else if ZeroPinned(r) || oscillating then Boundary else Structural
  {
    var agreed: Option<T> := None;
    var allResolved := true;
    for i := 0 to |roots|
      invariant agreed.Some? ==> agreed.value != Zero && agreed in roots[..i]
      invariant forall k :: 0 <= k < i && roots[k].Some? && roots[k].value != Zero ==> roots[k] == agreed
      invariant allResolved <==> forall k :: 0 <= k < i ==> roots[k].Some? && roots[k].value != Zero
    {
      assert roots[..i + 1] == roots[..i] + [roots[i]];
      match roots[i] {
        case None => allResolved := false;
        case Some(Zero) => allResolved := false;
        case Some(v) =>
          if agreed.None? {
            agreed := Some(v);
          } else if agreed.value != v {
            assert agreed in roots && Some(v) in roots;
            return Refused(Structural);
          }
      }
    }
    assert roots[..|roots|] == roots;
    if allResolved && agreed.Some? { return Accepted(agreed.value); }
    assert forall v :: AllResolved(roots, v) && v != Zero ==> roots[0] == Some(v);
    if exists n :: n in r.boundary && r.boundary[n].value == Zero { return Refused(Boundary); }
    if oscillating { return Refused(Boundary); }
    return Refused(Structural);
  }

  /** An accepted value is right: it is what evaluating the members' rules recursively over the pinned
      boundary gives, for every member of the section. */
  lemma AcceptedIsRight(g: EGraph, r: SectionRegion, w: World, rank: map<Uid, nat>, ids: seq<Uid>, roots: seq<nat>, v: T)
    requires EGraphs.Sound(g) && |ids| == |roots| && RanksSection(w, r, rank) && PinsNamed(r) && FullArity(w, r)
    requires forall i :: 0 <= i < |ids| ==>
      ids[i] in r.members && roots[i] < |g.nodes| && Equal(g.TermOf(roots[i]), MemberTerm(w, r, rank, ids[i]))
    requires AllResolved(seq(|roots|, i requires 0 <= i < |roots| => g.Constant(roots[i])), v)
    ensures forall i :: 0 <= i < |ids| ==> MemberValue(w, r, rank, ids[i]) == v
  {
    var constants := seq(|roots|, i requires 0 <= i < |roots| => g.Constant(roots[i]));
    forall i | 0 <= i < |ids| ensures MemberValue(w, r, rank, ids[i]) == v {
      assert constants[i] == Some(v);
      ResolvedIsRecursive(g, roots[i], w, r, rank, ids[i]);
    }
  }
}
