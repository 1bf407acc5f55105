/** Five-dimensional product time and the antichain frontier over it. */
module Time {

  datatype TimeDim = Identity | Attribute | Dependency | Egraph | Boundary

  datatype ProductTime = ProductTime(identity: nat, attribute: nat, dependency: nat, egraph: nat, boundary: nat) {

    /** Component-wise >=. */
    predicate Dominates(other: ProductTime) {
      && identity >= other.identity && attribute >= other.attribute && dependency >= other.dependency
      && egraph >= other.egraph && boundary >= other.boundary
    }

    function Meet(other: ProductTime): ProductTime {
      ProductTime(Lesser(identity, other.identity), Lesser(attribute, other.attribute),
                  Lesser(dependency, other.dependency), Lesser(egraph, other.egraph), Lesser(boundary, other.boundary))
    }

    function Join(other: ProductTime): ProductTime {
      ProductTime(Greater(identity, other.identity), Greater(attribute, other.attribute),
                  Greater(dependency, other.dependency), Greater(egraph, other.egraph), Greater(boundary, other.boundary))
    }

    function Advance(dim: TimeDim): ProductTime {
      match dim
      case Identity => this.(identity := identity + 1)
      case Attribute => this.(attribute := attribute + 1)
      case Dependency => this.(dependency := dependency + 1)
      case Egraph => this.(egraph := egraph + 1)
      case Boundary => this.(boundary := boundary + 1)
    }

    function Get(dim: TimeDim): nat {
      match dim
      case Identity => identity
      case Attribute => attribute
      case Dependency => dependency
      case Egraph => egraph
      case Boundary => boundary
    }
  }

  const ZERO_TIME := ProductTime(0, 0, 0, 0, 0)

  function Lesser(a: nat, b: nat): nat { if a <= b then a else b }
  function Greater(a: nat, b: nat): nat { if a >= b then a else b }

  /** Meet and join are the greatest lower and least upper bounds of the product order. */
  lemma ProductLattice(a: ProductTime, b: ProductTime, t: ProductTime)
    ensures a.Meet(b).Dominates(t) <==> a.Dominates(t) && b.Dominates(t)
    ensures t.Dominates(a.Join(b)) <==> t.Dominates(a) && t.Dominates(b)
    ensures a.Dominates(b) && b.Dominates(a) ==> a == b
  {}

  // ---- frontiers -------------------------------------------------------------------------

  /** t is behind the frontier: some element dominates it. The set of such t is its down-set. */
  predicate Behind(f: seq<ProductTime>, t: ProductTime) {
    exists e :: e in f && e.Dominates(t)
  }

  /** No element dominates another, so in particular none is repeated. */
  predicate Antichain(f: seq<ProductTime>) {
    forall i, j :: 0 <= i < |f| && 0 <= j < |f| && i != j ==> !f[i].Dominates(f[j])
  }

  /** `retain(|existing| !t.dominates(existing))` */
  function Undominated(f: seq<ProductTime>, t: ProductTime): seq<ProductTime> {
    if f == [] then []
    else
      var rest := Undominated(f[..|f| - 1], t);
      if t.Dominates(f[|f| - 1]) then rest else rest + [f[|f| - 1]]
  }

  function Advanced(f: seq<ProductTime>, t: ProductTime): seq<ProductTime> {
    if Behind(f, t) then f else Undominated(f, t) + [t]
  }

  /** Neither time dominates the other. */
  predicate Incomparable(a: ProductTime, b: ProductTime) { !a.Dominates(b) && !b.Dominates(a) }

  lemma LastApart(front: seq<ProductTime>, last: ProductTime)
    requires Antichain(front + [last])
    ensures Antichain(front) && forall e :: e in front ==> Incomparable(e, last)
  {
    var f := front + [last];
    forall i, j | 0 <= i < |front| && 0 <= j < |front| && i != j ensures !front[i].Dominates(front[j]) {
      assert f[i] == front[i] && f[j] == front[j];
    }
    forall e | e in front ensures Incomparable(e, last) {
      var k :| 0 <= k < |front| && front[k] == e;
      assert f[k] == e && f[|front|] == last;
    }
  }

  lemma AppendApart(f: seq<ProductTime>, t: ProductTime)
    requires Antichain(f) && forall e :: e in f ==> Incomparable(e, t)
    ensures Antichain(f + [t])
  {
    forall i | 0 <= i < |f| ensures Incomparable(f[i], t) { assert f[i] in f; }
  }

  lemma {:induction false} UndominatedKeeps(f: seq<ProductTime>, t: ProductTime)
    ensures forall e :: e in Undominated(f, t) <==> e in f && !t.Dominates(e)
    ensures Antichain(f) ==> Antichain(Undominated(f, t))
  {
    if f != [] {
      var front, last := f[..|f| - 1], f[|f| - 1];
      UndominatedKeeps(front, t);
      assert f == front + [last];
      if Antichain(f) {
        LastApart(front, last);
        AppendApart(Undominated(front, t), last);
      }
      hide Antichain, Incomparable;
    }
  }

  /** Advancing keeps an antichain and adds exactly the times at or below t to the down-set. */
  lemma AdvancedIsUnion(f: seq<ProductTime>, t: ProductTime)
    requires Antichain(f)
    ensures Antichain(Advanced(f, t))
    ensures forall u :: Behind(Advanced(f, t), u) <==> Behind(f, u) || t.Dominates(u)
  {
    UndominatedKeeps(f, t);
    var kept := Undominated(f, t);
    if !Behind(f, t) {
      forall i | 0 <= i < |kept| ensures !kept[i].Dominates(t) && !t.Dominates(kept[i]) {
        assert kept[i] in kept;
      }
      forall u ensures Behind(kept + [t], u) <==> Behind(f, u) || t.Dominates(u) {
        if Behind(f, u) {
          var e :| e in f && e.Dominates(u);
          assert e in kept || t.Dominates(e);
          assert t in kept + [t];
        }
        if t.Dominates(u) { assert t in kept + [t]; }
      }
    }
  }

  class Frontier {
    var elems: seq<ProductTime>

    /** The down-set of the frontier. */
    ghost predicate Covers(t: ProductTime)
      reads this
    {
      Behind(elems, t)
    }

    constructor ()
      ensures elems == []
    {
      elems := [];
    }

    method Advance(t: ProductTime)
      requires Antichain(elems)
      modifies this
      ensures Antichain(elems)
      ensures forall u :: Covers(u) <==> old(Covers(u)) || t.Dominates(u)
      ensures elems == Advanced(old(elems), t)
    {
      AdvancedIsUnion(elems, t);
      if Behind(elems, t) { return; }
      var kept: seq<ProductTime> := [];
      for i := 0 to |elems|
        invariant kept == Undominated(elems[..i], t)
        invariant elems == old(elems)
      {
        assert elems[..i + 1][..i] == elems[..i];
        if !t.Dominates(elems[i]) { kept := kept + [elems[i]]; }
      }
      assert elems[..|elems|] == elems;
      elems := kept + [t];
    }

    /** The join's down-set is the union of the two down-sets. */
    method Join(other: Frontier) returns (result: Frontier)
      requires Antichain(elems) && Antichain(other.elems)
      ensures fresh(result) && Antichain(result.elems)
      ensures forall u :: result.Covers(u) <==> Covers(u) || other.Covers(u)
    {
      result := new Frontier();
      result.elems := elems;
      for k := 0 to |other.elems|
        invariant fresh(result) && Antichain(result.elems)
        invariant forall u :: result.Covers(u) <==> Covers(u) || Behind(other.elems[..k], u)
      {
        forall u ensures Behind(other.elems[..k + 1], u) <==> Behind(other.elems[..k], u) || other.elems[k].Dominates(u) {
          BehindAppend(other.elems, k, u);
        }
        result.Advance(other.elems[k]);
      }
      assert other.elems[..|other.elems|] == other.elems;
    }

    /** The meet's down-set is the intersection of the two down-sets. */
    method Meet(other: Frontier) returns (result: Frontier)
      requires Antichain(elems) && Antichain(other.elems)
      ensures fresh(result) && Antichain(result.elems)
      ensures forall u :: result.Covers(u) <==> Covers(u) && other.Covers(u)
    {
      result := new Frontier();
      for i := 0 to |elems|
        invariant fresh(result) && Antichain(result.elems)
        invariant forall u :: result.Covers(u) <==> Behind(elems[..i], u) && other.Covers(u)
      {
        var a := elems[i];
        for k := 0 to |other.elems|
          invariant fresh(result) && Antichain(result.elems)
          invariant forall u :: result.Covers(u) <==>
            (Behind(elems[..i], u) && other.Covers(u)) || (a.Dominates(u) && Behind(other.elems[..k], u))
        {
          forall u
            ensures Behind(other.elems[..k + 1], u) <==> Behind(other.elems[..k], u) || other.elems[k].Dominates(u)
            ensures a.Meet(other.elems[k]).Dominates(u) <==> a.Dominates(u) && other.elems[k].Dominates(u)
          {
            BehindAppend(other.elems, k, u);
            ProductLattice(a, other.elems[k], u);
          }
          result.Advance(a.Meet(other.elems[k]));
        }
        assert other.elems[..|other.elems|] == other.elems;
        forall u ensures Behind(elems[..i + 1], u) <==> Behind(elems[..i], u) || a.Dominates(u) {
          BehindAppend(elems, i, u);
        }
      }
      assert elems[..|elems|] == elems;
    }
  }

  lemma BehindAppend(f: seq<ProductTime>, k: nat, u: ProductTime)
    requires k < |f|
    ensures Behind(f[..k + 1], u) <==> Behind(f[..k], u) || f[k].Dominates(u)
  {
    assert f[..k + 1] == f[..k] + [f[k]];
    assert f[k] in f[..k + 1];
  }
}
