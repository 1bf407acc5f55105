/** The e-graph with its constant analysis: what every run of additions, rewrites, congruence
    closures and re-analyses keeps. */
module EGraphs {
  import opened Base
  import opened Ternary
  import opened Equations

  /** An e-node: an operator over the identifiers of earlier e-nodes. */
  datatype ENode =
    | NLit(t: T)
    | NSym(s: Symbol)
    | NNot(a: nat)
    | NBin(op: BinOp, l: nat, r: nat)
    | NMerge(b: nat, x: nat, y: nat)

  /** Children of an e-node lie below the bound. */
  predicate Below(n: ENode, bound: nat) {
    match n
    case NLit(_) => true
    case NSym(_) => true
    case NNot(a) => a < bound
    case NBin(_, l, r) => l < bound && r < bound
    case NMerge(b, x, y) => b < bound && x < bound && y < bound
  }

  /** The e-nodes in order of creation, the class of each, and each class's analysis data. */
  datatype EGraph = EGraph(nodes: seq<ENode>, classOf: seq<nat>, data: map<nat, Option<T>>) {
    predicate Wf() {
      && |classOf| == |nodes|
      && (forall i :: 0 <= i < |nodes| ==> Below(nodes[i], i) && classOf[i] in data)
      && forall c :: c in data ==> c < |nodes|
    }

    function Constant(i: nat): Option<T>
      requires Wf() && i < |nodes|
    {
      data[classOf[i]]
    }

    /** The term an e-node was built as. */
    function TermOf(i: nat): Expr
      requires Wf() && i < |nodes|
      decreases i
    {
      match nodes[i]
      case NLit(t) => Lit(t)
      case NSym(s) => Leaf(s)
      case NNot(a) => Not(TermOf(a))
      case NBin(op, l, r) => Bin(op, TermOf(l), TermOf(r))
      case NMerge(b, x, y) => MergeOf(TermOf(b), TermOf(x), TermOf(y))
    }

    /** `TernaryData::make`: fold the operator over the children's constants, if all are known. */
    function Make(n: ENode): Option<T>
      requires Wf() && Below(n, |nodes|)
    {
      match n
      case NLit(t) => Some(t)
      case NSym(_) => None
      case NNot(a) => if Constant(a).Some? then Some(MvNeg(Constant(a).value)) else None
      case NBin(op, l, r) =>
        if Constant(l).Some? && Constant(r).Some? then Some(Apply(op, Constant(l).value, Constant(r).value)) else None
      case NMerge(b, x, y) =>
        if Constant(b).Some? && Constant(x).Some? && Constant(y).Some?
        then Some(Merge(Constant(b).value, Constant(x).value, Constant(y).value)) else None
    }
  }

  /** `TernaryData::merge`: a constant is taken over only where there was none. */
  function MergeData(to: Option<T>, from: Option<T>): Option<T> { if to.None? && from.Some? then from else to }

  // ---- steps ---------------------------------------------------------------------------------

  /** A new e-node starts a class of its own. */
  function Add(g: EGraph, n: ENode): EGraph
    requires g.Wf() && Below(n, |g.nodes|)
  {
    EGraph(g.nodes + [n], g.classOf + [|g.nodes|], g.data[|g.nodes| := g.Make(n)])
  }

  /** Put every e-node of from's class into to's class and merge the data. */
  function Union(g: EGraph, to: nat, from: nat): EGraph
    requires g.Wf() && to < |g.nodes| && from < |g.nodes|
  {
    var ct, cf := g.classOf[to], g.classOf[from];
    if ct == cf then g
    else
      EGraph(g.nodes, seq(|g.classOf|, i requires 0 <= i < |g.classOf| => if g.classOf[i] == cf then ct else g.classOf[i]),
             g.data[ct := MergeData(g.data[ct], g.data[cf])])
  }

  /** Recompute an e-node's data from its children and merge it into its class. */
  function Reanalyse(g: EGraph, i: nat): EGraph
    requires g.Wf() && i < |g.nodes|
  {
    g.(data := g.data[g.classOf[i] := MergeData(g.Constant(i), g.Make(g.nodes[i]))])
  }

  /** What a match binds the variables of a rule to. */
  datatype Binding = Binding(x: nat, y: nat, z: nat) {
    function At(v: Variable): nat { match v case First => x case Second => y case Third => z }
  }

  /** The pattern matches at e-node i modulo the classes: some e-node of the same class has the
      pattern's operator, and its children match in turn. */
  ghost predicate Matches(g: EGraph, p: Pattern, b: Binding, i: nat)
    requires g.Wf()
    decreases p
  {
    i < |g.nodes| &&
    match p
    case Leaf(v) => b.At(v) < |g.nodes| && g.classOf[b.At(v)] == g.classOf[i]
    case Lit(t) => exists j :: 0 <= j < |g.nodes| && g.classOf[j] == g.classOf[i] && g.nodes[j] == NLit(t)
    case Not(q) =>
      exists j :: 0 <= j < |g.nodes| && g.classOf[j] == g.classOf[i] && g.nodes[j].NNot? && Matches(g, q, b, g.nodes[j].a)
    case Bin(op, q, r) =>
      exists j :: 0 <= j < |g.nodes| && g.classOf[j] == g.classOf[i] && g.nodes[j].NBin? && g.nodes[j].op == op
                  && Matches(g, q, b, g.nodes[j].l) && Matches(g, r, b, g.nodes[j].r)
    case MergeOf(q, r, s) =>
      exists j :: 0 <= j < |g.nodes| && g.classOf[j] == g.classOf[i] && g.nodes[j].NMerge?
                  && Matches(g, q, b, g.nodes[j].b) && Matches(g, r, b, g.nodes[j].x) && Matches(g, s, b, g.nodes[j].y)
  }

  /** The same operator over children of the same classes. */
  predicate Congruent(g: EGraph, i: nat, j: nat)
    requires g.Wf() && i < |g.nodes| && j < |g.nodes|
  {
    match (g.nodes[i], g.nodes[j])
    case (NLit(t), NLit(u)) => t == u
    case (NSym(s), NSym(r)) => s == r
    case (NNot(a), NNot(b)) => g.classOf[a] == g.classOf[b]
    case (NBin(op, a, b), NBin(op', c, d)) => op == op' && g.classOf[a] == g.classOf[c] && g.classOf[b] == g.classOf[d]
    case (NMerge(a, b, c), NMerge(d, e, f)) =>
      g.classOf[a] == g.classOf[d] && g.classOf[b] == g.classOf[e] && g.classOf[c] == g.classOf[f]
    case _ => false
  }

  /** Why two classes may be merged: both sides of a rule match under one binding, or congruence. */
  ghost predicate Justified(g: EGraph, i: nat, j: nat)
    requires g.Wf() && i < |g.nodes| && j < |g.nodes|
  {
    || Congruent(g, i, j)
    || exists r, b :: r in RULES && Matches(g, r.lhs, b, i) && Matches(g, r.rhs, b, j)
  }

  datatype Change = AddNode(n: ENode) | Merging(i: nat, j: nat, intoSecond: bool) | Recompute(i: nat)

  /** One step of saturation; which of two merged classes survives is not fixed. */
  ghost predicate Step(g: EGraph, change: Change, g': EGraph) {
    g.Wf() &&
    match change
    case AddNode(n) => Below(n, |g.nodes|) && g' == Add(g, n)
    case Merging(i, j, intoSecond) =>
      i < |g.nodes| && j < |g.nodes| && Justified(g, i, j) && g' == (if intoSecond then Union(g, j, i) else Union(g, i, j))
    case Recompute(i) => i < |g.nodes| && g' == Reanalyse(g, i)
  }

  // ---- the invariant ----------------------------------------------------------------------------

  /** Terms of one class are derivably equal. */
  ghost predicate ClassesEqual(g: EGraph)
    requires g.Wf()
  {
    forall i, j :: 0 <= i < |g.nodes| && 0 <= j < |g.nodes| && g.classOf[i] == g.classOf[j] ==> Equal(g.TermOf(i), g.TermOf(j))
  }

  /** v is the value of the term under every assignment. */
  ghost predicate AlwaysIs(t: Expr, v: T) { forall env: Symbol -> T :: Evaluate(t, env) == v }

  /** A known constant is the value of every term of its class under every assignment. */
  ghost predicate ConstantsRight(g: EGraph)
    requires g.Wf()
  {
    forall i :: 0 <= i < |g.nodes| && g.Constant(i).Some? ==> AlwaysIs(g.TermOf(i), g.Constant(i).value)
  }

  ghost predicate Sound(g: EGraph) { g.Wf() && ClassesEqual(g) && ConstantsRight(g) }

  const EMPTY_EGRAPH := EGraph([], [], map[])

  lemma ConstantUnique(t: Expr, u: T, v: T)
    requires AlwaysIs(t, u) && AlwaysIs(t, v)
    ensures u == v
  {
    var env := (s: Symbol) => Neg;
    assert Evaluate(t, env) == u;
  }

  lemma AlwaysEqual(a: Expr, b: Expr, v: T)
    requires Equal(a, b) && AlwaysIs(a, v)
    ensures AlwaysIs(b, v)
  {
    forall env: Symbol -> T ensures Evaluate(b, env) == v { EqualIsSound(a, b, env); }
  }

  // ---- terms and constants -----------------------------------------------------------------------

  /** Terms depend on the e-nodes alone. */
  lemma {:induction false} SameTerms(g: EGraph, g': EGraph, i: nat)
    requires g.Wf() && g'.Wf() && g.nodes <= g'.nodes && i < |g.nodes|
    ensures g'.TermOf(i) == g.TermOf(i)
    decreases i
  {
    assert g'.nodes[i] == g.nodes[i];
    match g.nodes[i] {
      case NLit(_) =>
      case NSym(_) =>
      case NNot(a) => SameTerms(g, g', a);
      case NBin(_, l, r) =>
        SameTerms(g, g', l);
        SameTerms(g, g', r);
      case NMerge(b, x, y) =>
        SameTerms(g, g', b);
        SameTerms(g, g', x);
        SameTerms(g, g', y);
    }
  }

  /** The analysis of an e-node is the value of its term. */
  lemma MakeIsRight(g: EGraph, i: nat)
    requires Sound(g) && i < |g.nodes| && g.Make(g.nodes[i]).Some?
    ensures AlwaysIs(g.TermOf(i), g.Make(g.nodes[i]).value)
  {
    forall env: Symbol -> T ensures Evaluate(g.TermOf(i), env) == g.Make(g.nodes[i]).value {
      match g.nodes[i] {
        case NLit(t) =>
        case NNot(a) => assert AlwaysIs(g.TermOf(a), g.Constant(a).value);
        case NBin(op, l, r) => assert AlwaysIs(g.TermOf(l), g.Constant(l).value) && AlwaysIs(g.TermOf(r), g.Constant(r).value);
        case NMerge(b, x, y) =>
          assert AlwaysIs(g.TermOf(b), g.Constant(b).value) && AlwaysIs(g.TermOf(x), g.Constant(x).value)
            && AlwaysIs(g.TermOf(y), g.Constant(y).value);
      }
    }
  }

  // ---- matching -----------------------------------------------------------------------------------

  /** The term a pattern stands for under a binding. */
  function Instantiated(g: EGraph, b: Binding): Args
    requires g.Wf()
  {
    Args(TermAt(g, b.x), TermAt(g, b.y), TermAt(g, b.z))
  }

  function TermAt(g: EGraph, i: nat): Expr
    requires g.Wf()
  {
    if i < |g.nodes| then g.TermOf(i) else Lit(Neg)
  }

  /** Where a pattern matches, its instance is derivably equal to the term. */
  lemma {:induction false} MatchIsEqual(g: EGraph, p: Pattern, b: Binding, i: nat)
    requires g.Wf() && ClassesEqual(g) && Matches(g, p, b, i)
    ensures Equal(Substitute(p, Arguments(Instantiated(g, b))), g.TermOf(i))
    decreases p, 1
  {
    match p {
      case Leaf(v) =>
        assert Equal(g.TermOf(b.At(v)), g.TermOf(i));
      case Lit(t) =>
        var j :| 0 <= j < |g.nodes| && g.classOf[j] == g.classOf[i] && g.nodes[j] == NLit(t);
        assert Equal(g.TermOf(j), g.TermOf(i));
      case Not(q) => MatchNot(g, q, b, i);
      case Bin(op, q, r) => MatchBin(g, op, q, r, b, i);
      case MergeOf(q, r, s) => MatchMerge(g, q, r, s, b, i);
    }
  }

  lemma MatchNot(g: EGraph, q: Pattern, b: Binding, i: nat)
    requires g.Wf() && ClassesEqual(g) && Matches(g, Not(q), b, i)
    ensures Equal(Substitute(Not(q), Arguments(Instantiated(g, b))), g.TermOf(i))
    decreases Not(q), 0
  {
    var j :| 0 <= j < |g.nodes| && g.classOf[j] == g.classOf[i] && g.nodes[j].NNot? && Matches(g, q, b, g.nodes[j].a);
    var t := Substitute(q, Arguments(Instantiated(g, b)));
    hide Matches, Equal, Instantiated, Arguments;
    MatchIsEqual(g, q, b, g.nodes[j].a);
    EqualNot(t, g.TermOf(g.nodes[j].a));
    SameClass(g, Not(t), j, i);
  }

  lemma SameClass(g: EGraph, t: Expr, j: nat, i: nat)
    requires g.Wf() && ClassesEqual(g) && j < |g.nodes| && i < |g.nodes| && g.classOf[j] == g.classOf[i] && Equal(t, g.TermOf(j))
    ensures Equal(t, g.TermOf(i))
  {
    EqualTrans(t, g.TermOf(j), g.TermOf(i));
  }

  lemma MatchBin(g: EGraph, op: BinOp, q: Pattern, r: Pattern, b: Binding, i: nat)
    requires g.Wf() && ClassesEqual(g) && Matches(g, Bin(op, q, r), b, i)
    ensures Equal(Substitute(Bin(op, q, r), Arguments(Instantiated(g, b))), g.TermOf(i))
    decreases Bin(op, q, r), 0
  {
    var j :| 0 <= j < |g.nodes| && g.classOf[j] == g.classOf[i] && g.nodes[j].NBin? && g.nodes[j].op == op
             && Matches(g, q, b, g.nodes[j].l) && Matches(g, r, b, g.nodes[j].r);
    var f := Arguments(Instantiated(g, b));
    hide Matches, Equal, Instantiated, Arguments;
    MatchIsEqual(g, q, b, g.nodes[j].l);
    MatchIsEqual(g, r, b, g.nodes[j].r);
    EqualBin(op, Substitute(q, f), g.TermOf(g.nodes[j].l), Substitute(r, f), g.TermOf(g.nodes[j].r));
    SameClass(g, Bin(op, Substitute(q, f), Substitute(r, f)), j, i);
  }

  lemma FindMerge(g: EGraph, q: Pattern, r: Pattern, s: Pattern, b: Binding, i: nat) returns (j: nat)
    requires g.Wf() && Matches(g, MergeOf(q, r, s), b, i)
    ensures j < |g.nodes| && g.classOf[j] == g.classOf[i] && g.nodes[j].NMerge?
    ensures Matches(g, q, b, g.nodes[j].b) && Matches(g, r, b, g.nodes[j].x) && Matches(g, s, b, g.nodes[j].y)
  {
    j :| 0 <= j < |g.nodes| && g.classOf[j] == g.classOf[i] && g.nodes[j].NMerge?
         && Matches(g, q, b, g.nodes[j].b) && Matches(g, r, b, g.nodes[j].x) && Matches(g, s, b, g.nodes[j].y);
  }

  lemma MatchMerge(g: EGraph, q: Pattern, r: Pattern, s: Pattern, b: Binding, i: nat)
    requires g.Wf() && ClassesEqual(g) && Matches(g, MergeOf(q, r, s), b, i)
    ensures Equal(Substitute(MergeOf(q, r, s), Arguments(Instantiated(g, b))), g.TermOf(i))
    decreases MergeOf(q, r, s), 0
  {
    var j := FindMerge(g, q, r, s, b, i);
    hide Matches, Equal, Instantiated, Arguments, ClassesEqual;
    var n := g.nodes[j];
    var f := Arguments(Instantiated(g, b));
    MatchIsEqual(g, q, b, n.b);
    MatchIsEqual(g, r, b, n.x);
    MatchIsEqual(g, s, b, n.y);
    EqualMerge(Substitute(q, f), g.TermOf(n.b), Substitute(r, f), g.TermOf(n.x), Substitute(s, f), g.TermOf(n.y));
    SameClass(g, MergeOf(Substitute(q, f), Substitute(r, f), Substitute(s, f)), j, i);
  }

  lemma CongruentIsEqual(g: EGraph, i: nat, j: nat)
    requires g.Wf() && ClassesEqual(g) && i < |g.nodes| && j < |g.nodes| && Congruent(g, i, j)
    ensures Equal(g.TermOf(i), g.TermOf(j))
  {
    match (g.nodes[i], g.nodes[j]) {
      case (NLit(t), NLit(u)) => EqualRefl(Lit(t));
      case (NSym(s), NSym(r)) => EqualRefl(Leaf(s));
      case (NNot(a), NNot(b)) => EqualNot(g.TermOf(a), g.TermOf(b));
      case (NBin(op, a, b), NBin(_, c, d)) => EqualBin(op, g.TermOf(a), g.TermOf(c), g.TermOf(b), g.TermOf(d));
      case (NMerge(a, b, c), NMerge(d, e, f)) =>
        EqualMerge(g.TermOf(a), g.TermOf(d), g.TermOf(b), g.TermOf(e), g.TermOf(c), g.TermOf(f));
    }
  }

  /** A justified merge joins derivably equal terms. */
  lemma JustifiedIsEqual(g: EGraph, i: nat, j: nat)
    requires g.Wf() && ClassesEqual(g) && i < |g.nodes| && j < |g.nodes| && Justified(g, i, j)
    ensures Equal(g.TermOf(i), g.TermOf(j))
  {
    if Congruent(g, i, j) {
      CongruentIsEqual(g, i, j);
    } else {
      var r, b :| r in RULES && Matches(g, r.lhs, b, i) && Matches(g, r.rhs, b, j);
      var args := Instantiated(g, b);
      MatchIsEqual(g, r.lhs, b, i);
      MatchIsEqual(g, r.rhs, b, j);
      var lhs, rhs := Substitute(r.lhs, Arguments(args)), Substitute(r.rhs, Arguments(args));
      assert Derives(Instance(r, args), lhs, rhs);
      EqualSymm(lhs, g.TermOf(i));
      EqualTrans(g.TermOf(i), lhs, rhs);
      EqualTrans(g.TermOf(i), rhs, g.TermOf(j));
    }
  }

  // ---- every step keeps the invariant --------------------------------------------------------------

  lemma AddWf(g: EGraph, n: ENode)
    requires g.Wf() && Below(n, |g.nodes|)
    ensures Add(g, n).Wf()
  {}

  lemma AddSound(g: EGraph, n: ENode)
    requires Sound(g) && Below(n, |g.nodes|)
    ensures Sound(Add(g, n))
  {
    AddWf(g, n);
    var g', last := Add(g, n), |g.nodes|;
    assert g.nodes <= g'.nodes;
    forall i | 0 <= i < last ensures g'.TermOf(i) == g.TermOf(i) && g'.Constant(i) == g.Constant(i) { SameTerms(g, g', i); }
    AddAnalysis(g, n);
    forall i, j | 0 <= i < |g'.nodes| && 0 <= j < |g'.nodes| && g'.classOf[i] == g'.classOf[j]
      ensures Equal(g'.TermOf(i), g'.TermOf(j))
    {
      if i == last || j == last { EqualRefl(g'.TermOf(i)); }
    }
  }

  /** The new e-node's data is the value of its term. */
  lemma AddAnalysis(g: EGraph, n: ENode)
    requires Sound(g) && Below(n, |g.nodes|) && Add(g, n).Wf()
    ensures var g', last := Add(g, n), |g.nodes|;
      g'.Constant(last) == g.Make(n) && (g.Make(n).Some? ==> AlwaysIs(g'.TermOf(last), g.Make(n).value))
  {
    var g', last := Add(g, n), |g.nodes|;
    assert g.nodes <= g'.nodes;
    if g.Make(n).Some? {
      forall env: Symbol -> T ensures Evaluate(g'.TermOf(last), env) == g.Make(n).value {
        match n {
          case NLit(t) =>
          case NNot(a) => ChildValue(g, g', a, env);
          case NBin(op, l, r) =>
            ChildValue(g, g', l, env);
            ChildValue(g, g', r, env);
          case NMerge(b, x, y) =>
            ChildValue(g, g', b, env);
            ChildValue(g, g', x, env);
            ChildValue(g, g', y, env);
        }
      }
    }
  }

  lemma ChildValue(g: EGraph, g': EGraph, a: nat, env: Symbol -> T)
    requires Sound(g) && g'.Wf() && g.nodes <= g'.nodes && a < |g.nodes| && g.Constant(a).Some?
    ensures Evaluate(g'.TermOf(a), env) == g.Constant(a).value
  {
    SameTerms(g, g', a);
    assert AlwaysIs(g.TermOf(a), g.Constant(a).value);
  }

  /** Two derivably equal terms have no conflicting constants: `merge` never has to drop one. */
  lemma NoConflict(g: EGraph, i: nat, j: nat)
    requires Sound(g) && i < |g.nodes| && j < |g.nodes| && Equal(g.TermOf(i), g.TermOf(j))
    ensures g.Constant(i).Some? && g.Constant(j).Some? ==> g.Constant(i) == g.Constant(j)
    ensures MergeData(g.Constant(i), g.Constant(j)) == if g.Constant(i).Some? then g.Constant(i) else g.Constant(j)
  {
    if g.Constant(i).Some? && g.Constant(j).Some? {
      AlwaysEqual(g.TermOf(i), g.TermOf(j), g.Constant(i).value);
      ConstantUnique(g.TermOf(j), g.Constant(i).value, g.Constant(j).value);
    }
  }

  lemma UnionWf(g: EGraph, i: nat, j: nat)
    requires g.Wf() && i < |g.nodes| && j < |g.nodes|
    ensures Union(g, i, j).Wf() && Union(g, i, j).nodes == g.nodes
    ensures var g' := Union(g, i, j);
      forall k :: 0 <= k < |g.nodes| ==> g'.classOf[k] == if g.classOf[k] == g.classOf[j] then g.classOf[i] else g.classOf[k]
  {}

  lemma UnionEqual(g: EGraph, i: nat, j: nat, k: nat)
    requires Sound(g) && i < |g.nodes| && j < |g.nodes| && k < |g.nodes| && Equal(g.TermOf(i), g.TermOf(j))
    requires g.classOf[k] == g.classOf[i] || g.classOf[k] == g.classOf[j]
    ensures Equal(g.TermOf(i), g.TermOf(k))
  {
    if g.classOf[k] != g.classOf[i] { EqualTrans(g.TermOf(i), g.TermOf(j), g.TermOf(k)); }
  }

  lemma UnionSound(g: EGraph, i: nat, j: nat)
    requires Sound(g) && i < |g.nodes| && j < |g.nodes| && Equal(g.TermOf(i), g.TermOf(j))
    ensures Sound(Union(g, i, j))
  {
    UnionWf(g, i, j);
    var g' := Union(g, i, j);
    forall k | 0 <= k < |g.nodes| ensures g'.TermOf(k) == g.TermOf(k) { SameTerms(g, g', k); }
    if g.classOf[i] != g.classOf[j] {
      forall k, m | 0 <= k < |g.nodes| && 0 <= m < |g.nodes| && g'.classOf[k] == g'.classOf[m]
        ensures Equal(g'.TermOf(k), g'.TermOf(m))
      {
        if g.classOf[k] != g.classOf[m] {
          UnionEqual(g, i, j, k);
          UnionEqual(g, i, j, m);
          EqualSymm(g.TermOf(i), g.TermOf(k));
          EqualTrans(g.TermOf(k), g.TermOf(i), g.TermOf(m));
        }
      }
      forall k | 0 <= k < |g.nodes| && g'.Constant(k).Some? ensures AlwaysIs(g'.TermOf(k), g'.Constant(k).value) {
        UnionConstant(g, i, j, k);
      }
    }
  }

  lemma UnionConstant(g: EGraph, i: nat, j: nat, k: nat)
    requires Sound(g) && i < |g.nodes| && j < |g.nodes| && k < |g.nodes| && Equal(g.TermOf(i), g.TermOf(j))
    requires g.classOf[i] != g.classOf[j] && Union(g, i, j).Wf() && Union(g, i, j).Constant(k).Some?
    ensures AlwaysIs(g.TermOf(k), Union(g, i, j).Constant(k).value)
  {
    UnionWf(g, i, j);
    var v := Union(g, i, j).Constant(k).value;
    if g.classOf[k] == g.classOf[i] || g.classOf[k] == g.classOf[j] {
      assert AlwaysIs(g.TermOf(i), v) by {
        if g.Constant(i).None? {
          EqualSymm(g.TermOf(i), g.TermOf(j));
          AlwaysEqual(g.TermOf(j), g.TermOf(i), v);
        }
      }
      UnionEqual(g, i, j, k);
      AlwaysEqual(g.TermOf(i), g.TermOf(k), v);
    } else {
      assert Union(g, i, j).Constant(k) == g.Constant(k);
    }
  }

  lemma ReanalyseSound(g: EGraph, i: nat)
    requires Sound(g) && i < |g.nodes|
    ensures Sound(Reanalyse(g, i))
  {
    var g' := Reanalyse(g, i);
    forall k | 0 <= k < |g.nodes| ensures g'.TermOf(k) == g.TermOf(k) { SameTerms(g, g', k); }
    if g.Make(g.nodes[i]).Some? { MakeIsRight(g, i); }
    forall k | 0 <= k < |g.nodes| && g'.Constant(k).Some? ensures AlwaysIs(g'.TermOf(k), g'.Constant(k).value) {
      if g.classOf[k] == g.classOf[i] {
        if g.Constant(i).None? {
          AlwaysEqual(g.TermOf(i), g.TermOf(k), g'.Constant(k).value);
        } else {
          assert g'.Constant(k) == g.Constant(k);
        }
      } else {
        assert g'.Constant(k) == g.Constant(k);
      }
    }
  }

  lemma StepSound(g: EGraph, change: Change, g': EGraph)
    requires Sound(g) && Step(g, change, g')
    ensures Sound(g')
  {
    match change {
      case AddNode(n) => AddSound(g, n);
      case Merging(i, j, intoSecond) =>
        JustifiedIsEqual(g, i, j);
        EqualSymm(g.TermOf(i), g.TermOf(j));
        if intoSecond { UnionSound(g, j, i); } else { UnionSound(g, i, j); }
      case Recompute(i) => ReanalyseSound(g, i);
    }
  }

  ghost predicate Run(states: seq<EGraph>, changes: seq<Change>) {
    |states| == |changes| + 1 && forall k :: 0 <= k < |changes| ==> Step(states[k], changes[k], states[k + 1])
  }

  /** In every state of every saturation run, terms of one class evaluate alike under every
      assignment, and a class's constant is that value. */
  lemma RunsSound(states: seq<EGraph>, changes: seq<Change>)
    requires Run(states, changes) && states[0] == EMPTY_EGRAPH
    ensures forall k :: 0 <= k < |states| ==> Sound(states[k])
  {
    hide Step, Sound;
    assert Sound(states[0]) by { EmptySound(); }
    for k := 0 to |changes|
      invariant forall i :: 0 <= i <= k ==> Sound(states[i])
    {
      StepSound(states[k], changes[k], states[k + 1]);
    }
  }

  lemma EmptySound()
    ensures Sound(EMPTY_EGRAPH)
  {}

  /** Whatever merge is justified next, the two classes' constants do not conflict. */
  ghost predicate NeverConflicts(g: EGraph)
    requires g.Wf()
  {
    forall i, j :: 0 <= i < |g.nodes| && 0 <= j < |g.nodes| && Justified(g, i, j) ==>
      g.Constant(i).None? || g.Constant(j).None? || g.Constant(i) == g.Constant(j)
  }

  /** No class holds two different literals. */
  ghost predicate OneLiteral(g: EGraph)
    requires g.Wf()
  {
    forall i, j :: 0 <= i < |g.nodes| && 0 <= j < |g.nodes| && g.classOf[i] == g.classOf[j] ==>
      g.nodes[i].NLit? && g.nodes[j].NLit? ==> g.nodes[i] == g.nodes[j]
  }

  /** No merge of a saturation run meets two different constants, so none is ever dropped, and no
      class holds two different literals. */
  lemma RunsNeverConflict(states: seq<EGraph>, changes: seq<Change>, k: nat)
    requires Run(states, changes) && states[0] == EMPTY_EGRAPH && k < |states|
    ensures Sound(states[k]) && NeverConflicts(states[k]) && OneLiteral(states[k])
  {
    RunsSound(states, changes);
    var g := states[k];
    forall i, j | 0 <= i < |g.nodes| && 0 <= j < |g.nodes| && Justified(g, i, j) && g.Constant(i).Some? && g.Constant(j).Some?
      ensures g.Constant(i) == g.Constant(j)
    {
      JustifiedIsEqual(g, i, j);
      NoConflict(g, i, j);
    }
    forall i, j | 0 <= i < |g.nodes| && 0 <= j < |g.nodes| && g.classOf[i] == g.classOf[j] && g.nodes[i].NLit? && g.nodes[j].NLit?
      ensures g.nodes[i] == g.nodes[j]
    {
      ConstantsStayDistinct(g.nodes[i].t, g.nodes[j].t);
    }
  }
}
