/** What the constant analysis of the e-graph must answer: terms without symbols are folded completely, in
    every state of every saturation run. */
module GroundFolding {
  import opened Base
  import opened Ternary
  import opened Equations
  import opened EGraphs

  /** The term has no symbol. */
  predicate Ground(t: Expr) {
    match t
    case Leaf(_) => false
    case Lit(_) => true
    case Not(a) => Ground(a)
    case Bin(_, l, r) => Ground(l) && Ground(r)
    case MergeOf(b, x, y) => Ground(b) && Ground(x) && Ground(y)
  }

  /** The children of an e-node. */
  function Operands(n: ENode): seq<nat> {
    match n
    case NLit(_) => []
    case NSym(_) => []
    case NNot(a) => [a]
    case NBin(_, l, r) => [l, r]
    case NMerge(b, x, y) => [b, x, y]
  }

  /** The analysis answers exactly when the e-node is no symbol and every child's constant is known. */
  lemma MakeAnswers(g: EGraph, n: ENode)
    requires g.Wf() && Below(n, |g.nodes|)
    ensures forall k :: 0 <= k < |Operands(n)| ==> Operands(n)[k] < |g.nodes|
    ensures g.Make(n).Some? <==> !n.NSym? && forall k :: 0 <= k < |Operands(n)| ==> g.Constant(Operands(n)[k]).Some?
  {
    match n {
      case NNot(a) => assert Operands(n)[0] == a;
      case NBin(_, l, r) => assert Operands(n)[0] == l && Operands(n)[1] == r;
      case NMerge(b, x, y) => assert Operands(n)[0] == b && Operands(n)[1] == x && Operands(n)[2] == y;
      case _ =>
    }
  }

  /** Re-analysing an e-node whose children are known makes its class known, and forgets nothing. */
  lemma RecomputeAnswers(g: EGraph, i: nat)
    requires g.Wf() && i < |g.nodes| && !g.nodes[i].NSym?
    requires forall k :: 0 <= k < |Operands(g.nodes[i])| ==>
      Operands(g.nodes[i])[k] < |g.nodes| && g.Constant(Operands(g.nodes[i])[k]).Some?
    ensures Reanalyse(g, i).Wf() && Reanalyse(g, i).Constant(i).Some?
  {
    MakeAnswers(g, g.nodes[i]);
  }

  ghost predicate GroundKnown(g: EGraph)
    requires g.Wf()
  {
    forall i :: 0 <= i < |g.nodes| && Ground(g.TermOf(i)) ==> g.Constant(i).Some?
  }

  /** A ground e-node's children are ground. */
  lemma GroundOperands(g: EGraph, i: nat)
    requires g.Wf() && i < |g.nodes| && Ground(g.TermOf(i))
    ensures !g.nodes[i].NSym?
    ensures forall k :: 0 <= k < |Operands(g.nodes[i])| ==> Operands(g.nodes[i])[k] < i && Ground(g.TermOf(Operands(g.nodes[i])[k]))
  {}

  lemma AddKnown(g: EGraph, n: ENode)
    requires g.Wf() && GroundKnown(g) && Below(n, |g.nodes|)
    ensures Add(g, n).Wf() && GroundKnown(Add(g, n))
  {
    var g', last := Add(g, n), |g.nodes|;
    assert g.nodes <= g'.nodes;
    forall i | 0 <= i < last ensures g'.TermOf(i) == g.TermOf(i) && g'.Constant(i) == g.Constant(i) { SameTerms(g, g', i); }
    if Ground(g'.TermOf(last)) {
      GroundOperands(g', last);
      MakeAnswers(g, n);
      assert g'.Constant(last) == g.Make(n);
    }
  }

  lemma UnionKnown(g: EGraph, i: nat, j: nat)
    requires g.Wf() && GroundKnown(g) && i < |g.nodes| && j < |g.nodes|
    ensures Union(g, i, j).Wf() && GroundKnown(Union(g, i, j))
  {
    UnionWf(g, i, j);
    var g' := Union(g, i, j);
    forall k | 0 <= k < |g.nodes| ensures g'.TermOf(k) == g.TermOf(k) && (g.Constant(k).Some? ==> g'.Constant(k).Some?) {
      SameTerms(g, g', k);
    }
  }

  lemma ReanalyseKnown(g: EGraph, i: nat)
    requires g.Wf() && GroundKnown(g) && i < |g.nodes|
    ensures Reanalyse(g, i).Wf() && GroundKnown(Reanalyse(g, i))
  {
    var g' := Reanalyse(g, i);
    forall k | 0 <= k < |g.nodes| ensures g'.TermOf(k) == g.TermOf(k) && (g.Constant(k).Some? ==> g'.Constant(k).Some?) {
      SameTerms(g, g', k);
    }
  }

  lemma StepKnown(g: EGraph, change: Change, g': EGraph)
    requires g.Wf() && GroundKnown(g) && Step(g, change, g')
    ensures g'.Wf() && GroundKnown(g')
  {
    match change {
      case AddNode(n) => AddKnown(g, n);
      case Merging(i, j, intoSecond) => if intoSecond { UnionKnown(g, j, i); } else { UnionKnown(g, i, j); }
      case Recompute(i) => ReanalyseKnown(g, i);
    }
  }

  /** In every state of every saturation run, the class of a term without symbols holds its value. */
  lemma RunsFold(states: seq<EGraph>, changes: seq<Change>, k: nat, i: nat, env: Symbol -> T)
    requires Run(states, changes) && states[0] == EMPTY_EGRAPH && k < |states|
    requires states[k].Wf() && i < |states[k].nodes| && Ground(states[k].TermOf(i))
    ensures states[k].Constant(i) == Some(Evaluate(states[k].TermOf(i), env))
  {
    RunsSound(states, changes);
    hide Step, Ground;
    for m := 0 to k
      invariant states[m].Wf() && GroundKnown(states[m])
    {
      StepKnown(states[m], changes[m], states[m + 1]);
    }
    assert AlwaysIs(states[k].TermOf(i), states[k].Constant(i).value);
  }
}
