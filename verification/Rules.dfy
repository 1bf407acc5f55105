/** Computation rules of derived nodes. */
module Rules {
  import opened Base
  import opened Ternary

  datatype ComputeRule =
    | Identity | MvNegRule | MvAddRule | MvMulRule | MvSubRule | MergeRule
    | MeetAllRule | JoinAnyRule | BochvarFold | PowerProduct

  /** Fewest dependencies for which the rule yields a value. */
  function Arity(rule: ComputeRule): nat {
    match rule
    case Identity => 1
    case MvNegRule => 1
    case MvAddRule => 2
    case MvMulRule => 2
    case MvSubRule => 2
    case MergeRule => 3
    case MeetAllRule => 0
    case JoinAnyRule => 0
    case BochvarFold => 0
    case PowerProduct => 2
  }

  /** `ComputeRule::eval`; None when the rule lacks dependencies. */
  function Eval(rule: ComputeRule, deps: seq<T>): (r: Option<T>)
    ensures r.Some? <==> |deps| >= Arity(rule)
  {
    if |deps| < Arity(rule) then None
    else match rule
      case Identity => Some(deps[0])
      case MvNegRule => Some(MvNeg(deps[0]))
      case MvAddRule => Some(MvAdd(deps[0], deps[1]))
      case MvMulRule => Some(MvMul(deps[0], deps[1]))
      case MvSubRule => Some(MvSub(deps[0], deps[1]))
      case MergeRule => Some(Merge(deps[0], deps[1], deps[2]))
      case MeetAllRule => Some(MeetAll(deps))
      case JoinAnyRule => Some(JoinAny(deps))
      case BochvarFold => Some(BochvarFoldAdd(deps))
      case PowerProduct => Some(MvMul(deps[0], deps[1]))
  }

  /** `eval(..).unwrap_or(Neg)`, as the propagation step uses it. */
  function EvalOrNeg(rule: ComputeRule, deps: seq<T>): T {
    var r := Eval(rule, deps);
    if r.Some? then r.value else Neg
  }

  /** The rules that answer Pos when every dependency is Pos, at the given number of them. */
  predicate MapsPosToPos(rule: ComputeRule, n: nat) {
    rule != MvNegRule && rule != MvSubRule && Arity(rule) <= n && (rule.JoinAnyRule? || rule.BochvarFold? ==> n > 0)
  }

  lemma AllPosEval(rule: ComputeRule, deps: seq<T>)
    requires forall i :: 0 <= i < |deps| ==> deps[i] == Pos
    ensures EvalOrNeg(rule, deps) == Pos <==> MapsPosToPos(rule, |deps|)
  {
    FoldsCharacterised(deps);
    if deps != [] { assert deps[0] in deps; }
  }

  /** When a rule with a Zero dependency answers Zero: the exact condition, rule by rule. */
  predicate ZeroInfectious(rule: ComputeRule, deps: seq<T>)
    requires |deps| >= Arity(rule)
  {
    match rule
    case Identity => deps[0] == Zero
    case MvNegRule => deps[0] == Zero
    case MvAddRule => {deps[0], deps[1]} == {Neg, Zero}
    case MvMulRule => {deps[0], deps[1]} == {Zero, Pos}
    case PowerProduct => {deps[0], deps[1]} == {Zero, Pos}
    case MvSubRule => (deps[0], deps[1]) in {(Zero, Neg), (Pos, Zero)}
    case MergeRule => deps[0] == deps[1] == Zero || deps[1] == deps[2] == Zero || deps[0] == deps[2] == Zero
                      || {deps[0], deps[1], deps[2]} == {Neg, Zero, Pos}
    case MeetAllRule => Neg !in deps
    case JoinAnyRule => Pos !in deps
    case BochvarFold => true
  }

  lemma ZeroEval(rule: ComputeRule, deps: seq<T>)
    requires Zero in deps && |deps| >= Arity(rule)
    ensures Eval(rule, deps) == Some(Zero) <==> ZeroInfectious(rule, deps)
  {
    FoldsCharacterised(deps);
    if Arity(rule) == 2 {
      ZeroEvalBinary(rule, deps);
    } else if rule.MergeRule? {
      ZeroEvalMerge(deps);
    }
  }

  lemma ZeroEvalBinary(rule: ComputeRule, deps: seq<T>)
    requires Arity(rule) == 2 && |deps| >= 2
    ensures Eval(rule, deps) == Some(Zero) <==> ZeroInfectious(rule, deps)
  {
    var a, b := deps[0], deps[1];
    match (a, b) {
      case (Neg, Neg) => assert {a, b} == {Neg};
      case (Zero, Zero) => assert {a, b} == {Zero};
      case (Pos, Pos) => assert {a, b} == {Pos};
      case (Neg, Zero) =>
      case (Zero, Neg) => assert {a, b} == {Neg, Zero};
      case (Neg, Pos) => assert Pos in {a, b} && Neg in {a, b};
      case (Pos, Neg) => assert Pos in {a, b} && Neg in {a, b};
      case (Zero, Pos) =>
      case (Pos, Zero) => assert {a, b} == {Zero, Pos};
    }
  }

  lemma ZeroEvalMerge(deps: seq<T>)
    requires |deps| >= 3
    ensures Eval(MergeRule, deps) == Some(Zero) <==> ZeroInfectious(MergeRule, deps)
  {
    var a, b, c := deps[0], deps[1], deps[2];
    var s := {a, b, c};
    assert a in s && b in s && c in s;
    if a != b && b != c && a != c { assert s == {Neg, Zero, Pos}; }
  }
}
