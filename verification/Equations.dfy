/** The expression language of stabilisation, its rewrite rules, and what they can derive. */
module Equations {
  import opened Base
  import opened Ternary

  datatype BinOp = AddOp | MulOp | SubOp | MeetOp | JoinOp | BochvarOp

  /** Expressions over leaves: symbols in a section, variables in a rule. */
  datatype Term<+S> =
    | Leaf(s: S)
    | Lit(t: T)
    | Not(a: Term<S>)
    | Bin(op: BinOp, left: Term<S>, right: Term<S>)
    | MergeOf(base: Term<S>, l: Term<S>, r: Term<S>)

  function Apply(op: BinOp, x: T, y: T): T {
    match op
    case AddOp => MvAdd(x, y)
    case MulOp => MvMul(x, y)
    case SubOp => MvSub(x, y)
    case MeetOp => Meet(x, y)
    case JoinOp => Join(x, y)
    case BochvarOp => BochvarAdd(x, y)
  }

  function Evaluate<S>(t: Term<S>, env: S -> T): T {
    match t
    case Leaf(s) => env(s)
    case Lit(v) => v
    case Not(a) => MvNeg(Evaluate(a, env))
    case Bin(op, a, b) => Apply(op, Evaluate(a, env), Evaluate(b, env))
    case MergeOf(b, l, r) => Merge(Evaluate(b, env), Evaluate(l, env), Evaluate(r, env))
  }

  function Substitute<S, R>(t: Term<S>, f: S -> Term<R>): Term<R> {
    match t
    case Leaf(s) => f(s)
    case Lit(v) => Lit(v)
    case Not(a) => Not(Substitute(a, f))
    case Bin(op, a, b) => Bin(op, Substitute(a, f), Substitute(b, f))
    case MergeOf(b, l, r) => MergeOf(Substitute(b, f), Substitute(l, f), Substitute(r, f))
  }

  /** The assignment a substitution makes of an environment. */
  function ValuesOf<S, R>(f: S -> Term<R>, env: R -> T): S -> T { (s: S) => Evaluate(f(s), env) }

  lemma {:induction false} SubstituteEvaluates<S, R>(t: Term<S>, f: S -> Term<R>, env: R -> T)
    ensures Evaluate(Substitute(t, f), env) == Evaluate(t, ValuesOf(f, env))
    decreases t
  {
    match t {
      case Leaf(s) =>
      case Lit(v) =>
      case Not(a) => SubstituteEvaluates(a, f, env);
      case Bin(op, a, b) =>
        SubstituteEvaluates(a, f, env);
        SubstituteEvaluates(b, f, env);
      case MergeOf(b, l, r) =>
        SubstituteEvaluates(b, f, env);
        SubstituteEvaluates(l, f, env);
        SubstituteEvaluates(r, f, env);
    }
  }

  // ---- the rules ---------------------------------------------------------------------------

  /** A leaf of a section: a boundary pin or a cycle breaker. */
  datatype Symbol = Pin(uid: Uid, version: nat) | Mu(uid: Uid)

  type Expr = Term<Symbol>

  datatype Variable = First | Second | Third

  type Pattern = Term<Variable>

  datatype Rule = Rule(lhs: Pattern, rhs: Pattern)

  const X: Pattern := Leaf(First)
  const Y: Pattern := Leaf(Second)
  const Z: Pattern := Leaf(Third)

  /** `pgrs_rules`, in order. */
  const RULES: seq<Rule> := [
    Rule(Not(Not(X)), X),
    Rule(Not(Lit(Zero)), Lit(Zero)),
    Rule(Bin(AddOp, X, Y), Bin(AddOp, Y, X)),
    Rule(Bin(AddOp, Lit(Neg), X), X),
    Rule(Bin(AddOp, X, Lit(Neg)), X),
    Rule(Bin(MulOp, X, Y), Bin(MulOp, Y, X)),
    Rule(Bin(MulOp, Lit(Pos), X), X),
    Rule(Bin(MulOp, X, Lit(Pos)), X),
    Rule(Bin(AddOp, X, Not(X)), Lit(Pos)),
    Rule(MergeOf(X, Y, Y), Y),
    Rule(MergeOf(X, Y, Z), MergeOf(X, Z, Y)),
    Rule(Bin(BochvarOp, Lit(Zero), X), Lit(Zero)),
    Rule(Bin(BochvarOp, X, Lit(Zero)), Lit(Zero)),
    Rule(Not(Bin(AddOp, X, Y)), Bin(MulOp, Not(X), Not(Y))),
    Rule(Bin(MeetOp, Lit(Neg), X), Lit(Neg)),
    Rule(Bin(MeetOp, Lit(Pos), X), X),
    Rule(Bin(JoinOp, Lit(Pos), X), Lit(Pos)),
    Rule(Bin(JoinOp, Lit(Neg), X), X)
  ]

  /** Both sides of every rule have the same value under every assignment of its variables. */
  lemma RuleIsSound(r: Rule, env: Variable -> T)
    requires r in RULES
    ensures Evaluate(r.lhs, env) == Evaluate(r.rhs, env)
  {
    var i :| 0 <= i < |RULES| && RULES[i] == r;
    assert Evaluate(X, env) == env(First) && Evaluate(Y, env) == env(Second) && Evaluate(Z, env) == env(Third);
  }

  // ---- derivations -----------------------------------------------------------------------------

  /** What a match binds the variables to; unused ones do not matter. */
  datatype Args = Args(x: Expr, y: Expr, z: Expr)

  /** A derivation of an equation: a rule instance, reflexivity, symmetry, transitivity, congruence. */
  datatype Proof =
    | Instance(rule: Rule, args: Args)
    | Refl(t: Expr)
    | Symm(p: Proof)
    | Trans(p: Proof, q: Proof)
    | CongNot(p: Proof)
    | CongBin(op: BinOp, p: Proof, q: Proof)
    | CongMerge(p: Proof, q: Proof, r: Proof)

  function Arguments(args: Args): Variable -> Expr {
    (v: Variable) => match v case First => args.x case Second => args.y case Third => args.z
  }

  function Lhs(p: Proof): Expr {
    match p
    case Instance(rule, args) => Substitute(rule.lhs, Arguments(args))
    case Refl(t) => t
    case Symm(q) => Rhs(q)
    case Trans(q, _) => Lhs(q)
    case CongNot(q) => Not(Lhs(q))
    case CongBin(op, a, b) => Bin(op, Lhs(a), Lhs(b))
    case CongMerge(a, b, c) => MergeOf(Lhs(a), Lhs(b), Lhs(c))
  }

  function Rhs(p: Proof): Expr {
    match p
    case Instance(rule, args) => Substitute(rule.rhs, Arguments(args))
    case Refl(t) => t
    case Symm(q) => Lhs(q)
    case Trans(_, q) => Rhs(q)
    case CongNot(q) => Not(Rhs(q))
    case CongBin(op, a, b) => Bin(op, Rhs(a), Rhs(b))
    case CongMerge(a, b, c) => MergeOf(Rhs(a), Rhs(b), Rhs(c))
  }

  predicate ValidProof(p: Proof) {
    match p
    case Instance(rule, _) => rule in RULES
    case Refl(_) => true
    case Symm(q) => ValidProof(q)
    case Trans(a, b) => ValidProof(a) && ValidProof(b) && Rhs(a) == Lhs(b)
    case CongNot(q) => ValidProof(q)
    case CongBin(_, a, b) => ValidProof(a) && ValidProof(b)
    case CongMerge(a, b, c) => ValidProof(a) && ValidProof(b) && ValidProof(c)
  }

  predicate Derives(p: Proof, a: Expr, b: Expr) { ValidProof(p) && Lhs(p) == a && Rhs(p) == b }

  ghost predicate Equal(a: Expr, b: Expr) { exists p :: Derives(p, a, b) }

  lemma InstanceIsSound(rule: Rule, args: Args, env: Symbol -> T)
    requires rule in RULES
    ensures Evaluate(Lhs(Instance(rule, args)), env) == Evaluate(Rhs(Instance(rule, args)), env)
  {
    hide Evaluate, Substitute;
    SubstituteEvaluates(rule.lhs, Arguments(args), env);
    SubstituteEvaluates(rule.rhs, Arguments(args), env);
    RuleIsSound(rule, ValuesOf(Arguments(args), env));
  }

  /** Every derivable equation preserves evaluation under every assignment. */
  lemma {:induction false} DerivationIsSound(p: Proof, env: Symbol -> T)
    requires ValidProof(p)
    ensures Evaluate(Lhs(p), env) == Evaluate(Rhs(p), env)
    decreases p
  {
    hide Apply, Merge, MvNeg, Substitute;
    match p {
      case Instance(rule, args) => InstanceIsSound(rule, args, env);
      case Refl(t) =>
      case Symm(q) => DerivationIsSound(q, env);
      case Trans(a, b) =>
        DerivationIsSound(a, env);
        DerivationIsSound(b, env);
      case CongNot(q) => DerivationIsSound(q, env);
      case CongBin(op, a, b) =>
        DerivationIsSound(a, env);
        DerivationIsSound(b, env);
      case CongMerge(a, b, c) =>
        DerivationIsSound(a, env);
        DerivationIsSound(b, env);
        DerivationIsSound(c, env);
    }
  }

  lemma EqualIsSound(a: Expr, b: Expr, env: Symbol -> T)
    requires Equal(a, b)
    ensures Evaluate(a, env) == Evaluate(b, env)
  {
    var p :| Derives(p, a, b);
    DerivationIsSound(p, env);
  }

  /** No chain of rewrites identifies two different constants. */
  lemma ConstantsStayDistinct(u: T, v: T)
    ensures Equal(Lit(u), Lit(v)) <==> u == v
  {
    if Equal(Lit(u), Lit(v)) { EqualIsSound(Lit(u), Lit(v), (s: Symbol) => Neg); }
    if u == v { EqualRefl(Lit(u)); }
  }

  // ---- the equality is a congruence ---------------------------------------------------------------

  lemma EqualRefl(t: Expr)
    ensures Equal(t, t)
  {
    assert Derives(Refl(t), t, t);
  }

  lemma EqualSymm(a: Expr, b: Expr)
    requires Equal(a, b)
    ensures Equal(b, a)
  {
    var p :| Derives(p, a, b);
    assert Derives(Symm(p), b, a);
  }

  lemma EqualTrans(a: Expr, b: Expr, c: Expr)
    requires Equal(a, b) && Equal(b, c)
    ensures Equal(a, c)
  {
    var p :| Derives(p, a, b);
    var q :| Derives(q, b, c);
    assert Derives(Trans(p, q), a, c);
  }

  lemma EqualNot(a: Expr, b: Expr)
    requires Equal(a, b)
    ensures Equal(Not(a), Not(b))
  {
    var p :| Derives(p, a, b);
    assert Derives(CongNot(p), Not(a), Not(b));
  }

  lemma EqualBin(op: BinOp, a: Expr, b: Expr, c: Expr, d: Expr)
    requires Equal(a, b) && Equal(c, d)
    ensures Equal(Bin(op, a, c), Bin(op, b, d))
  {
    var p :| Derives(p, a, b);
    var q :| Derives(q, c, d);
    assert Derives(CongBin(op, p, q), Bin(op, a, c), Bin(op, b, d));
  }

  lemma EqualMerge(a: Expr, b: Expr, c: Expr, d: Expr, e: Expr, f: Expr)
    requires Equal(a, b) && Equal(c, d) && Equal(e, f)
    ensures Equal(MergeOf(a, c, e), MergeOf(b, d, f))
  {
    var p :| Derives(p, a, b);
    var q :| Derives(q, c, d);
    var r :| Derives(r, e, f);
    assert Derives(CongMerge(p, q, r), MergeOf(a, c, e), MergeOf(b, d, f));
  }
}
