/** The expression of a section member: a term whose value under the pinned boundary is the
    recursive evaluation of the members' rules. */
module SectionExpr {
  import opened Base
  import opened Ternary
  import opened Rules
  import opened Isa
  import opened Deps
  import opened Propagation
  import opened Equations
  import opened EGraphs
  import opened Section

  // ---- a rule as a term ---------------------------------------------------------------------

  function TermOr(terms: seq<Expr>, i: nat): Expr { if i < |terms| then terms[i] else Lit(Neg) }

  function FoldTerm(op: BinOp, acc: Expr, terms: seq<Expr>): Expr
    decreases |terms|
  {
    if terms == [] then acc else FoldTerm(op, Bin(op, acc, terms[0]), terms[1..])
  }

  function ReduceTerm(op: BinOp, terms: seq<Expr>): Expr { if terms == [] then Lit(Neg) else FoldTerm(op, terms[0], terms[1..]) }

  /** `rule_to_node`: missing operands are filled with Neg. */
  function RuleTerm(rule: ComputeRule, terms: seq<Expr>): Expr {
    match rule
    case Identity => TermOr(terms, 0)
    case MvNegRule => Not(TermOr(terms, 0))
    case MvAddRule => Bin(AddOp, TermOr(terms, 0), TermOr(terms, 1))
    case MvMulRule => Bin(MulOp, TermOr(terms, 0), TermOr(terms, 1))
    case MvSubRule => Bin(SubOp, TermOr(terms, 0), TermOr(terms, 1))
    case MergeRule => MergeOf(TermOr(terms, 0), TermOr(terms, 1), TermOr(terms, 2))
    case MeetAllRule => ReduceTerm(MeetOp, terms)
    case JoinAnyRule => ReduceTerm(JoinOp, terms)
    case BochvarFold => ReduceTerm(BochvarOp, terms)
    case PowerProduct => Bin(MulOp, TermOr(terms, 0), TermOr(terms, 1))
  }

  function ValuesOfTerms(terms: seq<Expr>, env: Symbol -> T): (vals: seq<T>)
    ensures |vals| == |terms| && forall i :: 0 <= i < |terms| ==> vals[i] == Evaluate(terms[i], env)
  {
    seq(|terms|, i requires 0 <= i < |terms| => Evaluate(terms[i], env))
  }

  lemma {:induction false} FoldTermMeet(acc: Expr, terms: seq<Expr>, env: Symbol -> T)
    ensures Evaluate(FoldTerm(MeetOp, acc, terms), env) == FoldMeet(Evaluate(acc, env), ValuesOfTerms(terms, env))
    decreases |terms|
  {
    if terms != [] {
      FoldTermMeet(Bin(MeetOp, acc, terms[0]), terms[1..], env);
      assert ValuesOfTerms(terms, env)[1..] == ValuesOfTerms(terms[1..], env);
    }
  }

  lemma {:induction false} FoldTermJoin(acc: Expr, terms: seq<Expr>, env: Symbol -> T)
    ensures Evaluate(FoldTerm(JoinOp, acc, terms), env) == FoldJoin(Evaluate(acc, env), ValuesOfTerms(terms, env))
    decreases |terms|
  {
    if terms != [] {
      FoldTermJoin(Bin(JoinOp, acc, terms[0]), terms[1..], env);
      assert ValuesOfTerms(terms, env)[1..] == ValuesOfTerms(terms[1..], env);
    }
  }

  lemma {:induction false} FoldTermBochvar(acc: Expr, terms: seq<Expr>, env: Symbol -> T)
    ensures Evaluate(FoldTerm(BochvarOp, acc, terms), env) == FoldBochvar(Evaluate(acc, env), ValuesOfTerms(terms, env))
    decreases |terms|
  {
    if terms != [] {
      FoldTermBochvar(Bin(BochvarOp, acc, terms[0]), terms[1..], env);
      assert ValuesOfTerms(terms, env)[1..] == ValuesOfTerms(terms[1..], env);
    }
  }

  /** When the term has the rule's value: exactly the cases in which filling with Neg agrees with the
      rule's answer on too few operands. */
  predicate Agrees(rule: ComputeRule, vals: seq<T>) {
    match rule
    case MvNegRule => |vals| >= 1
    case MvAddRule => |vals| == 1 ==> vals[0] == Neg
    case MvSubRule => |vals| == 1 ==> vals[0] == Neg
    case MergeRule => |vals| == 2 ==> vals[0] == Neg || vals[1] == Neg
    case MeetAllRule => vals != []
    case _ => true
  }

  lemma ReduceAgrees(rule: ComputeRule, terms: seq<Expr>, env: Symbol -> T)
    requires terms != [] && (rule.MeetAllRule? || rule.JoinAnyRule? || rule.BochvarFold?)
    ensures Evaluate(RuleTerm(rule, terms), env) == EvalOrNeg(rule, ValuesOfTerms(terms, env))
  {
    var vals, first, rest := ValuesOfTerms(terms, env), Evaluate(terms[0], env), ValuesOfTerms(terms[1..], env);
    assert vals == [first] + rest;
    assert forall v :: v in vals <==> v == first || v in rest;
    FoldsCharacterised(vals);
    if rule.MeetAllRule? {
      FoldTermMeet(terms[0], terms[1..], env);
      FoldMeetIsMinimum(first, rest);
    } else if rule.JoinAnyRule? {
      FoldTermJoin(terms[0], terms[1..], env);
      FoldJoinIsMaximum(first, rest);
    } else {
      FoldTermBochvar(terms[0], terms[1..], env);
      FoldBochvarIsInfectious(first, rest);
    }
  }

  /** The term has the rule's value exactly when Agrees says so; full arity and a non-empty MeetAll
      suffice. */
  lemma RuleTermExact(rule: ComputeRule, terms: seq<Expr>, env: Symbol -> T)
    ensures var vals := ValuesOfTerms(terms, env);
      && (Evaluate(RuleTerm(rule, terms), env) == EvalOrNeg(rule, vals) <==> Agrees(rule, vals))
      && (|terms| >= Arity(rule) && (rule.MeetAllRule? ==> terms != []) ==> Agrees(rule, vals))
  {
    if terms != [] && (rule.MeetAllRule? || rule.JoinAnyRule? || rule.BochvarFold?) {
      ReduceAgrees(rule, terms, env);
    } else {
      hide FoldTerm, MeetAll, JoinAny, BochvarFoldAdd;
      var vals := ValuesOfTerms(terms, env);
      assert Evaluate(TermOr(terms, 0), env) == if |vals| > 0 then vals[0] else Neg;
      assert Evaluate(TermOr(terms, 1), env) == if |vals| > 1 then vals[1] else Neg;
      assert Evaluate(TermOr(terms, 2), env) == if |vals| > 2 then vals[2] else Neg;
      EmptyFolds();
      ShortRules(rule, terms, env);
    }
  }

  lemma EmptyFolds()
    ensures MeetAll([]) == Pos && JoinAny([]) == Neg && BochvarFoldAdd([]) == Neg
  {}

  lemma ShortRules(rule: ComputeRule, terms: seq<Expr>, env: Symbol -> T)
    requires terms == [] || !(rule.MeetAllRule? || rule.JoinAnyRule? || rule.BochvarFold?)
    ensures var vals := ValuesOfTerms(terms, env);
      Evaluate(RuleTerm(rule, terms), env) == EvalOrNeg(rule, vals) <==> Agrees(rule, vals)
  {
    EmptyFolds();
    var vals := ValuesOfTerms(terms, env);
    if vals == [] { assert vals == [] == ValuesOfTerms([], env); }
  }

  // ---- members -----------------------------------------------------------------------------------

  /** The rank falls from a member to each member it reads. */
  ghost predicate RanksSection(w: World, r: SectionRegion, rank: map<Uid, nat>) {
    && (forall m :: m in r.members ==> m in rank)
    && forall m, d :: m in r.members && d in r.members && d in w.reg.OrderedDepsOf(m) ==> rank[d] < rank[m]
  }

  /** A dependency outside the section: pinned, or its current value as a literal. */
  function OutsideTerm(w: World, r: SectionRegion, d: Uid): Expr {
    if d in r.boundary then Leaf(Pin(r.boundary[d].uid, r.boundary[d].version))
    else if d in w.nodes then Lit(w.nodes[d].value)
    else Lit(Neg)
  }

  function OutsideValue(w: World, r: SectionRegion, d: Uid): T {
    if d in r.boundary then r.boundary[d].value else w.ValueOr(d)
  }

  /** The expression of a member of an acyclic section. */
  ghost function MemberTerm(w: World, r: SectionRegion, rank: map<Uid, nat>, n: Uid): Expr
    requires RanksSection(w, r, rank) && n in r.members
    decreases rank[n], 1, 0
  {
    if n in r.boundary || n !in w.nodes then OutsideTerm(w, r, n)
    else
      match w.nodes[n].kind
      case Input => Lit(w.nodes[n].value)
      case Computed(rule) => RuleTerm(rule, DepTerms(w, r, rank, n, w.reg.OrderedDepsOf(n)))
  }

  ghost function DepTerms(w: World, r: SectionRegion, rank: map<Uid, nat>, n: Uid, ids: seq<Uid>): (terms: seq<Expr>)
    requires RanksSection(w, r, rank) && n in r.members && forall d :: d in ids ==> d in w.reg.OrderedDepsOf(n)
    ensures |terms| == |ids|
    decreases rank[n], 0, |ids|
  {
    if ids == [] then []
    else
      var last := ids[|ids| - 1];
      assert last in ids;
      DepTerms(w, r, rank, n, ids[..|ids| - 1])
        + [if last in r.members then MemberTerm(w, r, rank, last) else OutsideTerm(w, r, last)]
  }

  /** Recursive evaluation of the members' rules over the pinned boundary. */
  ghost function MemberValue(w: World, r: SectionRegion, rank: map<Uid, nat>, n: Uid): T
    requires RanksSection(w, r, rank) && n in r.members
    decreases rank[n], 1, 0
  {
    if n in r.boundary || n !in w.nodes then OutsideValue(w, r, n)
    else
      match w.nodes[n].kind
      case Input => w.nodes[n].value
      case Computed(rule) => EvalOrNeg(rule, DepValues(w, r, rank, n, w.reg.OrderedDepsOf(n)))
  }

  ghost function DepValues(w: World, r: SectionRegion, rank: map<Uid, nat>, n: Uid, ids: seq<Uid>): (vals: seq<T>)
    requires RanksSection(w, r, rank) && n in r.members && forall d :: d in ids ==> d in w.reg.OrderedDepsOf(n)
    ensures |vals| == |ids|
    decreases rank[n], 0, |ids|
  {
    if ids == [] then []
    else
      var last := ids[|ids| - 1];
      assert last in ids;
      DepValues(w, r, rank, n, ids[..|ids| - 1])
        + [if last in r.members then MemberValue(w, r, rank, last) else OutsideValue(w, r, last)]
  }

  /** The assignment the pins describe. */
  function PinnedEnv(r: SectionRegion): Symbol -> T {
    (s: Symbol) =>
      match s
      case Pin(u, v) => if u in r.boundary then r.boundary[u].value else Neg
      case Mu(_) => Neg
  }

  /** Pins carry the identifier they are stored under. */
  predicate PinsNamed(r: SectionRegion) { forall d :: d in r.boundary ==> r.boundary[d].uid == d }

  /** Computed members have all the operands of their rules, and a MeetAll at least one. */
  ghost predicate FullArity(w: World, r: SectionRegion) {
    forall m :: m in r.members && m in w.nodes && w.nodes[m].kind.Computed? ==>
      && |w.reg.OrderedDepsOf(m)| >= Arity(w.nodes[m].kind.rule)
      && (w.nodes[m].kind.rule.MeetAllRule? ==> w.reg.OrderedDepsOf(m) != [])
  }

  lemma OutsideTermValue(w: World, r: SectionRegion, d: Uid)
    requires PinsNamed(r)
    ensures Evaluate(OutsideTerm(w, r, d), PinnedEnv(r)) == OutsideValue(w, r, d)
  {}

  /** On an acyclic section with full arity, a member's term under the pinned boundary has the value of
      evaluating the members' rules recursively. */
  lemma {:induction false} MemberTermValue(w: World, r: SectionRegion, rank: map<Uid, nat>, n: Uid)
    requires RanksSection(w, r, rank) && n in r.members && PinsNamed(r) && FullArity(w, r)
    ensures Evaluate(MemberTerm(w, r, rank, n), PinnedEnv(r)) == MemberValue(w, r, rank, n)
    decreases rank[n], 1, 0
  {
    if n in r.boundary || n !in w.nodes {
      OutsideTermValue(w, r, n);
    } else if w.nodes[n].kind.Computed? {
      var terms := DepTerms(w, r, rank, n, w.reg.OrderedDepsOf(n));
      DepTermsValue(w, r, rank, n, w.reg.OrderedDepsOf(n));
      RuleTermExact(w.nodes[n].kind.rule, terms, PinnedEnv(r));
    }
  }

  lemma {:induction false} DepTermsValue(w: World, r: SectionRegion, rank: map<Uid, nat>, n: Uid, ids: seq<Uid>)
    requires RanksSection(w, r, rank) && n in r.members && PinsNamed(r) && FullArity(w, r) && forall d :: d in ids ==> d in w.reg.OrderedDepsOf(n)
    ensures ValuesOfTerms(DepTerms(w, r, rank, n, ids), PinnedEnv(r)) == DepValues(w, r, rank, n, ids)
    decreases rank[n], 0, |ids|
  {
    if ids != [] {
      var front, last := ids[..|ids| - 1], ids[|ids| - 1];
      assert last in ids;
      DepTermsValue(w, r, rank, n, front);
      if last in r.members { MemberTermValue(w, r, rank, last); } else { OutsideTermValue(w, r, last); }
      var terms := DepTerms(w, r, rank, n, front);
      var t := if last in r.members then MemberTerm(w, r, rank, last) else OutsideTerm(w, r, last);
      assert ValuesOfTerms(terms + [t], PinnedEnv(r)) == ValuesOfTerms(terms, PinnedEnv(r)) + [Evaluate(t, PinnedEnv(r))];
    }
  }

  /** A constant that saturation finds for a class holding a member's term is the member's recursive
      value, whatever rewrites led there. */
  lemma ResolvedIsRecursive(g: EGraph, i: nat, w: World, r: SectionRegion, rank: map<Uid, nat>, n: Uid)
    requires EGraphs.Sound(g) && i < |g.nodes| && g.Constant(i).Some?
    requires RanksSection(w, r, rank) && n in r.members && PinsNamed(r) && FullArity(w, r)
    requires Equal(g.TermOf(i), MemberTerm(w, r, rank, n))
    ensures MemberValue(w, r, rank, n) == g.Constant(i).value
  {
    MemberTermValue(w, r, rank, n);
    AlwaysEqual(g.TermOf(i), MemberTerm(w, r, rank, n), g.Constant(i).value);
    assert Evaluate(MemberTerm(w, r, rank, n), PinnedEnv(r)) == g.Constant(i).value;
  }

  // ---- the builder in place --------------------------------------------------------------------------

  /** The recursive builder with its memo table and its recursion stack. */
  class ExprBuilder {
    const w: World
    const region: SectionRegion
    var memo: map<Uid, Expr>
    var onStack: set<Uid>

    constructor (w: World, region: SectionRegion)
      ensures this.w == w && this.region == region && memo == map[] && onStack == {}
    {
      this.w, this.region := w, region;
      memo, onStack := map[], {};
    }

    /** With respect to an acyclic section: memoised members have their terms, and n ranks below
        everything under construction. */
    ghost predicate OnCourse(rank: map<Uid, nat>, n: Uid)
      reads this
    {
      && RanksSection(w, region, rank) && n in region.members
      && (forall m :: m in memo && m in region.members ==> memo[m] == MemberTerm(w, region, rank, m))
      && forall s :: s in onStack ==> s in region.members && rank[n] < rank[s]
    }

    /** `build_node_expr`: memo, then cycle, then pin, then the node's kind. It ends on every section,
        cyclic ones included; on an acyclic one the result is the member's term. */
    method Build(id: Uid, ghost rank: map<Uid, nat>) returns (expr: Expr)
      requires id in region.members
      modifies this
      decreases |region.members - onStack|, 2
      ensures onStack == old(onStack) && old(memo).Keys <= memo.Keys && id in memo && memo[id] == expr
      ensures old(OnCourse(rank, id)) ==> OnCourse(rank, id) && expr == MemberTerm(w, region, rank, id)
    {
      if id in memo { return memo[id]; }
      if id in onStack {
        expr := Leaf(Mu(id));
        memo := memo[id := expr];
        return;
      }
      if id in region.boundary {
        expr := Leaf(Pin(region.boundary[id].uid, region.boundary[id].version));
        memo := memo[id := expr];
        return;
      }
      if id !in w.nodes {
        expr := Lit(Neg);
        memo := memo[id := expr];
        return;
      }
      expr := BuildNode(id, rank);
      memo := memo[id := expr];
    }

    /** A node of the section, with the node on the stack while its dependencies are built. */
    method BuildNode(id: Uid, ghost rank: map<Uid, nat>) returns (expr: Expr)
      requires id in region.members && id !in onStack && id !in region.boundary && id in w.nodes
      modifies this
      decreases |region.members - onStack|, 1
      ensures onStack == old(onStack) && old(memo).Keys <= memo.Keys
      ensures old(OnCourse(rank, id)) ==> OnCourse(rank, id) && expr == MemberTerm(w, region, rank, id)
    {
      if w.nodes[id].kind.Input? { return Lit(w.nodes[id].value); }
      onStack := onStack + {id};
      assert id in region.members - old(onStack);
      SmallerSet(region.members - onStack, region.members - old(onStack));
      var terms := BuildDeps(id, rank);
      expr := RuleTerm(w.nodes[id].kind.rule, terms);
      onStack := onStack - {id};
      assert onStack == old(onStack);
      hide RuleTerm;
    }

    /** The terms of a member's ordered dependencies. */
    method BuildDeps(id: Uid, ghost rank: map<Uid, nat>) returns (terms: seq<Expr>)
      requires id in region.members && id in onStack
      modifies this
      decreases |region.members - onStack|, 3
      ensures onStack == old(onStack) && old(memo).Keys <= memo.Keys
      ensures old(UnderConstruction(rank, id)) ==>
        UnderConstruction(rank, id) && terms == DepTerms(w, region, rank, id, w.reg.OrderedDepsOf(id))
    {
      var ids := w.reg.OrderedDepsOf(id);
      terms := [];
      for i := 0 to |ids|
        invariant onStack == old(onStack) && |terms| == i && old(memo).Keys <= memo.Keys
        invariant old(UnderConstruction(rank, id)) ==>
          UnderConstruction(rank, id) && terms == DepTerms(w, region, rank, id, ids[..i])
      {
        assert ids[..i + 1][..i] == ids[..i];
        assert ids[i] in ids;
        var d := ids[i];
        if d in region.members {
          var t := Build(d, rank);
          terms := terms + [t];
        } else if d in region.boundary {
          terms := terms + [Leaf(Pin(region.boundary[d].uid, region.boundary[d].version))];
        } else if d in w.nodes {
          terms := terms + [Lit(w.nodes[d].value)];
        } else {
          terms := terms + [Lit(Neg)];
        }
      }
      assert ids[..|ids|] == ids;
    }

    /** As OnCourse, for the members that id reads: they rank below id and everything on the stack. */
    ghost predicate UnderConstruction(rank: map<Uid, nat>, id: Uid)
      reads this
    {
      && RanksSection(w, region, rank) && id in region.members && id in onStack
      && (forall m :: m in memo && m in region.members ==> memo[m] == MemberTerm(w, region, rank, m))
      && forall s :: s in onStack ==> s in region.members && rank[id] <= rank[s]
    }

    /** `build_region_exprs`: every member, in ascending order. */
    method BuildAll(ghost rank: map<Uid, nat>)
      requires memo == map[] && onStack == {}
      modifies this
      ensures forall m :: m in region.members ==> m in memo
      ensures RanksSection(w, region, rank) ==> forall m :: m in region.members ==> memo[m] == MemberTerm(w, region, rank, m)
    {
      var ids := Ascending(region.members);
      AscendingElements(region.members);
      for i := 0 to |ids|
        invariant onStack == {}
        invariant forall k :: 0 <= k < i ==> ids[k] in memo
        invariant RanksSection(w, region, rank) ==>
          forall m :: m in memo && m in region.members ==> memo[m] == MemberTerm(w, region, rank, m)
      {
        assert ids[i] in ids;
        var expr := Build(ids[i], rank);
      }
    }
  }

  lemma SmallerSet(a: set<Uid>, b: set<Uid>)
    requires a < b
    ensures |a| < |b|
  {
    assert b == a + (b - a) && b - a != {};
  }
}
