/** The three-valued domain {Neg, Zero, Pos} and its algebra. */
module Ternary {

  datatype T = Neg | Zero | Pos

  /** The position of a value in the chain Neg < Zero < Pos (twice its reading in {0, 1/2, 1}). */
  function Rank(x: T): int { match x case Neg => 0 case Zero => 1 case Pos => 2 }

  function Chain(r: int): T { if r <= 0 then Neg else if r == 1 then Zero else Pos }

  // ---- operations, as the source's match tables ------------------------------------

  function MvNeg(x: T): T { match x case Neg => Pos case Zero => Zero case Pos => Neg }

  function MvAdd(x: T, y: T): T {
    match (x, y)
    case (Neg, Neg) => Neg
    case (Neg, Zero) => Zero
    case (Neg, Pos) => Pos
    case (Zero, Neg) => Zero
    case (Zero, Zero) => Pos
    case (Zero, Pos) => Pos
    case (Pos, _) => Pos
  }

  function MvMul(x: T, y: T): T {
    match (x, y)
    case (Pos, Pos) => Pos
    case (Pos, Zero) => Zero
    case (Pos, Neg) => Neg
    case (Zero, Pos) => Zero
    case (Zero, Zero) => Neg
    case (Zero, Neg) => Neg
    case (Neg, _) => Neg
  }

  function MvSub(x: T, y: T): T { MvNeg(MvAdd(MvNeg(x), y)) }

  function Meet(x: T, y: T): T {
    if x == Neg || y == Neg then Neg else if x == Zero || y == Zero then Zero else Pos
  }

  function Join(x: T, y: T): T {
    if x == Pos || y == Pos then Pos else if x == Zero || y == Zero then Zero else Neg
  }

  function Median(a: T, b: T, c: T): T { Join(Meet(a, b), Join(Meet(b, c), Meet(a, c))) }

  /** Three-way merge of a base with two branches. */
  function Merge(base: T, left: T, right: T): T { Median(base, left, right) }

  /** MV-addition in which Zero is infectious. */
  function BochvarAdd(x: T, y: T): T { if x == Zero || y == Zero then Zero else MvAdd(x, y) }

  /** The tables are the clamped arithmetic of the chain, and merge is symmetric, agrees with
      equal branches, and never leaves the branches' range. */
  lemma Algebra(x: T, y: T, b: T)
    ensures Rank(MvNeg(x)) == 2 - Rank(x)
    ensures MvAdd(x, y) == Chain(Rank(x) + Rank(y))
    ensures MvMul(x, y) == Chain(Rank(x) + Rank(y) - 2)
    ensures MvSub(x, y) == Chain(Rank(x) - Rank(y))
    ensures Meet(x, y) == if Rank(x) <= Rank(y) then x else y
    ensures Join(x, y) == if Rank(x) <= Rank(y) then y else x
    ensures Merge(b, x, y) == Merge(b, y, x) && Merge(b, x, x) == x
    ensures Rank(Meet(x, y)) <= Rank(Merge(b, x, y)) <= Rank(Join(x, y))
  {}

  // ---- folds -------------------------------------------------------------------------

  function FoldMeet(acc: T, vals: seq<T>): T
    decreases |vals|
  {
    if vals == [] then acc else FoldMeet(Meet(acc, vals[0]), vals[1..])
  }

  function FoldJoin(acc: T, vals: seq<T>): T
    decreases |vals|
  {
    if vals == [] then acc else FoldJoin(Join(acc, vals[0]), vals[1..])
  }

  function FoldBochvar(acc: T, vals: seq<T>): T
    decreases |vals|
  {
    if vals == [] then acc else FoldBochvar(BochvarAdd(acc, vals[0]), vals[1..])
  }

  /** `meet_all`: the source's short-list fast paths before the general fold. */
  function MeetAll(vals: seq<T>): T {
    if |vals| == 0 then Pos
    else if |vals| == 1 then vals[0]
    else if |vals| == 2 then Meet(vals[0], vals[1])
    else if |vals| == 3 then Meet(Meet(vals[0], vals[1]), vals[2])
    else FoldMeet(Pos, vals)
  }

  function JoinAny(vals: seq<T>): T {
    if |vals| == 0 then Neg
    else if |vals| == 1 then vals[0]
    else if |vals| == 2 then Join(vals[0], vals[1])
    else if |vals| == 3 then Join(Join(vals[0], vals[1]), vals[2])
    else FoldJoin(Neg, vals)
  }

  function BochvarFoldAdd(vals: seq<T>): T {
    if |vals| == 0 then Neg
    else if |vals| == 1 then vals[0]
    else if |vals| == 2 then BochvarAdd(vals[0], vals[1])
    else if |vals| == 3 then BochvarAdd(BochvarAdd(vals[0], vals[1]), vals[2])
    else FoldBochvar(Neg, vals)
  }

  lemma {:induction false} FoldMeetIsMinimum(acc: T, vals: seq<T>)
    ensures FoldMeet(acc, vals) == if acc == Neg || Neg in vals then Neg
                                   else if acc == Zero || Zero in vals then Zero else Pos
    decreases |vals|
  {
    if vals != [] { FoldMeetIsMinimum(Meet(acc, vals[0]), vals[1..]); }
  }

  lemma {:induction false} FoldJoinIsMaximum(acc: T, vals: seq<T>)
    ensures FoldJoin(acc, vals) == if acc == Pos || Pos in vals then Pos
                                   else if acc == Zero || Zero in vals then Zero else Neg
    decreases |vals|
  {
    if vals != [] { FoldJoinIsMaximum(Join(acc, vals[0]), vals[1..]); }
  }

  lemma {:induction false} FoldBochvarIsInfectious(acc: T, vals: seq<T>)
    ensures FoldBochvar(acc, vals) == if acc == Zero || Zero in vals then Zero
                                      else if acc == Pos || Pos in vals then Pos else Neg
    decreases |vals|
  {
    if vals != [] { FoldBochvarIsInfectious(BochvarAdd(acc, vals[0]), vals[1..]); }
  }

  /** Every fast path agrees with one reading of the list: least, greatest, infectious sum. */
  lemma FoldsCharacterised(vals: seq<T>)
    ensures MeetAll(vals) == if Neg in vals then Neg else if Zero in vals then Zero else Pos
    ensures JoinAny(vals) == if Pos in vals then Pos else if Zero in vals then Zero else Neg
    ensures BochvarFoldAdd(vals) == if Zero in vals then Zero else if Pos in vals then Pos else Neg
  {
    FoldMeetIsMinimum(Pos, vals);
    FoldJoinIsMaximum(Neg, vals);
    FoldBochvarIsInfectious(Neg, vals);
    if |vals| == 2 { assert vals == [vals[0], vals[1]]; }
    if |vals| == 3 { assert vals == [vals[0], vals[1], vals[2]]; }
  }

  // ---- propagation state ---------------------------------------------------------------

  datatype PropState = Ready | Pending | Conflicted

  /** Conflicted if some dependency is Zero, Ready if all are Pos, Pending otherwise. */
  function StateOf(vals: seq<T>): PropState {
    if Zero in vals then Conflicted
    else if Neg in vals then Pending
    else Ready
  }

  /** `propagation_state`: the short-list fast paths, then a counting scan that stops at Zero. */
  method PropagationState(vals: seq<T>) returns (s: PropState)
    ensures s == StateOf(vals)
  {
    if |vals| == 0 { return Ready; }
    if |vals| == 1 {
      match vals[0] {
        case Zero => return Conflicted;
        case Pos => return Ready;
        case Neg => return Pending;
      }
    }
    if |vals| == 2 {
      assert vals == [vals[0], vals[1]];
      if vals[0] == Zero || vals[1] == Zero { return Conflicted; }
      if vals[0] == Pos && vals[1] == Pos { return Ready; }
      return Pending;
    }
    var nPos: nat := 0;
    for i := 0 to |vals|
      invariant nPos <= i
      invariant Zero !in vals[..i]
      invariant nPos == i <==> Neg !in vals[..i]
    {
      assert vals[..i + 1] == vals[..i] + [vals[i]];
      match vals[i] {
        case Zero => return Conflicted;
        case Pos => nPos := nPos + 1;
        case Neg =>
      }
    }
    assert vals[..|vals|] == vals;
    s := if nPos == |vals| then Ready else Pending;
  }
}
