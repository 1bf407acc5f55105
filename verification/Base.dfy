/** Identifiers and the datatypes for absent values and errors used across the model. */
module Base {

  /** Node and edge identifiers: 128-bit unsigned integers with their numeric order. */
  type Uid = nat

  datatype Option<+A> = None | Some(value: A)

  datatype Result<+A, +E> = Ok(value: A) | Err(error: E) {
    predicate IsFailure() { Err? }
    function PropagateFailure<B>(): Result<B, E> requires Err? { Err(error) }
    function Extract(): A requires Ok? { value }
  }

  // ---- finite sets of identifiers in ascending order --------------------------------

  predicate IsMin(m: nat, s: set<nat>) {
    m in s && forall x :: x in s ==> m <= x
  }

  lemma MinExists(s: set<nat>)
    requires s != {}
    ensures exists m :: IsMin(m, s)
    decreases |s|
  {
    var m :| m in s;
    var rest := s - {m};
    assert s == rest + {m};
    if rest == {} {
      assert IsMin(m, s);
    } else {
      MinExists(rest);
      var r :| IsMin(r, rest);
      assert IsMin(if m <= r then m else r, s);
    }
  }

  function Min(s: set<nat>): (m: nat)
    requires s != {}
    ensures IsMin(m, s)
  {
    MinExists(s);
    var m :| IsMin(m, s);
    m
  }

  /** The elements of s in ascending order (`collect` then `sort_unstable`). */
  function Ascending(s: set<nat>): (q: seq<nat>)
    decreases |s|
  {
    if s == {} then [] else [Min(s)] + Ascending(s - {Min(s)})
  }

  lemma {:induction false} AscendingElements(s: set<nat>)
    ensures forall x :: x in Ascending(s) <==> x in s
    ensures |Ascending(s)| == |s|
    decreases |s|
  {
    if s != {} {
      var m := Min(s);
      var rest := s - {m};
      AscendingElements(rest);
      assert s == rest + {m};
      assert Ascending(s) == [m] + Ascending(rest);
    }
  }

  lemma {:induction false} AscendingSorted(s: set<nat>)
    ensures forall i, j :: 0 <= i < j < |Ascending(s)| ==> Ascending(s)[i] < Ascending(s)[j]
    decreases |s|
  {
    if s != {} {
      var m := Min(s);
      var rest := Ascending(s - {m});
      AscendingSorted(s - {m});
      AscendingElements(s - {m});
      assert Ascending(s) == [m] + rest;
      forall j | 0 <= j < |rest| ensures m < rest[j] { assert rest[j] in rest; }
    }
  }

  predicate StrictlyAscending(q: seq<nat>) { forall i, j :: 0 <= i < j < |q| ==> q[i] < q[j] }

  lemma HeadIsMin(s: set<nat>, q: seq<nat>)
    requires (forall x :: x in q <==> x in s) && StrictlyAscending(q) && q != []
    ensures s != {} && q[0] == Min(s)
  {
    assert q[0] in s;
    var i :| 0 <= i < |q| && q[i] == Min(s);
  }

  lemma TailElements(s: set<nat>, q: seq<nat>)
    requires (forall x :: x in q <==> x in s) && StrictlyAscending(q) && q != []
    ensures forall x :: x in q[1..] <==> x in s - {q[0]}
  {
    forall x ensures x in q[1..] <==> x in s - {q[0]} {
      if x in q && x != q[0] {
        var i :| 0 <= i < |q| && q[i] == x;
        assert q[1..][i - 1] == x;
      }
      if x in q[1..] {
        var i :| 0 <= i < |q| - 1 && q[1..][i] == x;
        assert q[0] < q[i + 1] == x;
      }
    }
  }

  /** Only one strictly ascending list has these elements. */
  lemma {:induction false} AscendingUnique(s: set<nat>, q: seq<nat>)
    requires (forall x :: x in q <==> x in s) && StrictlyAscending(q)
    ensures q == Ascending(s)
    decreases |q|
  {
    if q != [] {
      HeadIsMin(s, q);
      TailElements(s, q);
      AscendingUnique(s - {q[0]}, q[1..]);
      assert q == [q[0]] + q[1..];
    }
  }

  predicate Distinct<A(==)>(q: seq<A>) {
    forall i, j :: 0 <= i < j < |q| ==> q[i] != q[j]
  }

  function Elements<A>(q: seq<A>): set<A> { set x | x in q }

  /** A list has at least as many entries as elements, and exactly as many iff it repeats none. */
  lemma {:induction false} ElementsSize<A>(q: seq<A>)
    ensures |Elements(q)| <= |q|
    ensures Distinct(q) <==> |Elements(q)| == |q|
    decreases |q|
  {
    if q != [] {
      var front, last := q[..|q| - 1], q[|q| - 1];
      assert q == front + [last];
      ElementsSize(front);
      assert Elements(q) == Elements(front) + {last};
      if last in front {
        assert Elements(q) == Elements(front);
        var i :| 0 <= i < |front| && front[i] == last;
        assert q[i] == q[|q| - 1];
      } else {
        assert |Elements(q)| == |Elements(front)| + 1;
        if Distinct(front) {
          forall i, j | 0 <= i < j < |q| ensures q[i] != q[j] { if j == |front| { assert q[i] == front[i]; } }
        } else {
          var i, j :| 0 <= i < j < |front| && front[i] == front[j];
          assert q[i] == q[j];
        }
      }
    }
  }
}
