/** Compiled regions: a CSR circuit over dense slots, re-evaluated only where dirty bits reach. */
module Regions {
  import opened Base
  import opened Bits
  import opened Ternary
  import opened Rules
  import opened ValueStores

  datatype Region = Region(
    members: seq<Uid>, rules: seq<ComputeRule>, outputs: seq<nat>, inputs: seq<nat>,
    depOffsets: seq<nat>, depCols: seq<nat>, compiledAt: nat,
    colInvKeys: seq<nat>, colInvOffsets: seq<nat>, colInvRows: seq<nat>,
    contigStart: seq<Option<nat>>)
  {
    /** Number of rows. */
    function Rows(): nat { |members| }

    /** The parallel arrays line up and the row pointers cut `depCols` into rows. */
    predicate Shaped() {
      && |rules| == |outputs| == |contigStart| == Rows()
      && CsrShaped(depOffsets, depCols, Rows())
    }

    /** Dense slots read by row i. */
    function Deps(i: nat): seq<nat>
      requires CsrShaped(depOffsets, depCols, Rows()) && i < Rows()
    {
      CsrRow(depOffsets, depCols, i)
    }

    /** A row reads another row's output only if that row is earlier. */
    ghost predicate Topological()
      requires Shaped()
    {
      && Distinct(outputs)
      && forall i, j :: 0 <= i < Rows() && 0 <= j < Rows() && outputs[j] in Deps(i) ==> j < i
    }

    /** Every slot the region touches exists in a store of this size. */
    ghost predicate Fits(slots: nat)
      requires Shaped()
    {
      && (forall i :: 0 <= i < Rows() ==> outputs[i] < slots)
      && forall i :: 0 <= i < |depCols| ==> depCols[i] < slots
    }

    /** The inverted index lists row r under column c iff c is a dependency of r. */
    ghost predicate Indexed()
      requires Shaped()
    {
      IndexFor(colInvKeys, colInvOffsets, colInvRows, depOffsets, depCols, Rows())
    }

    /** A contiguity hint tells the truth. */
    ghost predicate HintsTrue()
      requires Shaped()
    {
      forall i :: 0 <= i < Rows() && contigStart[i].Some? ==> Contiguous(Deps(i), contigStart[i].value)
    }

    /** What a run relies on: distinct outputs, slots in range, a right index, true hints. */
    ghost predicate Runnable(slots: nat) {
      Shaped() && Distinct(outputs) && Fits(slots) && Indexed() && HintsTrue()
    }

    /** A runnable region in topological order. */
    ghost predicate Valid(slots: nat) {
      Runnable(slots) && Topological()
    }
  }

  predicate CsrShaped(offsets: seq<nat>, cols: seq<nat>, n: nat) {
    && |offsets| == n + 1
    && (forall i, j :: 0 <= i <= j <= n ==> offsets[i] <= offsets[j])
    && offsets[n] <= |cols|
  }

  function CsrRow(offsets: seq<nat>, cols: seq<nat>, i: nat): seq<nat>
    requires |offsets| > i + 1 && offsets[i] <= offsets[i + 1] <= |cols|
  {
    cols[offsets[i]..offsets[i + 1]]
  }

  /** Row r exists and reads column c. */
  predicate Reads(offsets: seq<nat>, cols: seq<nat>, n: nat, r: nat, c: nat)
    requires CsrShaped(offsets, cols, n)
  {
    r < n && c in CsrRow(offsets, cols, r)
  }

  ghost predicate IndexFor(keys: seq<nat>, keyOffsets: seq<nat>, keyRows: seq<nat>,
                           offsets: seq<nat>, cols: seq<nat>, n: nat)
    requires CsrShaped(offsets, cols, n)
  {
    && (forall i, j :: 0 <= i < j < |keys| ==> keys[i] < keys[j])
    && CsrShaped(keyOffsets, keyRows, |keys|)
    && (forall k: nat, r: nat :: k < |keys| ==>
        (r in CsrRow(keyOffsets, keyRows, k) <==> Reads(offsets, cols, n, r, keys[k])))
    && forall r: nat, c: nat :: Reads(offsets, cols, n, r, c) ==> c in keys
  }

  ghost predicate Contiguous(cols: seq<nat>, first: nat) {
    |cols| > 0 && forall k :: 0 <= k < |cols| ==> cols[k] == first + k
  }

  // ---- row equations -------------------------------------------------------------------

  /** What row i's rule yields on the cache; None when the row has too few dependencies. */
  function RowValue(r: Region, i: nat, cache: seq<T>): Option<T>
    requires r.Shaped() && r.Fits(|cache|) && i < r.Rows()
  {
    Eval(r.rules[i], Gather(cache, r.Deps(i)))
  }

  ghost predicate Satisfied(r: Region, i: nat, cache: seq<T>)
    requires r.Shaped() && r.Fits(|cache|) && i < r.Rows()
  {
    RowValue(r, i, cache).Some? ==> cache[r.outputs[i]] == RowValue(r, i, cache).value
  }

  ghost predicate RowDirty(r: Region, i: nat, dirty: seq<Word>)
    requires r.Shaped() && i < r.Rows()
  {
    exists c :: c in r.Deps(i) && Test(dirty, c)
  }

  /** A write to a slot the row does not read leaves its value. */
  lemma RowValueFrame(r: Region, i: nat, c0: seq<T>, c1: seq<T>)
    requires r.Shaped() && r.Fits(|c0|) && |c0| == |c1| && i < r.Rows()
    requires forall c :: c in r.Deps(i) ==> c0[c] == c1[c]
    ensures RowValue(r, i, c0) == RowValue(r, i, c1)
  {
    var cols := r.Deps(i);
    forall k | 0 <= k < |cols| ensures c0[cols[k]] == c1[cols[k]] { assert cols[k] in cols; }
    assert Gather(c0, cols) == Gather(c1, cols);
  }

  // ---- the reference: one full evaluation in row order -----------------------------------

  /** The cache after evaluating row i. */
  function RowStep(r: Region, cache: seq<T>, i: nat): (out: seq<T>)
    requires r.Shaped() && r.Fits(|cache|) && i < r.Rows()
    ensures |out| == |cache|
  {
    var v := RowValue(r, i, cache);
    if v.Some? then cache[r.outputs[i] := v.value] else cache
  }

  /** The cache after evaluating rows 0..i in order. */
  function FullRows(r: Region, cache: seq<T>, i: nat): (out: seq<T>)
    requires r.Shaped() && r.Fits(|cache|) && i <= r.Rows()
    ensures |out| == |cache|
  {
    if i == 0 then cache else RowStep(r, FullRows(r, cache, i - 1), i - 1)
  }

  function FullEval(r: Region, cache: seq<T>): seq<T>
    requires r.Shaped() && r.Fits(|cache|)
  {
    FullRows(r, cache, r.Rows())
  }

  /** Slot d is the output of a row below i that has enough dependencies to compute. */
  ghost predicate Driven(r: Region, d: nat, i: nat)
    requires r.Shaped() && i <= r.Rows()
  {
    exists j :: 0 <= j < i && r.outputs[j] == d && |r.Deps(j)| >= Arity(r.rules[j])
  }

  lemma DrivenStep(r: Region, d: nat, i: nat)
    requires r.Shaped() && 0 < i <= r.Rows()
    ensures Driven(r, d, i) <==>
      Driven(r, d, i - 1) || (r.outputs[i - 1] == d && |r.Deps(i - 1)| >= Arity(r.rules[i - 1]))
  {}

  /** The cache agrees with the solution on slots driven below i and with c elsewhere. */
  ghost predicate SolvedBelow(r: Region, at: seq<T>, c: seq<T>, sol: seq<T>, i: nat)
    requires r.Shaped() && |at| == |c| == |sol| && i <= r.Rows()
  {
    forall d :: 0 <= d < |c| ==> at[d] == if Driven(r, d, i) then sol[d] else c[d]
  }

  ghost predicate AllSatisfied(r: Region, cache: seq<T>, i: nat)
    requires r.Shaped() && r.Fits(|cache|) && i <= r.Rows()
  {
    forall j :: 0 <= j < i ==> Satisfied(r, j, cache)
  }

  /** Slots not driven below i hold what they held in c. */
  ghost predicate KeepsUndriven(r: Region, c: seq<T>, at: seq<T>, i: nat)
    requires r.Shaped() && |at| == |c| && i <= r.Rows()
  {
    forall d :: 0 <= d < |c| && !Driven(r, d, i) ==> at[d] == c[d]
  }

  lemma DepsSolved(r: Region, at: seq<T>, c: seq<T>, sol: seq<T>, i: nat)
    requires r.Shaped() && r.Topological() && r.Fits(|c|) && |at| == |c| == |sol| && i < r.Rows()
    requires SolvedBelow(r, at, c, sol, i) && KeepsUndriven(r, c, sol, r.Rows())
    ensures RowValue(r, i, at) == RowValue(r, i, sol)
  {
    forall d | d in r.Deps(i) ensures at[d] == sol[d] {
      if Driven(r, d, r.Rows()) {
        var j :| 0 <= j < r.Rows() && r.outputs[j] == d && |r.Deps(j)| >= Arity(r.rules[j]);
        assert j < i;
      }
    }
    RowValueFrame(r, i, at, sol);
  }

  /** Evaluating row i extends the agreement by the slot the row drives. */
  lemma SolvedStep(r: Region, at: seq<T>, c: seq<T>, sol: seq<T>, i: nat)
    requires r.Shaped() && r.Topological() && r.Fits(|c|) && |at| == |c| == |sol| && i < r.Rows()
    requires SolvedBelow(r, at, c, sol, i) && Satisfied(r, i, sol) && KeepsUndriven(r, c, sol, r.Rows())
    ensures SolvedBelow(r, RowStep(r, at, i), c, sol, i + 1)
  {
    DepsSolved(r, at, c, sol, i);
    forall d | 0 <= d < |c| ensures RowStep(r, at, i)[d] == if Driven(r, d, i + 1) then sol[d] else c[d] {
      DrivenStep(r, d, i + 1);
      assert at[d] == if Driven(r, d, i) then sol[d] else c[d];
    }
  }

  /** Row equations have one solution over given boundary values: any cache that satisfies
      every row and keeps the undriven slots is what the full evaluation reaches. */
  lemma SolutionUnique(r: Region, c: seq<T>, sol: seq<T>)
    requires r.Shaped() && r.Topological() && r.Fits(|c|) && |sol| == |c|
    requires AllSatisfied(r, sol, r.Rows()) && KeepsUndriven(r, c, sol, r.Rows())
    ensures FullEval(r, c) == sol
  {
    for i := 0 to r.Rows()
      invariant SolvedBelow(r, FullRows(r, c, i), c, sol, i)
    {
      SolvedStep(r, FullRows(r, c, i), c, sol, i);
    }
  }

  /** Writing row i's output keeps the equations of the rows that do not read it. */
  lemma WriteKeepsRow(r: Region, j: nat, i: nat, c: seq<T>, v: T)
    requires r.Shaped() && r.Topological() && r.Fits(|c|) && j < r.Rows() && i < r.Rows() && j != i
    requires Satisfied(r, j, c) && r.outputs[i] !in r.Deps(j)
    ensures Satisfied(r, j, c[r.outputs[i] := v])
  {
    RowValueFrame(r, j, c, c[r.outputs[i] := v]);
    assert r.outputs[j] != r.outputs[i];
  }

  /** Writing a row's value to its output satisfies the row. */
  lemma WriteSatisfiesRow(r: Region, i: nat, c: seq<T>)
    requires r.Shaped() && r.Topological() && r.Fits(|c|) && i < r.Rows() && RowValue(r, i, c).Some?
    ensures Satisfied(r, i, c[r.outputs[i] := RowValue(r, i, c).value])
  {
    RowValueFrame(r, i, c, c[r.outputs[i] := RowValue(r, i, c).value]);
  }

  lemma SettleStep(r: Region, c: seq<T>, at: seq<T>, i: nat)
    requires r.Shaped() && r.Topological() && r.Fits(|c|) && |at| == |c| && i < r.Rows()
    requires AllSatisfied(r, at, i) && KeepsUndriven(r, c, at, i)
    ensures AllSatisfied(r, RowStep(r, at, i), i + 1) && KeepsUndriven(r, c, RowStep(r, at, i), i + 1)
  {
    var after := RowStep(r, at, i);
    if RowValue(r, i, at).Some? {
      WriteSatisfiesRow(r, i, at);
      forall j | 0 <= j < i ensures Satisfied(r, j, after) { WriteKeepsRow(r, j, i, at, RowValue(r, i, at).value); }
    }
    forall d | 0 <= d < |c| && !Driven(r, d, i + 1) ensures after[d] == c[d] { DrivenStep(r, d, i + 1); }
  }

  /** A full evaluation satisfies every row and changes driven outputs only. */
  lemma FullEvalSatisfies(r: Region, c: seq<T>)
    requires r.Shaped() && r.Topological() && r.Fits(|c|)
    ensures AllSatisfied(r, FullEval(r, c), r.Rows()) && KeepsUndriven(r, c, FullEval(r, c), r.Rows())
  {
    for i := 0 to r.Rows()
      invariant AllSatisfied(r, FullRows(r, c, i), i) && KeepsUndriven(r, c, FullRows(r, c, i), i)
    {
      SettleStep(r, c, FullRows(r, c, i), i);
    }
  }

  /** A full evaluation depends on the undriven slots only. */
  lemma FullEvalOfBoundary(r: Region, c0: seq<T>, c1: seq<T>)
    requires r.Shaped() && r.Topological() && r.Fits(|c0|) && |c1| == |c0|
    requires KeepsUndriven(r, c0, c1, r.Rows())
    ensures FullEval(r, c0) == FullEval(r, c1)
  {
    FullEvalSatisfies(r, c0);
    SolutionUnique(r, c1, FullEval(r, c0));
  }

  // ---- the report of a run ---------------------------------------------------------------

  /** (member, old value, new value) for each of the first i rows whose output moved. */
  function Changes(r: Region, c0: seq<T>, c1: seq<T>, i: nat): seq<(Uid, T, T)>
    requires r.Shaped() && r.Fits(|c0|) && |c0| == |c1| && i <= r.Rows()
  {
    if i == 0 then []
    else
      var d := r.outputs[i - 1];
      Changes(r, c0, c1, i - 1) + (if c0[d] != c1[d] then [(r.members[i - 1], c0[d], c1[d])] else [])
  }

  lemma {:induction false} ChangesFrame(r: Region, c0: seq<T>, c1: seq<T>, c2: seq<T>, i: nat)
    requires r.Shaped() && r.Fits(|c0|) && |c0| == |c1| == |c2| && i <= r.Rows()
    requires forall j :: 0 <= j < i ==> c1[r.outputs[j]] == c2[r.outputs[j]]
    ensures Changes(r, c0, c1, i) == Changes(r, c0, c2, i)
  {
    if i > 0 { ChangesFrame(r, c0, c1, c2, i - 1); }
  }

  /** Dirty bits after a run: what was dirty, and every changed output the bit array covers. */
  ghost predicate DirtyAfter(r: Region, c0: seq<T>, c1: seq<T>, before: seq<Word>, after: seq<Word>, i: nat)
    requires r.Shaped() && r.Fits(|c0|) && |c0| == |c1| && i <= r.Rows()
  {
    && |after| == |before|
    && forall d: nat :: Test(after, d) <==>
         Test(before, d) || (d / WORD < |before| && exists j :: 0 <= j < i && r.outputs[j] == d && c0[d] != c1[d])
  }
}
