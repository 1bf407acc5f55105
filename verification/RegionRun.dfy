/** Executing a compiled region over the live value store. */
module RegionRun {
  import opened Base
  import opened Bits
  import opened Ternary
  import opened Rules
  import opened ValueStores
  import opened Regions

  /** `slice::binary_search` on strictly ascending keys. */
  method BinarySearch(keys: seq<nat>, x: nat) returns (k: Option<nat>)
    requires forall i, j :: 0 <= i < j < |keys| ==> keys[i] < keys[j]
    ensures k.Some? ==> k.value < |keys| && keys[k.value] == x
    ensures k.None? ==> x !in keys
  {
    var lo, hi := 0, |keys|;
    while lo < hi
      invariant 0 <= lo <= hi <= |keys|
      invariant forall i :: 0 <= i < lo ==> keys[i] < x
      invariant forall i :: hi <= i < |keys| ==> x < keys[i]
    {
      var mid := (lo + hi) / 2;
      if keys[mid] == x { return Some(mid); }
      if keys[mid] < x { lo := mid + 1; } else { hi := mid; }
    }
    k := None;
  }

  lemma ListedRows(r: Region, k: nat)
    requires r.Shaped() && r.Indexed() && k < |r.colInvKeys|
    ensures forall row: nat :: row in CsrRow(r.colInvOffsets, r.colInvRows, k) <==> row < r.Rows() && r.colInvKeys[k] in r.Deps(row)
  {
    forall row: nat
      ensures row in CsrRow(r.colInvOffsets, r.colInvRows, k) <==> row < r.Rows() && r.colInvKeys[k] in r.Deps(row)
    {
      assert row in CsrRow(r.colInvOffsets, r.colInvRows, k)
        <==> Reads(r.depOffsets, r.depCols, r.Rows(), row, r.colInvKeys[k]);
    }
  }

  lemma Unlisted(r: Region, col: nat)
    requires r.Shaped() && r.Indexed() && col !in r.colInvKeys
    ensures forall row :: 0 <= row < r.Rows() ==> col !in r.Deps(row)
  {
    forall row | 0 <= row < r.Rows() ensures col !in r.Deps(row) {
      assert !Reads(r.depOffsets, r.depCols, r.Rows(), row, col);
    }
  }

  /** Set the pending bit of every row from `first` on that reads column col. */
  method MarkRows(r: Region, col: nat, first: nat, pending: seq<Word>) returns (marked: seq<Word>)
    requires r.Shaped() && r.Indexed() && |pending| == Words(r.Rows())
    ensures |marked| == |pending|
    ensures forall row :: 0 <= row < r.Rows() ==>
      (Test(marked, row) <==> Test(pending, row) || (row >= first && col in r.Deps(row)))
  {
    marked := pending;
    var found := BinarySearch(r.colInvKeys, col);
    if found.Some? {
      var k := found.value;
      var rs, re := r.colInvOffsets[k], r.colInvOffsets[k + 1];
      ghost var listed := CsrRow(r.colInvOffsets, r.colInvRows, k);
      ListedRows(r, k);
      for x := rs to re
        invariant |marked| == |pending|
        invariant forall row :: 0 <= row < r.Rows() ==>
          (Test(marked, row) <==> Test(pending, row) || (row >= first && row in listed[..x - rs]))
      {
        var row := r.colInvRows[x];
        assert listed[x - rs] == row && row in listed;
        assert listed[..x + 1 - rs] == listed[..x - rs] + [row];
        if row >= first {
          forall j: nat ensures Test(SetBit(marked, row), j) <==> j == row || Test(marked, j) { TestSet(marked, row, j); }
          marked := SetBit(marked, row);
        }
      }
      assert listed[..re - rs] == listed;
    } else {
      Unlisted(r, col);
    }
  }

  /** Some dirty slot below the bound feeds the row. */
  ghost predicate ReachedBelow(r: Region, row: nat, dirty: seq<Word>, bound: nat)
    requires r.Shaped() && row < r.Rows()
  {
    exists c :: c in r.Deps(row) && c < bound && Test(dirty, c)
  }

  /** Phase 1: the rows reached by a dirty bit, found by bit iteration and the inverted index. */
  method BuildPending(r: Region, dirty: seq<Word>) returns (pending: seq<Word>)
    requires r.Shaped() && r.Indexed()
    ensures |pending| == Words(r.Rows())
    ensures forall row :: 0 <= row < r.Rows() ==> (Test(pending, row) <==> RowDirty(r, row, dirty))
  {
    pending := seq(Words(r.Rows()), i => NO_BITS);
    for wi := 0 to |dirty|
      invariant |pending| == Words(r.Rows())
      invariant forall row :: 0 <= row < r.Rows() ==> (Test(pending, row) <==> ReachedBelow(r, row, dirty, wi * 64))
    {
      var w := dirty[wi];
      ghost var low := 0;
      while w != NO_BITS
        invariant 0 <= low <= 64
        invariant forall j :: 0 <= j < 64 ==> (w[j] <==> low <= j && dirty[wi][j])
        invariant |pending| == Words(r.Rows())
        invariant forall row :: 0 <= row < r.Rows() ==> (Test(pending, row) <==> ReachedBelow(r, row, dirty, wi * 64 + low))
        decreases 64 - low
      {
        var bit := TrailingZeros(w);
        var col := wi * 64 + bit;
        NextDirty(dirty, wi, low, bit);
        ghost var was := pending;
        pending := MarkRows(r, col, 0, pending);
        forall row | 0 <= row < r.Rows()
          ensures Test(pending, row) <==> ReachedBelow(r, row, dirty, wi * 64 + bit + 1)
        {
          ReachNext(r, row, dirty, wi * 64 + low, col);
        }
        ClearLowest(w, bit);
        w := And(w, Dec(w));
        low := bit + 1;
      }
      ghost var here, next := wi * 64 + low, (wi + 1) * 64;
      forall row | 0 <= row < r.Rows()
        ensures ReachedBelow(r, row, dirty, here) <==> ReachedBelow(r, row, dirty, next)
      {
        NothingLeft(r, row, dirty, wi, low);
      }
    }
  }

  /** `bit` is the lowest set bit of the word at or above low. */
  lemma NextDirty(dirty: seq<Word>, wi: nat, low: nat, bit: nat)
    requires wi < |dirty| && low <= bit < 64 && dirty[wi][bit]
    requires forall j :: low <= j < bit ==> !dirty[wi][j]
    ensures Test(dirty, wi * 64 + bit)
    ensures forall c :: wi * 64 + low <= c < wi * 64 + bit ==> !Test(dirty, c)
  {
    assert (wi * 64 + bit) / 64 == wi && (wi * 64 + bit) % 64 == bit;
    forall c | wi * 64 + low <= c < wi * 64 + bit ensures !Test(dirty, c) {
      assert c / 64 == wi && c % 64 == c - wi * 64;
    }
  }

  lemma ReachNext(r: Region, row: nat, dirty: seq<Word>, bound: nat, col: nat)
    requires r.Shaped() && row < r.Rows() && bound <= col && Test(dirty, col)
    requires forall c :: bound <= c < col ==> !Test(dirty, c)
    ensures ReachedBelow(r, row, dirty, col + 1) <==> ReachedBelow(r, row, dirty, bound) || col in r.Deps(row)
  {
    if ReachedBelow(r, row, dirty, col + 1) {
      var c :| c in r.Deps(row) && c < col + 1 && Test(dirty, c);
      assert c < bound || c == col;
    }
  }

  lemma NothingLeft(r: Region, row: nat, dirty: seq<Word>, wi: nat, low: nat)
    requires r.Shaped() && row < r.Rows() && wi < |dirty| && low <= 64
    requires forall j :: low <= j < 64 ==> !dirty[wi][j]
    ensures ReachedBelow(r, row, dirty, wi * 64 + low) <==> ReachedBelow(r, row, dirty, (wi + 1) * 64)
  {
    if ReachedBelow(r, row, dirty, (wi + 1) * 64) {
      var c :| c in r.Deps(row) && c < (wi + 1) * 64 && Test(dirty, c);
      if c >= wi * 64 { assert c / 64 == wi && c % 64 == c - wi * 64; }
    }
  }

  // ---- phase 2, as a function ---------------------------------------------------------------

  /** Row j is due once the rows below i are visited: a dirty slot feeds it, or an output that moved. */
  ghost predicate Due(r: Region, c0: seq<T>, c: seq<T>, dirty: seq<Word>, j: nat, i: nat)
    requires r.Shaped() && r.Fits(|c0|) && |c| == |c0| && i <= r.Rows() && j < r.Rows()
  {
    RowDirty(r, j, dirty) || exists k :: 0 <= k < i && r.outputs[k] in r.Deps(j) && c[r.outputs[k]] != c0[r.outputs[k]]
  }

  /** The cache after the incremental pass over the rows below i: rows that are not due keep
      their output, due rows take their rule's value. */
  ghost function IncRows(r: Region, c0: seq<T>, dirty: seq<Word>, i: nat): (out: seq<T>)
    requires r.Shaped() && r.Fits(|c0|) && i <= r.Rows()
    ensures |out| == |c0|
  {
    if i == 0 then c0
    else
      var before := IncRows(r, c0, dirty, i - 1);
      if Due(r, c0, before, dirty, i - 1, i - 1) then RowStep(r, before, i - 1) else before
  }

  ghost function IncEval(r: Region, c0: seq<T>, dirty: seq<Word>): seq<T>
    requires r.Shaped() && r.Fits(|c0|)
  {
    IncRows(r, c0, dirty, r.Rows())
  }

  lemma {:induction false} IncRowsFrame(r: Region, c0: seq<T>, dirty: seq<Word>, i: nat)
    requires r.Shaped() && r.Fits(|c0|) && i <= r.Rows()
    ensures KeepsUndriven(r, c0, IncRows(r, c0, dirty, i), i)
  {
    if i > 0 {
      IncRowsFrame(r, c0, dirty, i - 1);
      forall d | 0 <= d < |c0| && !Driven(r, d, i) ensures IncRows(r, c0, dirty, i)[d] == c0[d] { DrivenStep(r, d, i); }
    }
  }

  lemma IncRowsAhead(r: Region, c0: seq<T>, dirty: seq<Word>, i: nat, j: nat)
    requires r.Shaped() && Distinct(r.outputs) && r.Fits(|c0|) && i <= j < r.Rows()
    ensures IncRows(r, c0, dirty, i)[r.outputs[j]] == c0[r.outputs[j]]
  {
    IncRowsFrame(r, c0, dirty, i);
    assert !Driven(r, r.outputs[j], i);
  }

  /** Rows below i hold; rows from i on hold or are due. */
  ghost predicate Swept(r: Region, c0: seq<T>, c: seq<T>, dirty: seq<Word>, i: nat)
    requires r.Shaped() && r.Fits(|c0|) && |c| == |c0| && i <= r.Rows()
  {
    && (forall j :: 0 <= j < i ==> Satisfied(r, j, c))
    && forall j :: i <= j < r.Rows() ==> Satisfied(r, j, c) || Due(r, c0, c, dirty, j, i)
  }

  lemma SweepWrite(r: Region, c0: seq<T>, c: seq<T>, dirty: seq<Word>, i: nat)
    requires r.Valid(|c0|) && |c| == |c0| && i < r.Rows() && Swept(r, c0, c, dirty, i)
    requires RowValue(r, i, c).Some? && c[r.outputs[i]] == c0[r.outputs[i]]
    ensures Swept(r, c0, c[r.outputs[i] := RowValue(r, i, c).value], dirty, i + 1)
  {
    var v := RowValue(r, i, c).value;
    var after := c[r.outputs[i] := v];
    WriteSatisfiesRow(r, i, c);
    forall j | 0 <= j < i ensures Satisfied(r, j, after) { WriteKeepsRow(r, j, i, c, v); }
    forall j | i < j < r.Rows() ensures Satisfied(r, j, after) || Due(r, c0, after, dirty, j, i + 1) {
      if v == c[r.outputs[i]] {
        assert after == c;
        DueGrows(r, c0, c, dirty, j, i);
      } else if r.outputs[i] !in r.Deps(j) {
        if Satisfied(r, j, c) { WriteKeepsRow(r, j, i, c, v); } else { DueAfterWrite(r, c0, c, dirty, j, i, v); }
      }
    }
  }

  lemma DueGrows(r: Region, c0: seq<T>, c: seq<T>, dirty: seq<Word>, j: nat, i: nat)
    requires r.Shaped() && r.Fits(|c0|) && |c| == |c0| && i < r.Rows() && j < r.Rows()
    ensures Due(r, c0, c, dirty, j, i) ==> Due(r, c0, c, dirty, j, i + 1)
  {}

  lemma DueAfterWrite(r: Region, c0: seq<T>, c: seq<T>, dirty: seq<Word>, j: nat, i: nat, v: T)
    requires r.Runnable(|c0|) && |c| == |c0| && i < r.Rows() && j < r.Rows() && c[r.outputs[i]] == c0[r.outputs[i]]
    ensures Due(r, c0, c[r.outputs[i] := v], dirty, j, i + 1) <==>
      Due(r, c0, c, dirty, j, i) || (r.outputs[i] in r.Deps(j) && v != c[r.outputs[i]])
  {
    var after := c[r.outputs[i] := v];
    forall k | 0 <= k < i ensures after[r.outputs[k]] == c[r.outputs[k]] { assert r.outputs[k] != r.outputs[i]; }
  }

  lemma SweepQuiet(r: Region, c0: seq<T>, c: seq<T>, dirty: seq<Word>, i: nat)
    requires r.Valid(|c0|) && |c| == |c0| && i < r.Rows() && Swept(r, c0, c, dirty, i)
    requires Satisfied(r, i, c)
    ensures Swept(r, c0, c, dirty, i + 1)
  {
    forall j | i + 1 <= j < r.Rows() ensures Satisfied(r, j, c) || Due(r, c0, c, dirty, j, i + 1) {
      DueGrows(r, c0, c, dirty, j, i);
    }
  }

  /** The pass has swept the rows below i. */
  ghost predicate SweptTo(r: Region, c0: seq<T>, dirty: seq<Word>, i: nat)
    requires r.Shaped() && r.Fits(|c0|) && i <= r.Rows()
  {
    Swept(r, c0, IncRows(r, c0, dirty, i), dirty, i)
  }

  lemma SweepStep(r: Region, c0: seq<T>, dirty: seq<Word>, i: nat)
    requires r.Valid(|c0|) && i < r.Rows() && SweptTo(r, c0, dirty, i)
    ensures SweptTo(r, c0, dirty, i + 1)
  {
    var before := IncRows(r, c0, dirty, i);
    IncRowsAhead(r, c0, dirty, i, i);
    if Due(r, c0, before, dirty, i, i) && RowValue(r, i, before).Some? {
      SweepWrite(r, c0, before, dirty, i);
    } else {
      SweepQuiet(r, c0, before, dirty, i);
    }
  }

  /** A pass that starts swept, sweeps the region. */
  lemma IncRowsSwept(r: Region, c0: seq<T>, dirty: seq<Word>)
    requires r.Valid(|c0|) && SweptTo(r, c0, dirty, 0)
    ensures SweptTo(r, c0, dirty, r.Rows())
  {
    for i := 0 to r.Rows()
      invariant SweptTo(r, c0, dirty, i)
    {
      SweepStep(r, c0, dirty, i);
    }
  }

  lemma SweepStart(r: Region, c0: seq<T>, dirty: seq<Word>)
    requires r.Valid(|c0|)
    requires forall j :: 0 <= j < r.Rows() ==> Satisfied(r, j, c0) || RowDirty(r, j, dirty)
    ensures SweptTo(r, c0, dirty, 0)
  {}

  /** Incremental equals full. */
  lemma IncrementalIsFull(r: Region, c0: seq<T>, dirty: seq<Word>)
    requires r.Valid(|c0|)
    requires forall j :: 0 <= j < r.Rows() ==> Satisfied(r, j, c0) || RowDirty(r, j, dirty)
    ensures IncEval(r, c0, dirty) == FullEval(r, c0)
  {
    SweepStart(r, c0, dirty);
    IncRowsSwept(r, c0, dirty);
    IncRowsFrame(r, c0, dirty, r.Rows());
    SolutionUnique(r, c0, IncEval(r, c0, dirty));
  }

  /** Row i's dependency values, gathered from the store. */
  method GatherRow(r: Region, i: nat, store: ValueStore) returns (depBuf: seq<T>)
    requires store.View().Valid() && r.Runnable(|store.cache|) && i < r.Rows()
    ensures depBuf == Gather(store.cache, r.Deps(i))
  {
    var rowStart, rowEnd := r.depOffsets[i], r.depOffsets[i + 1];
    depBuf := [];
    for x := rowStart to rowEnd
      invariant |depBuf| == x - rowStart
      invariant forall k :: 0 <= k < |depBuf| ==> depBuf[k] == store.cache[r.depCols[rowStart + k]]
    {
      depBuf := depBuf + [store.cache[r.depCols[x]]];
    }
  }

  /** Evaluate row i on the store: word operations for a contiguous meet or join, gathering otherwise. */
  method EvalRow(r: Region, i: nat, store: ValueStore) returns (v: Option<T>)
    requires store.View().Valid() && r.Runnable(|store.cache|) && i < r.Rows()
    ensures v == RowValue(r, i, store.cache)
  {
    if r.contigStart[i].Some? && (r.rules[i].MeetAllRule? || r.rules[i].JoinAnyRule?) {
      var first, count := r.contigStart[i].value, r.depOffsets[i + 1] - r.depOffsets[i];
      assert Contiguous(r.Deps(i), first) && |r.Deps(i)| == count;
      ContiguousGather(store.cache, r.Deps(i), first);
      hide ValueStore.View, Gather;
      var t;
      if r.rules[i].MeetAllRule? { t := store.MeetAllRange(first, count); } else { t := store.JoinAnyRange(first, count); }
      return Some(t);
    }
    var depBuf := GatherRow(r, i, store);
    v := Eval(r.rules[i], depBuf);
  }

  lemma ContiguousGather(cache: seq<T>, cols: seq<nat>, first: nat)
    requires Contiguous(cols, first) && forall k :: 0 <= k < |cols| ==> cols[k] < |cache|
    ensures first + |cols| <= |cache| && Gather(cache, cols) == cache[first..first + |cols|]
  {
    assert cols[|cols| - 1] < |cache|;
  }

  /** Where the pass stands after the rows below i. */
  ghost predicate RunState(r: Region, c0: seq<T>, d0: seq<Word>, c: seq<T>, d: seq<Word>, pending: seq<Word>,
                           changed: seq<(Uid, T, T)>, i: nat)
    requires r.Shaped() && r.Fits(|c0|) && i <= r.Rows()
  {
    && c == IncRows(r, c0, d0, i) && |pending| == Words(r.Rows())
    && (forall j :: i <= j < r.Rows() ==> (Test(pending, j) <==> Due(r, c0, c, d0, j, i)))
    && changed == Changes(r, c0, c, i)
    && DirtyAfter(r, c0, c, d0, d, i)
  }

  /** Row i leaves its output: it was not due, has too few dependencies, or keeps its value. */
  lemma RunQuiet(r: Region, c0: seq<T>, d0: seq<Word>, c: seq<T>, d: seq<Word>, pending: seq<Word>,
                 changed: seq<(Uid, T, T)>, i: nat)
    requires r.Runnable(|c0|) && i < r.Rows() && RunState(r, c0, d0, c, d, pending, changed, i)
    requires !Test(pending, i) || RowValue(r, i, c).None? || RowValue(r, i, c).value == c[r.outputs[i]]
    ensures RunState(r, c0, d0, c, d, pending, changed, i + 1)
  {
    IncRowsAhead(r, c0, d0, i, i);
    IncRowsStay(r, c0, d0, i);
    forall j | i + 1 <= j < r.Rows() ensures Due(r, c0, c, d0, j, i + 1) <==> Due(r, c0, c, d0, j, i) {
      DueStays(r, c0, c, d0, j, i);
    }
    DirtyStays(r, c0, d0, c, d, i);
  }

  lemma IncRowsStay(r: Region, c0: seq<T>, dirty: seq<Word>, i: nat)
    requires r.Shaped() && r.Fits(|c0|) && i < r.Rows()
    requires var c := IncRows(r, c0, dirty, i);
      !Due(r, c0, c, dirty, i, i) || RowValue(r, i, c).None? || RowValue(r, i, c).value == c[r.outputs[i]]
    ensures IncRows(r, c0, dirty, i + 1) == IncRows(r, c0, dirty, i)
  {}

  lemma DueStays(r: Region, c0: seq<T>, c: seq<T>, dirty: seq<Word>, j: nat, i: nat)
    requires r.Shaped() && r.Fits(|c0|) && |c| == |c0| && i < r.Rows() && j < r.Rows() && c[r.outputs[i]] == c0[r.outputs[i]]
    ensures Due(r, c0, c, dirty, j, i + 1) <==> Due(r, c0, c, dirty, j, i)
  {}

  lemma DirtyStays(r: Region, c0: seq<T>, d0: seq<Word>, c: seq<T>, d: seq<Word>, i: nat)
    requires r.Shaped() && r.Fits(|c0|) && |c| == |c0| && i < r.Rows() && DirtyAfter(r, c0, c, d0, d, i)
    requires c[r.outputs[i]] == c0[r.outputs[i]]
    ensures DirtyAfter(r, c0, c, d0, d, i + 1)
  {}

  lemma RunStart(r: Region, c0: seq<T>, d0: seq<Word>, pending: seq<Word>)
    requires r.Runnable(|c0|) && |pending| == Words(r.Rows())
    requires forall row :: 0 <= row < r.Rows() ==> (Test(pending, row) <==> RowDirty(r, row, d0))
    ensures RunState(r, c0, d0, c0, d0, pending, [], 0)
  {}

  lemma RunWrite(r: Region, c0: seq<T>, d0: seq<Word>, c: seq<T>, d: seq<Word>, pending: seq<Word>, marked: seq<Word>,
                 changed: seq<(Uid, T, T)>, i: nat)
    requires r.Runnable(|c0|) && i < r.Rows() && RunState(r, c0, d0, c, d, pending, changed, i)
    requires Test(pending, i) && RowValue(r, i, c).Some? && c[r.outputs[i]] != RowValue(r, i, c).value
    requires |marked| == |pending|
    requires forall j :: i < j < r.Rows() ==> (Test(marked, j) <==> Test(pending, j) || r.outputs[i] in r.Deps(j))
    ensures RunState(r, c0, d0, c[r.outputs[i] := RowValue(r, i, c).value], SetBitGuarded(d, r.outputs[i]), marked,
                     changed + [(r.members[i], c[r.outputs[i]], RowValue(r, i, c).value)], i + 1)
  {
    var out, v := r.outputs[i], RowValue(r, i, c).value;
    var after := c[out := v];
    IncRowsAhead(r, c0, d0, i, i);
    forall j | i + 1 <= j < r.Rows() ensures Test(marked, j) <==> Due(r, c0, after, d0, j, i + 1) {
      DueAfterWrite(r, c0, c, d0, j, i, v);
    }
    forall j | 0 <= j < i ensures c[r.outputs[j]] == after[r.outputs[j]] { assert r.outputs[j] != out; }
    ChangesFrame(r, c0, c, after, i);
    DirtyWrite(r, c0, d0, c, d, v, i);
  }

  lemma DirtyWrite(r: Region, c0: seq<T>, d0: seq<Word>, c: seq<T>, d: seq<Word>, v: T, i: nat)
    requires r.Runnable(|c0|) && |c| == |c0| && i < r.Rows() && DirtyAfter(r, c0, c, d0, d, i)
    requires c[r.outputs[i]] == c0[r.outputs[i]] != v
    ensures DirtyAfter(r, c0, c[r.outputs[i] := v], d0, SetBitGuarded(d, r.outputs[i]), i + 1)
  {
    var out := r.outputs[i];
    var after, d' := c[out := v], SetBitGuarded(d, out);
    forall s: nat
      ensures Test(d', s) <==>
        Test(d0, s) || (s / WORD < |d0| && exists j :: 0 <= j < i + 1 && r.outputs[j] == s && c0[s] != after[s])
    {
      if out / WORD < |d| { TestSet(d, out, s); }
      if s == out {
        assert r.outputs[i] == s && c0[s] != after[s];
      } else if exists j :: 0 <= j < i + 1 && r.outputs[j] == s && c0[s] != after[s] {
        var j :| 0 <= j < i + 1 && r.outputs[j] == s && c0[s] != after[s];
        assert j < i;
      }
    }
  }

  /** Visit row i: skip it unless pending, else evaluate it and, if its output moves, write it,
      report it, mark its slot dirty and make its later readers pending. */
  method VisitRow(r: Region, i: nat, store: ValueStore, dirtySlots: array<Word>, pending: seq<Word>,
                  changed: seq<(Uid, T, T)>, ghost c0: seq<T>, ghost d0: seq<Word>)
    returns (pending': seq<Word>, changed': seq<(Uid, T, T)>)
    requires store.View().Valid() && r.Runnable(|c0|) && i < r.Rows()
    requires RunState(r, c0, d0, store.cache, dirtySlots[..], pending, changed, i)
    modifies store, dirtySlots
    ensures store.View().Valid() && store.idx == old(store.idx)
    ensures RunState(r, c0, d0, store.cache, dirtySlots[..], pending', changed', i + 1)
  {
    pending', changed' := pending, changed;
    var newVal := None;
    if Test(pending, i) { newVal := EvalRow(r, i, store); }
    var out := r.outputs[i];
    if newVal.None? || store.cache[out] == newVal.value {
      RunQuiet(r, c0, d0, store.cache, dirtySlots[..], pending, changed, i);
      return;
    }
    var oldVal := store.cache[out];
    pending' := MarkRows(r, out, i + 1, pending);
    RunWrite(r, c0, d0, store.cache, dirtySlots[..], pending, pending', changed, i);
    store.SetByDense(out, newVal.value);
    changed' := changed + [(r.members[i], oldVal, newVal.value)];
    if out / 64 < dirtySlots.Length {
      dirtySlots[out / 64] := Or(dirtySlots[out / 64], Mask(out % 64));
    }
    assert dirtySlots[..] == SetBitGuarded(old(dirtySlots[..]), out);
  }

  /** Phase 2: visit the rows in topological order. */
  method SweepRows(r: Region, store: ValueStore, dirtySlots: array<Word>, pending0: seq<Word>, ghost c0: seq<T>, ghost d0: seq<Word>)
    returns (changed: seq<(Uid, T, T)>, ghost pending: seq<Word>)
    requires store.View().Valid() && r.Runnable(|c0|)
    requires RunState(r, c0, d0, store.cache, dirtySlots[..], pending0, [], 0)
    modifies store, dirtySlots
    ensures store.View().Valid() && store.idx == old(store.idx)
    ensures RunState(r, c0, d0, store.cache, dirtySlots[..], pending, changed, r.Rows())
  {
    changed := [];
    var rest := pending0;
    for i := 0 to r.Rows()
      invariant store.View().Valid() && store.idx == old(store.idx)
      invariant RunState(r, c0, d0, store.cache, dirtySlots[..], rest, changed, i)
    {
      rest, changed := VisitRow(r, i, store, dirtySlots, rest, changed, c0, d0);
    }
    pending := rest;
  }

  /** One run of the region: the store becomes the incremental evaluation of what it held, the
      report lists exactly the outputs that moved, with old and new values, and the dirty bits
      have gained those outputs. */
  method RunCompiledRegion(r: Region, store: ValueStore, dirtySlots: array<Word>) returns (changed: seq<(Uid, T, T)>)
    requires store.View().Valid() && r.Runnable(|store.cache|)
    modifies store, dirtySlots
    ensures store.View().Valid() && store.idx == old(store.idx)
    ensures store.cache == IncEval(r, old(store.cache), old(dirtySlots[..]))
    ensures changed == Changes(r, old(store.cache), store.cache, r.Rows())
    ensures DirtyAfter(r, old(store.cache), store.cache, old(dirtySlots[..]), dirtySlots[..], r.Rows())
  {
    ghost var c0, d0 := store.cache, dirtySlots[..];
    var pending := BuildPending(r, dirtySlots[..]);
    RunStart(r, c0, d0, pending);
    ghost var last;
    changed, last := SweepRows(r, store, dirtySlots, pending, c0, d0);
  }

  // ---- whole runs: boundary writes, each followed by a run --------------------------------

  /** The cache after the writes alone, the last write to a slot winning. */
  function WriteAll(c: seq<T>, writes: seq<(nat, T)>): (out: seq<T>)
    requires forall k :: 0 <= k < |writes| ==> writes[k].0 < |c|
    ensures |out| == |c|
  {
    if writes == [] then c
    else
      var last := writes[|writes| - 1];
      WriteAll(c, writes[..|writes| - 1])[last.0 := last.1]
  }

  /** After a boundary write, every row either still holds or reads the written slot. */
  lemma WriteLeavesRows(r: Region, c: seq<T>, d: nat, v: T, dirty: seq<Word>)
    requires r.Valid(|c|) && d < |c| && !Driven(r, d, r.Rows()) && Test(dirty, d)
    requires forall i :: 0 <= i < r.Rows() ==> Satisfied(r, i, c)
    ensures forall i :: 0 <= i < r.Rows() ==> Satisfied(r, i, c[d := v]) || RowDirty(r, i, dirty)
  {
    forall i | 0 <= i < r.Rows() ensures Satisfied(r, i, c[d := v]) || RowDirty(r, i, dirty) {
      if d !in r.Deps(i) {
        RowValueFrame(r, i, c, c[d := v]);
        assert Satisfied(r, i, c);
        assert r.outputs[i] != d || |r.Deps(i)| < Arity(r.rules[i]);
      }
    }
  }

  /** A write on top of an evaluated cache evaluates like the write on the raw cache. */
  lemma EvalAfterWrite(r: Region, raw: seq<T>, d: nat, v: T)
    requires r.Valid(|raw|) && d < |raw| && !Driven(r, d, r.Rows())
    ensures FullEval(r, FullEval(r, raw)[d := v]) == FullEval(r, raw[d := v])
  {
    FullEvalSatisfies(r, raw);
    FullEvalOfBoundary(r, FullEval(r, raw)[d := v], raw[d := v]);
  }

  /** Any run of boundary writes, each marking its slot dirty and followed by an incremental
      run, leaves the full topological evaluation of the written boundary. */
  method ReplayWrites(r: Region, store: ValueStore, dirtySlots: array<Word>, writes: seq<(nat, T)>)
    requires store.View().Valid() && r.Valid(|store.cache|)
    requires dirtySlots.Length == Words(|store.cache|)
    requires forall i :: 0 <= i < r.Rows() ==> Satisfied(r, i, store.cache)
    requires forall k :: 0 <= k < |writes| ==> writes[k].0 < |store.cache| && !Driven(r, writes[k].0, r.Rows())
    modifies store, dirtySlots
    ensures |store.cache| == |old(store.cache)|
    ensures store.cache == FullEval(r, WriteAll(old(store.cache), writes))
  {
    ghost var c0 := store.cache;
    SolutionUnique(r, c0, c0);
    for k := 0 to |writes|
      invariant store.View().Valid() && |store.cache| == |c0|
      invariant store.cache == FullEval(r, WriteAll(c0, writes[..k]))
    {
      var (d, v) := writes[k];
      ghost var raw := WriteAll(c0, writes[..k]);
      FullEvalSatisfies(r, raw);
      assert writes[..k + 1][..k] == writes[..k];
      forall w | 0 <= w < dirtySlots.Length { dirtySlots[w] := NO_BITS; }
      dirtySlots[d / 64] := Or(dirtySlots[d / 64], Mask(d % 64));
      WriteLeavesRows(r, store.cache, d, v, dirtySlots[..]);
      EvalAfterWrite(r, raw, d, v);
      IncrementalIsFull(r, store.cache[d := v], dirtySlots[..]);
      store.SetByDense(d, v);
      var _ := RunCompiledRegion(r, store, dirtySlots);
    }
    assert writes[..|writes|] == writes;
  }
}
