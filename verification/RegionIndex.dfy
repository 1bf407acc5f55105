/** Building the inverted index and the contiguity hints of a CSR circuit. */
module RegionIndex {
  import opened Base
  import opened Regions

  /** Row pointers and columns hold exactly these rows. */
  ghost predicate Represents(offsets: seq<nat>, cols: seq<nat>, rows: seq<seq<nat>>) {
    && CsrShaped(offsets, cols, |rows|) && offsets[|rows|] == |cols|
    && forall i :: 0 <= i < |rows| ==> CsrRow(offsets, cols, i) == rows[i]
  }

  lemma AppendRow(offsets: seq<nat>, cols: seq<nat>, rows: seq<seq<nat>>, row: seq<nat>)
    requires Represents(offsets, cols, rows)
    ensures Represents(offsets + [|cols| + |row|], cols + row, rows + [row])
  {
    var offsets', cols', rows' := offsets + [|cols| + |row|], cols + row, rows + [row];
    forall i | 0 <= i < |rows'| ensures CsrRow(offsets', cols', i) == rows'[i] {
      if i < |rows| {
        assert CsrRow(offsets, cols, i) == rows[i];
        assert offsets[i + 1] <= offsets[|rows|];
        assert cols'[offsets[i]..offsets[i + 1]] == cols[offsets[i]..offsets[i + 1]];
      }
    }
  }

  /** inv maps each column of the rows below `row`, and of the first x entries of `row`, to the
      rows that read it. */
  ghost predicate InvertedTo(inv: map<nat, seq<nat>>, offsets: seq<nat>, cols: seq<nat>, n: nat, row: nat, part: seq<nat>)
    requires CsrShaped(offsets, cols, n) && row <= n
  {
    forall c: nat, r: nat :: c in inv && r in inv[c] <==> (r < row && Reads(offsets, cols, n, r, c)) || (r == row && c in part)
  }

  lemma InvertNext(inv: map<nat, seq<nat>>, offsets: seq<nat>, cols: seq<nat>, n: nat, row: nat, part: seq<nat>, col: nat)
    requires CsrShaped(offsets, cols, n) && row <= n && InvertedTo(inv, offsets, cols, n, row, part)
    ensures InvertedTo(inv[col := (if col in inv then inv[col] else []) + [row]], offsets, cols, n, row, part + [col])
  {
    var was := if col in inv then inv[col] else [];
    var inv' := inv[col := was + [row]];
    forall c: nat, r: nat
      ensures c in inv' && r in inv'[c] <==> (r < row && Reads(offsets, cols, n, r, c)) || (r == row && c in part + [col])
    {
      assert c in inv && r in inv[c] <==> (r < row && Reads(offsets, cols, n, r, c)) || (r == row && c in part);
      if c == col {
        assert inv'[c] == was + [row];
        assert r in was <==> c in inv && r in inv[c];
      } else {
        assert c in inv' <==> c in inv;
      }
    }
  }

  lemma RowDone(inv: map<nat, seq<nat>>, offsets: seq<nat>, cols: seq<nat>, n: nat, row: nat)
    requires CsrShaped(offsets, cols, n) && row < n && InvertedTo(inv, offsets, cols, n, row, CsrRow(offsets, cols, row))
    ensures InvertedTo(inv, offsets, cols, n, row + 1, [])
  {
    forall c: nat, r: nat
      ensures (r < row && Reads(offsets, cols, n, r, c)) || (r == row && c in CsrRow(offsets, cols, row))
         <==> r < row + 1 && Reads(offsets, cols, n, r, c)
    {}
  }

  /** The rows of each column, by one pass over the row pointers. */
  method InvertRows(offsets: seq<nat>, cols: seq<nat>, n: nat) returns (inv: map<nat, seq<nat>>)
    requires CsrShaped(offsets, cols, n)
    ensures InvertedTo(inv, offsets, cols, n, n, [])
  {
    inv := map[];
    for row := 0 to n
      invariant InvertedTo(inv, offsets, cols, n, row, [])
    {
      var rs, re := offsets[row], offsets[row + 1];
      ghost var whole := CsrRow(offsets, cols, row);
      for x := rs to re
        invariant InvertedTo(inv, offsets, cols, n, row, whole[..x - rs])
      {
        var col := cols[x];
        InvertNext(inv, offsets, cols, n, row, whole[..x - rs], col);
        assert whole[..x + 1 - rs] == whole[..x - rs] + [col];
        inv := inv[col := (if col in inv then inv[col] else []) + [row]];
      }
      assert whole[..re - rs] == whole;
      RowDone(inv, offsets, cols, n, row);
    }
  }

  /** Some(first) exactly when the row is first, first + 1, and so on. */
  method ContiguityHint(row: seq<nat>) returns (hint: Option<nat>)
    ensures forall first: nat :: hint == Some(first) <==> Contiguous(row, first)
  {
    if |row| == 0 { return None; }
    var first := row[0];
    for k := 0 to |row|
      invariant forall j :: 0 <= j < k ==> row[j] == first + j
    {
      if row[k] != first + k {
        forall f: nat ensures !Contiguous(row, f) { assert row[0] != f || row[k] != f + k; }
        return None;
      }
    }
    forall f: nat | Contiguous(row, f) ensures f == first { assert row[0] == f; }
    hint := Some(first);
  }

  /** The map's columns, ascending. */
  ghost predicate SortedKeys(inv: map<nat, seq<nat>>, keys: seq<nat>) {
    (forall c :: c in keys <==> c in inv) && forall i, j :: 0 <= i < j < |keys| ==> keys[i] < keys[j]
  }

  ghost function RowsOf(inv: map<nat, seq<nat>>, keys: seq<nat>, k: nat): (rows: seq<seq<nat>>)
    requires k <= |keys|
    ensures |rows| == k
  {
    seq(k, j requires 0 <= j < k => if keys[j] in inv then inv[keys[j]] else [])
  }

  /** The index arrays hold, key by key, what the map holds. */
  ghost predicate Lists(inv: map<nat, seq<nat>>, keys: seq<nat>, keyOffsets: seq<nat>, keyRows: seq<nat>) {
    && SortedKeys(inv, keys)
    && CsrShaped(keyOffsets, keyRows, |keys|)
    && forall k :: 0 <= k < |keys| ==> keys[k] in inv && CsrRow(keyOffsets, keyRows, k) == inv[keys[k]]
  }

  /** The rows of the listed columns, one column after the other. */
  method ListRows(inv: map<nat, seq<nat>>, keys: seq<nat>) returns (keyOffsets: seq<nat>, keyRows: seq<nat>)
    requires forall k :: 0 <= k < |keys| ==> keys[k] in inv
    ensures Represents(keyOffsets, keyRows, RowsOf(inv, keys, |keys|))
  {
    keyOffsets, keyRows := [0], [];
    for k := 0 to |keys|
      invariant Represents(keyOffsets, keyRows, RowsOf(inv, keys, k))
    {
      var row := inv[keys[k]];
      assert RowsOf(inv, keys, k + 1) == RowsOf(inv, keys, k) + [row];
      AppendRow(keyOffsets, keyRows, RowsOf(inv, keys, k), row);
      keyRows := keyRows + row;
      keyOffsets := keyOffsets + [|keyRows|];
    }
  }

  lemma RepresentsLists(inv: map<nat, seq<nat>>, keys: seq<nat>, keyOffsets: seq<nat>, keyRows: seq<nat>)
    requires SortedKeys(inv, keys) && Represents(keyOffsets, keyRows, RowsOf(inv, keys, |keys|))
    ensures Lists(inv, keys, keyOffsets, keyRows)
  {
    forall k | 0 <= k < |keys| ensures keys[k] in inv && CsrRow(keyOffsets, keyRows, k) == inv[keys[k]] {
      assert keys[k] in keys;
      assert RowsOf(inv, keys, |keys|)[k] == inv[keys[k]];
    }
  }

  lemma AscendingKeys(inv: map<nat, seq<nat>>)
    ensures SortedKeys(inv, Ascending(inv.Keys))
  {
    AscendingElements(inv.Keys);
    AscendingSorted(inv.Keys);
  }

  lemma IndexIsRight(inv: map<nat, seq<nat>>, offsets: seq<nat>, cols: seq<nat>, n: nat,
                     keys: seq<nat>, keyOffsets: seq<nat>, keyRows: seq<nat>)
    requires CsrShaped(offsets, cols, n) && InvertedTo(inv, offsets, cols, n, n, []) && Lists(inv, keys, keyOffsets, keyRows)
    ensures IndexFor(keys, keyOffsets, keyRows, offsets, cols, n)
  {
    forall k: nat, r: nat | k < |keys|
      ensures r in CsrRow(keyOffsets, keyRows, k) <==> Reads(offsets, cols, n, r, keys[k])
    {
      assert CsrRow(keyOffsets, keyRows, k) == inv[keys[k]];
    }
    forall r: nat, c: nat | Reads(offsets, cols, n, r, c) ensures c in keys {
      assert c in inv && r in inv[c];
    }
  }

  /** A hint for every row, Some exactly on the contiguous ones. */
  method ContiguityHints(offsets: seq<nat>, cols: seq<nat>, n: nat) returns (contig: seq<Option<nat>>)
    requires CsrShaped(offsets, cols, n)
    ensures |contig| == n
    ensures forall i, first: nat :: 0 <= i < n ==> (contig[i] == Some(first) <==> Contiguous(CsrRow(offsets, cols, i), first))
  {
    contig := [];
    for row := 0 to n
      invariant |contig| == row
      invariant forall i, first: nat :: 0 <= i < row ==> (contig[i] == Some(first) <==> Contiguous(CsrRow(offsets, cols, i), first))
    {
      var hint := ContiguityHint(CsrRow(offsets, cols, row));
      contig := contig + [hint];
    }
  }

  /** `build_region_inv`: a right index, and hints that are Some exactly on contiguous rows. */
  method BuildRegionInv(offsets: seq<nat>, cols: seq<nat>, n: nat)
    returns (keys: seq<nat>, keyOffsets: seq<nat>, keyRows: seq<nat>, contig: seq<Option<nat>>)
    requires CsrShaped(offsets, cols, n)
    ensures IndexFor(keys, keyOffsets, keyRows, offsets, cols, n)
    ensures |contig| == n
    ensures forall i, first: nat :: 0 <= i < n ==> (contig[i] == Some(first) <==> Contiguous(CsrRow(offsets, cols, i), first))
  {
    var inv := InvertRows(offsets, cols, n);
    keys := Ascending(inv.Keys);
    AscendingKeys(inv);
    forall k | 0 <= k < |keys| ensures keys[k] in inv { assert keys[k] in keys; }
    keyOffsets, keyRows := ListRows(inv, keys);
    RepresentsLists(inv, keys, keyOffsets, keyRows);
    IndexIsRight(inv, offsets, cols, n, keys, keyOffsets, keyRows);
    contig := ContiguityHints(offsets, cols, n);
  }
}
