/** Compiling a member set into a CSR circuit, and the dependency closure that can name it. */
module RegionCompile {
  import opened Base
  import opened Bits
  import opened Ternary
  import opened Rules
  import opened Isa
  import opened ValueStores
  import opened Deps
  import opened Propagation
  import opened Coherence
  import opened Regions
  import opened RegionIndex
  import opened TopoSort

  /** The dense image of a list of nodes. */
  ghost predicate DenseImage(w: World, ids: seq<Uid>, cols: seq<nat>) {
    |cols| == |ids| && forall k :: 0 <= k < |ids| ==> ids[k] in w.store.idx && cols[k] == w.store.idx[ids[k]]
  }

  /** A duplicate-free listing of n's dependencies whose dense image is cols. */
  ghost predicate ListsDeps(w: World, n: Uid, ids: seq<Uid>, cols: seq<nat>) {
    Distinct(ids) && (forall d :: d in ids <==> d in w.reg.DepsOf(n)) && DenseImage(w, ids, cols)
  }

  /** The columns of node n's row: its recorded indices, or the image of some listing of its
      dependencies when none are recorded. */
  ghost predicate IsRow(w: World, n: Uid, cols: seq<nat>) {
    if w.reg.OrderedIdxOf(n) != [] then cols == w.reg.OrderedIdxOf(n)
    else exists ids: seq<Uid> :: ListsDeps(w, n, ids, cols)
  }

  /** The node and everything its row reads have slots. */
  ghost predicate Mapped(w: World, n: Uid) {
    n in w.store.idx && (w.reg.OrderedIdxOf(n) == [] ==> forall d :: d in w.reg.DepsOf(n) ==> d in w.store.idx)
  }

  /** The columns are exactly the slots of the node's dependencies. */
  ghost predicate ReadsDeps(w: World, n: Uid, cols: seq<nat>) {
    forall c :: c in cols <==> exists d :: d in w.reg.DepsOf(n) && d in w.store.idx && w.store.idx[d] == c
  }

  lemma RowReadsDeps(w: World, n: Uid, cols: seq<nat>)
    requires IsRow(w, n, cols) && (w.reg.OrderedIdxOf(n) != [] ==> ListsRight(w, n))
    ensures ReadsDeps(w, n, cols)
  {
    var ids: seq<Uid> := if w.reg.OrderedIdxOf(n) != [] then w.reg.OrderedDepsOf(n)
                         else var ids: seq<Uid> :| ListsDeps(w, n, ids, cols); ids;
    assert ListsDeps(w, n, ids, cols);
    forall c | c in cols ensures exists d :: d in w.reg.DepsOf(n) && d in w.store.idx && w.store.idx[d] == c {
      var k :| 0 <= k < |cols| && cols[k] == c;
      assert ids[k] in ids;
    }
    forall d | d in w.reg.DepsOf(n) && d in w.store.idx ensures w.store.idx[d] in cols {
      var k :| 0 <= k < |ids| && ids[k] == d;
    }
  }

  /** `dep_indices`: the recorded indices, else each dependency looked up, in whatever order the
      set yields them. */
  method RowColumns(w: World, n: Uid) returns (cols: Option<seq<nat>>)
    requires w.Wf()
    ensures cols.Some? <==> (w.reg.OrderedIdxOf(n) == [] ==> forall d :: d in w.reg.DepsOf(n) ==> d in w.store.idx)
    ensures cols.Some? ==> IsRow(w, n, cols.value) && forall k :: 0 <= k < |cols.value| ==> cols.value[k] < |w.store.cache|
  {
    var idx := w.reg.OrderedIdxOf(n);
    if idx != [] { return Some(idx); }
    var rest := w.reg.DepsOf(n);
    var out: seq<nat> := [];
    ghost var ids: seq<Uid> := [];
    while rest != {}
      invariant Distinct(ids) && (forall d :: d in ids <==> d in w.reg.DepsOf(n) - rest)
      invariant rest <= w.reg.DepsOf(n)
      invariant DenseImage(w, ids, out)
    {
      var d :| d in rest;
      if d !in w.store.idx {
        assert d in w.reg.DepsOf(n);
        return None;
      }
      assert d !in ids;
      out, ids, rest := out + [w.store.idx[d]], ids + [d], rest - {d};
    }
    assert ListsDeps(w, n, ids, out);
    cols := Some(out);
  }

  // ---- boundary inputs ---------------------------------------------------------------

  /** Row i is the first to read column c. */
  ghost predicate FirstRead(rows: seq<seq<nat>>, i: nat, c: nat) {
    i < |rows| && c in rows[i] && forall j :: 0 <= j < i ==> c !in rows[j]
  }

  /** The inputs are the columns that were no output when first read, each listed once. */
  ghost predicate InputsOf(rows: seq<seq<nat>>, outputs: seq<nat>, inputs: seq<nat>)
    requires |outputs| == |rows|
  {
    && Distinct(inputs)
    && forall c: nat :: c in inputs <==> exists i: nat :: FirstRead(rows, i, c) && c !in outputs[..i + 1]
  }

  ghost predicate SeenBy(rows: seq<seq<nat>>, seen: set<nat>) {
    forall c: nat :: c in seen <==> exists i :: 0 <= i < |rows| && c in rows[i]
  }

  method AddInputs(row: seq<nat>, outputs: seq<nat>, seen: set<nat>, inputs: seq<nat>)
    returns (seen': set<nat>, inputs': seq<nat>)
    requires Distinct(inputs) && forall c :: c in inputs ==> c in seen
    ensures Distinct(inputs')
    ensures forall c :: c in seen' <==> c in seen || c in row
    ensures forall c :: c in inputs' <==> c in inputs || (c in row && c !in seen && c !in outputs)
  {
    seen', inputs' := seen, inputs;
    for k := 0 to |row|
      invariant Distinct(inputs')
      invariant forall c :: c in seen' <==> c in seen || c in row[..k]
      invariant forall c :: c in inputs' <==> c in inputs || (c in row[..k] && c !in seen && c !in outputs)
    {
      assert row[..k + 1] == row[..k] + [row[k]];
      if row[k] !in seen' && row[k] !in outputs { inputs' := inputs' + [row[k]]; }
      seen' := seen' + {row[k]};
    }
    assert row[..|row|] == row;
  }

  lemma InputsNext(rows: seq<seq<nat>>, row: seq<nat>, outputs: seq<nat>, out: nat, seen: set<nat>, inputs: seq<nat>, inputs': seq<nat>)
    requires |outputs| == |rows| && SeenBy(rows, seen) && InputsOf(rows, outputs, inputs) && Distinct(inputs')
    requires forall c :: c in inputs' <==> c in inputs || (c in row && c !in seen && c !in outputs + [out])
    ensures InputsOf(rows + [row], outputs + [out], inputs')
  {
    var rows', outputs' := rows + [row], outputs + [out];
    forall c: nat ensures c in inputs' <==> exists i: nat :: FirstRead(rows', i, c) && c !in outputs'[..i + 1] {
      if c in inputs {
        var i: nat :| FirstRead(rows, i, c) && c !in outputs[..i + 1];
        assert FirstRead(rows', i, c) && outputs'[..i + 1] == outputs[..i + 1];
      } else if c in inputs' {
        assert FirstRead(rows', |rows|, c) && outputs'[..|rows| + 1] == outputs';
      } else if exists i: nat :: FirstRead(rows', i, c) && c !in outputs'[..i + 1] {
        var i: nat :| FirstRead(rows', i, c) && c !in outputs'[..i + 1];
        InputsNoOther(rows, row, outputs, out, seen, inputs, i, c);
      }
    }
  }

  lemma InputsNoOther(rows: seq<seq<nat>>, row: seq<nat>, outputs: seq<nat>, out: nat, seen: set<nat>, inputs: seq<nat>, i: nat, c: nat)
    requires |outputs| == |rows| && SeenBy(rows, seen) && InputsOf(rows, outputs, inputs)
    requires FirstRead(rows + [row], i, c) && c !in (outputs + [out])[..i + 1]
    ensures c in inputs || (c in row && c !in seen && c !in outputs + [out])
  {
    var rows', outputs' := rows + [row], outputs + [out];
    if i < |rows| {
      forall j | 0 <= j < i ensures c !in rows[j] { assert rows'[j] == rows[j]; }
      assert FirstRead(rows, i, c) && outputs'[..i + 1] == outputs[..i + 1];
    } else {
      assert outputs'[..i + 1] == outputs';
      forall j | 0 <= j < |rows| ensures c !in rows[j] { assert rows'[j] == rows[j]; }
    }
  }

  /** When no row reads a later row's output or its own, the inputs are the columns outside the outputs. */
  lemma InputsOutside(rows: seq<seq<nat>>, outputs: seq<nat>, inputs: seq<nat>)
    requires |outputs| == |rows| && InputsOf(rows, outputs, inputs)
    requires forall i, j :: 0 <= i < |rows| && 0 <= j < |rows| && outputs[j] in rows[i] ==> j < i
    ensures forall c: nat :: c in inputs <==> c !in outputs && exists i :: 0 <= i < |rows| && c in rows[i]
  {
    forall c: nat ensures c in inputs <==> c !in outputs && exists i :: 0 <= i < |rows| && c in rows[i] {
      if c in inputs {
        var i: nat :| FirstRead(rows, i, c) && c !in outputs[..i + 1];
        forall j | 0 <= j < |outputs| ensures outputs[j] != c { assert j <= i ==> outputs[..i + 1][j] == outputs[j]; }
      }
      if c !in outputs && exists i :: 0 <= i < |rows| && c in rows[i] {
        var i: nat :| i < |rows| && c in rows[i];
        FirstReader(rows, i, c);
        var k: nat :| FirstRead(rows, k, c);
        assert c !in outputs[..k + 1];
      }
    }
  }

  lemma {:induction false} FirstReader(rows: seq<seq<nat>>, i: nat, c: nat)
    requires i < |rows| && c in rows[i]
    ensures exists k: nat :: FirstRead(rows, k, c)
    decreases i
  {
    if exists j: nat :: j < i && c in rows[j] {
      var j: nat :| j < i && c in rows[j];
      FirstReader(rows, j, c);
    } else {
      assert FirstRead(rows, i, c);
    }
  }

  // ---- the circuit under construction ----------------------------------------------------

  /** The arrays `compile_region` fills, row by row. */
  datatype Circuit = Circuit(depOffsets: seq<nat>, depCols: seq<nat>, rules: seq<ComputeRule>,
                             outputs: seq<nat>, seen: set<nat>, inputs: seq<nat>)

  const EMPTY_CIRCUIT := Circuit([0], [], [], [], {}, [])

  function RuleOf(w: World, n: Uid): ComputeRule {
    if n in w.nodes && w.nodes[n].kind.Computed? then w.nodes[n].kind.rule else Identity
  }

  /** The circuit holds one row per listed node: its slot, its rule and the given columns. */
  ghost predicate Compiled(w: World, topo: seq<Uid>, rows: seq<seq<nat>>, c: Circuit) {
    && |rows| == |topo| == |c.rules| == |c.outputs|
    && Represents(c.depOffsets, c.depCols, rows)
    && (forall i :: 0 <= i < |topo| ==> IsRow(w, topo[i], rows[i]) && Mapped(w, topo[i]))
    && (forall i :: 0 <= i < |topo| ==> topo[i] in w.store.idx && c.outputs[i] == w.store.idx[topo[i]])
    && (forall i :: 0 <= i < |topo| ==> c.rules[i] == RuleOf(w, topo[i]))
    && (forall k :: 0 <= k < |c.depCols| ==> c.depCols[k] < |w.store.cache|)
    && SeenBy(rows, c.seen)
    && InputsOf(rows, c.outputs, c.inputs)
  }

  lemma EmptyCompiled(w: World)
    ensures Compiled(w, [], [], EMPTY_CIRCUIT)
  {}

  lemma InputsSeen(rows: seq<seq<nat>>, outputs: seq<nat>, seen: set<nat>, inputs: seq<nat>)
    requires |outputs| == |rows| && SeenBy(rows, seen) && InputsOf(rows, outputs, inputs)
    ensures forall c :: c in inputs ==> c in seen
  {}

  lemma SeenNext(rows: seq<seq<nat>>, row: seq<nat>, seen: set<nat>, seen': set<nat>)
    requires SeenBy(rows, seen) && forall c :: c in seen' <==> c in seen || c in row
    ensures SeenBy(rows + [row], seen')
  {
    var rows' := rows + [row];
    forall c: nat ensures c in seen' <==> exists i :: 0 <= i < |rows'| && c in rows'[i] {
      if c in seen {
        var i :| 0 <= i < |rows| && c in rows[i];
        assert rows'[i] == rows[i];
      } else if c in row {
        assert rows'[|rows|] == row;
      }
      forall i | 0 <= i < |rows'| && c in rows'[i] ensures c in seen' { assert i < |rows| ==> c in rows[i]; }
    }
  }

  /** One node's row; None when the node or a dependency it must look up has no slot. */
  method CompileRow(w: World, ghost topo: seq<Uid>, ghost rows: seq<seq<nat>>, c: Circuit, n: Uid)
    returns (next: Option<Circuit>, ghost row: seq<nat>)
    requires w.Wf() && Compiled(w, topo, rows, c)
    ensures next.Some? <==> Mapped(w, n)
    ensures next.Some? ==> Compiled(w, topo + [n], rows + [row], next.value)
  {
    row := [];
    if n !in w.store.idx { return None, row; }
    var out := w.store.idx[n];
    var cols := RowColumns(w, n);
    if cols.None? { return None, row; }
    row := cols.value;
    InputsSeen(rows, c.outputs, c.seen, c.inputs);
    var seen, inputs := AddInputs(cols.value, c.outputs + [out], c.seen, c.inputs);
    InputsNext(rows, row, c.outputs, out, c.seen, c.inputs, inputs);
    SeenNext(rows, row, c.seen, seen);
    AppendRow(c.depOffsets, c.depCols, rows, row);
    next := Some(Circuit(c.depOffsets + [|c.depCols| + |cols.value|], c.depCols + cols.value,
                         c.rules + [RuleOf(w, n)], c.outputs + [out], seen, inputs));
  }

  method CompileRows(w: World, topo: seq<Uid>) returns (c: Option<Circuit>, ghost rows: seq<seq<nat>>)
    requires w.Wf()
    ensures c.Some? <==> forall n :: n in topo ==> Mapped(w, n)
    ensures c.Some? ==> Compiled(w, topo, rows, c.value)
  {
    var circuit := EMPTY_CIRCUIT;
    rows := [];
    EmptyCompiled(w);
    for i := 0 to |topo|
      invariant Compiled(w, topo[..i], rows, circuit)
      invariant forall n :: n in topo[..i] ==> Mapped(w, n)
    {
      var next;
      ghost var row;
      next, row := CompileRow(w, topo[..i], rows, circuit, topo[i]);
      if next.None? {
        assert topo[i] in topo;
        return None, rows;
      }
      assert topo[..i + 1] == topo[..i] + [topo[i]];
      circuit, rows := next.value, rows + [row];
    }
    assert topo[..|topo|] == topo;
    c := Some(circuit);
  }

  // ---- the compiled region ----------------------------------------------------------------

  /** r is a compilation of the member set: its members are a topological permutation, and row by
      row its slots, rules and columns are those of the members. */
  ghost predicate CompiledFrom(w: World, members: seq<Uid>, r: Region) {
    && r.Shaped()
    && TopoOrder(w.reg, Elements(members), r.members)
    && (forall i :: 0 <= i < r.Rows() ==>
        && r.members[i] in w.store.idx && r.outputs[i] == w.store.idx[r.members[i]]
        && r.rules[i] == RuleOf(w, r.members[i])
        && IsRow(w, r.members[i], r.Deps(i)))
  }

  /** Every row reads exactly its member's dependencies. */
  ghost predicate Faithful(w: World, members: seq<Uid>) {
    forall n :: n in members && w.reg.OrderedIdxOf(n) != [] ==> ListsRight(w, n)
  }

  /** The boundary inputs are the columns outside the outputs, each once. */
  ghost predicate InputsExact(r: Region)
    requires r.Shaped()
  {
    && Distinct(r.inputs)
    && forall c: nat :: c in r.inputs <==> c !in r.outputs && exists i :: 0 <= i < r.Rows() && c in r.Deps(i)
  }

  lemma OutputsDistinct(w: World, members: seq<Uid>, r: Region)
    requires w.Wf() && Mirrored(w) && CompiledFrom(w, members, r)
    ensures Distinct(r.outputs)
  {
    forall i, j | 0 <= i < j < |r.outputs| ensures r.outputs[i] != r.outputs[j] {
      assert r.members[i] != r.members[j];
    }
  }

  /** With faithful rows, a row reads a member's slot only if that member comes earlier. */
  lemma RowsTopological(w: World, members: seq<Uid>, r: Region, i: nat, j: nat)
    requires w.Wf() && Mirrored(w) && CompiledFrom(w, members, r) && Faithful(w, members)
    requires i < r.Rows() && j < r.Rows() && r.outputs[j] in r.Deps(i)
    ensures j < i
  {
    var n := r.members[i];
    assert n in r.members;
    RowReadsDeps(w, n, r.Deps(i));
    var d :| d in w.reg.DepsOf(n) && d in w.store.idx && w.store.idx[d] == r.outputs[j];
    assert d == r.members[j] && d in r.members;
    assert d in r.members[..i];
    var k :| 0 <= k < i && r.members[k] == d;
    assert k == j;
  }

  /** `compile_region`: a region exactly when the member list has no duplicate, no dependency
      cycle and no unmapped slot; then its members are a topological permutation, its rows are
      the members' equations, its index and hints are right, and, when the recorded index lists
      are faithful, it is topological and its inputs are exactly the columns outside its outputs. */
  method CompileRegion(members: seq<Uid>, w: World, epoch: nat) returns (region: Option<Region>)
    requires Coherent(w)
    ensures region.Some? <==>
      Distinct(members) && Acyclic(w.reg, Elements(members)) && forall n :: n in members ==> Mapped(w, n)
    ensures region.Some? ==> CompiledFrom(w, members, region.value) && region.value.compiledAt == epoch
    ensures region.Some? ==> region.value.Runnable(|w.store.cache|)
    ensures region.Some? && Faithful(w, members) ==> region.value.Valid(|w.store.cache|) && InputsExact(region.value)
  {
    var topo := KahnSort(members, w.reg);
    if topo.None? { return None; }
    var c;
    ghost var rows;
    c, rows := CompileRows(w, topo.value);
    if c.None? { return None; }
    var keys, keyOffsets, keyRows, contig := BuildRegionInv(c.value.depOffsets, c.value.depCols, |topo.value|);
    var r := Region(topo.value, c.value.rules, c.value.outputs, c.value.inputs, c.value.depOffsets, c.value.depCols,
                    epoch, keys, keyOffsets, keyRows, contig);
    FromCircuit(w, members, r, c.value, rows);
    region := Some(r);
  }

  lemma FromCircuit(w: World, members: seq<Uid>, r: Region, c: Circuit, rows: seq<seq<nat>>)
    requires Coherent(w) && TopoOrder(w.reg, Elements(members), r.members) && Compiled(w, r.members, rows, c)
    requires r.rules == c.rules && r.outputs == c.outputs && r.inputs == c.inputs
    requires r.depOffsets == c.depOffsets && r.depCols == c.depCols && |r.contigStart| == |r.members|
    requires r.Shaped() && r.Indexed()
    requires forall i, first: nat :: 0 <= i < r.Rows() ==> (r.contigStart[i] == Some(first) <==> Contiguous(r.Deps(i), first))
    ensures CompiledFrom(w, members, r) && r.Runnable(|w.store.cache|)
    ensures Faithful(w, members) ==> r.Valid(|w.store.cache|) && InputsExact(r)
  {
    assert forall i :: 0 <= i < r.Rows() ==> r.Deps(i) == rows[i];
    OutputsDistinct(w, members, r);
    if Faithful(w, members) {
      forall i, j | 0 <= i < r.Rows() && 0 <= j < r.Rows() && r.outputs[j] in r.Deps(i) ensures j < i {
        RowsTopological(w, members, r, i, j);
      }
      InputsOutside(rows, r.outputs, r.inputs);
    }
  }
}
