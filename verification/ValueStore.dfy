/** Dense value cache with bit-sliced planes. */
module ValueStores {
  import opened Base
  import opened Bits
  import opened Ternary

  /** The store as a value; `class ValueStore` below holds the same four fields in place. */
  datatype Store = Store(cache: seq<T>, idx: map<Uid, nat>, planeP0: seq<Word>, planeP1: seq<Word>) {

    /** Every index is in range. */
    ghost predicate Shaped() {
      forall id :: id in idx ==> idx[id] < |cache|
    }

    /** Bit d of P0 is set iff slot d is Pos, bit d of P1 iff it is Zero; bits past the last slot are clear. */
    ghost predicate PlanesAgree() {
      && |planeP0| == |planeP1| == Words(|cache|)
      && (forall d: nat :: Test(planeP0, d) <==> d < |cache| && cache[d] == Pos)
      && (forall d: nat :: Test(planeP1, d) <==> d < |cache| && cache[d] == Zero)
    }

    ghost predicate Valid() { Shaped() && PlanesAgree() }

    function Get(id: Uid): T
      requires Shaped()
    {
      if id in idx then cache[idx[id]] else Neg
    }

    function Alloc(id: Uid): Store {
      var grow := |planeP0| < Words(|cache| + 1);
      Store(cache + [Neg], idx[id := |cache|],
            if grow then planeP0 + [NO_BITS] else planeP0,
            if grow then planeP1 + [NO_BITS] else planeP1)
    }

    function SetByDense(d: nat, val: T): Store
      requires d < |cache| && |planeP0| == |planeP1| == Words(|cache|)
    {
      this.(cache := cache[d := val],
            planeP0 := if val == Pos then SetBit(planeP0, d) else ClearBit(planeP0, d),
            planeP1 := if val == Zero then SetBit(planeP1, d) else ClearBit(planeP1, d))
    }

    function Set(id: Uid, val: T): Store
      requires Shaped() && |planeP0| == |planeP1| == Words(|cache|)
    {
      if id in idx then SetByDense(idx[id], val) else this
    }
  }

  /** The values at a list of dense slots. */
  function Gather(cache: seq<T>, cols: seq<nat>): seq<T>
    requires forall k :: 0 <= k < |cols| ==> cols[k] < |cache|
  {
    seq(|cols|, k requires 0 <= k < |cols| => cache[cols[k]])
  }

  const EMPTY_STORE := Store([], map[], [], [])

  /** A fresh slot reads Neg in the cache and in both planes; no other slot moves. */
  lemma AllocValid(s: Store, id: Uid)
    requires s.Valid()
    ensures s.Alloc(id).Valid() && s.Alloc(id).Get(id) == Neg
    ensures forall other :: other != id ==> s.Alloc(id).Get(other) == s.Get(other)
  {
    var t := s.Alloc(id);
    forall d: nat
      ensures Test(t.planeP0, d) <==> Test(s.planeP0, d)
      ensures Test(t.planeP1, d) <==> Test(s.planeP1, d)
    {
      if d / WORD == |s.planeP0| { assert !NO_BITS[d % WORD]; }
    }
  }

  lemma SetByDenseValid(s: Store, d: nat, val: T)
    requires s.Valid() && d < |s.cache|
    ensures s.SetByDense(d, val).Valid()
  {
    var t := s.SetByDense(d, val);
    forall e: nat
      ensures Test(t.planeP0, e) <==> e < |t.cache| && t.cache[e] == Pos
      ensures Test(t.planeP1, e) <==> e < |t.cache| && t.cache[e] == Zero
    {
      if val == Pos { TestSet(s.planeP0, d, e); } else { TestClear(s.planeP0, d, e); }
      if val == Zero { TestSet(s.planeP1, d, e); } else { TestClear(s.planeP1, d, e); }
    }
  }

  lemma SetValid(s: Store, id: Uid, val: T)
    requires s.Valid()
    ensures s.Set(id, val).Valid()
  {
    if id in s.idx { SetByDenseValid(s, s.idx[id], val); }
  }

  /** `range_mask`: the bits of word w whose slots fall in [start, end). */
  function RangeMask(start: nat, end: nat, w: nat): Word {
    var wLo := w * 64;
    var wHi := wLo + 64;
    if start >= wHi || end <= wLo then NO_BITS
    else
      var lo := (if start >= wLo then start else wLo) - wLo;
      var hi := (if end <= wHi then end else wHi) - wLo;
      var loMask := if lo == 0 then ALL_ONES else Shl(ALL_ONES, lo);
      var hiMask := if hi == 64 then ALL_ONES else Dec(Mask(hi));
      And(loMask, hiMask)
  }

  /** `(1 << hi) - 1` holds exactly the bits below hi. */
  lemma LowBits(hi: nat, j: nat)
    requires hi < 64 && j < 64
    ensures Dec(Mask(hi))[j] <==> j < hi
  {
    var m := Mask(hi);
    assert forall i :: 0 <= i < 64 ==> (m[i] <==> i == hi);
    if j > hi { assert m[hi] && !ClearBelow(m, j); }
  }

  lemma RangeMaskSelects(start: nat, end: nat, w: nat, j: nat)
    requires j < 64
    ensures RangeMask(start, end, w)[j] <==> start <= w * 64 + j < end
  {
    var wLo := w * 64;
    var wHi := wLo + 64;
    if start < wHi && end > wLo {
      var hi := (if end <= wHi then end else wHi) - wLo;
      if hi < 64 { LowBits(hi, j); }
    }
  }

  // ---- the planes are a function of the cache ---------------------------------------------

  /** The plane whose bit d is set iff slot d holds v. */
  function PlaneOf(cache: seq<T>, v: T): (plane: seq<Word>)
    ensures |plane| == Words(|cache|)
  {
    seq(Words(|cache|), w requires 0 <= w => WordOf(cache, v, w))
  }

  function WordOf(cache: seq<T>, v: T, w: nat): Word {
    seq(64, j requires 0 <= j < 64 => w * 64 + j < |cache| && cache[w * 64 + j] == v)
  }

  lemma PlaneOfTest(cache: seq<T>, v: T, d: nat)
    ensures Test(PlaneOf(cache, v), d) <==> d < |cache| && cache[d] == v
  {
    assert d / 64 * 64 + d % 64 == d;
    if d / 64 < Words(|cache|) {
      assert PlaneOf(cache, v)[d / 64] == WordOf(cache, v, d / 64);
    }
  }

  /** The store that holds these slots. */
  function StoreOf(cache: seq<T>, idx: map<Uid, nat>): Store {
    Store(cache, idx, PlaneOf(cache, Pos), PlaneOf(cache, Zero))
  }

  lemma StoreOfValid(cache: seq<T>, idx: map<Uid, nat>)
    requires forall id :: id in idx ==> idx[id] < |cache|
    ensures StoreOf(cache, idx).Valid()
  {
    forall d: nat
      ensures Test(PlaneOf(cache, Pos), d) <==> d < |cache| && cache[d] == Pos
      ensures Test(PlaneOf(cache, Zero), d) <==> d < |cache| && cache[d] == Zero
    {
      PlaneOfTest(cache, Pos, d);
      PlaneOfTest(cache, Zero, d);
    }
  }

  /** Two planes of one length with the same bits are equal. */
  lemma SameBits(a: seq<Word>, b: seq<Word>)
    requires |a| == |b| && forall d: nat :: Test(a, d) <==> Test(b, d)
    ensures a == b
  {
    forall w | 0 <= w < |a| ensures a[w] == b[w] {
      forall j | 0 <= j < 64 ensures a[w][j] == b[w][j] {
        var d := w * 64 + j;
        assert d / 64 == w && d % 64 == j;
        assert Test(a, d) <==> Test(b, d);
      }
    }
  }

  /** A valid store is the one its slots determine. */
  lemma ValidIsStoreOf(s: Store)
    requires s.Valid()
    ensures s == StoreOf(s.cache, s.idx)
  {
    var t := StoreOf(s.cache, s.idx);
    StoreOfValid(s.cache, s.idx);
    forall d: nat
      ensures Test(s.planeP0, d) <==> Test(t.planeP0, d)
      ensures Test(s.planeP1, d) <==> Test(t.planeP1, d)
    {}
    SameBits(s.planeP0, t.planeP0);
    SameBits(s.planeP1, t.planeP1);
  }

  // ---- one word of a range scan --------------------------------------------------------

  /** Some slot in [s, e) holds v. */
  ghost predicate Occurs(cache: seq<T>, s: nat, e: nat, v: T) {
    exists d :: s <= d < e && d < |cache| && cache[d] == v
  }

  /** Masked slots that hold Neg: neither plane has the bit. */
  function NegBits(p0: Word, p1: Word, mask: Word): Word {
    var p0m, p1m := And(p0, mask), And(p1, mask);
    And(And(Not(p0m), Not(p1m)), mask)
  }

  function ZeroBits(p0: Word, p1: Word, mask: Word): Word {
    var p0m, p1m := And(p0, mask), And(p1, mask);
    And(Not(p0m), p1m)
  }

  function PosBits(p0: Word, p1: Word, mask: Word): Word {
    var p0m, p1m := And(p0, mask), And(p1, mask);
    And(p0m, Not(p1m))
  }

  function BitsOf(p0: Word, p1: Word, mask: Word, v: T): Word {
    match v case Neg => NegBits(p0, p1, mask) case Zero => ZeroBits(p0, p1, mask) case Pos => PosBits(p0, p1, mask)
  }

  /** The set bits of the word are the slots of word w in [s, e) that hold v. */
  ghost predicate Selects(bits: Word, cache: seq<T>, s: nat, e: nat, w: nat, v: T) {
    forall j :: 0 <= j < 64 ==> (bits[j] <==> s <= w * 64 + j < e && w * 64 + j < |cache| && cache[w * 64 + j] == v)
  }

  lemma BitsSelect(st: Store, s: nat, e: nat, w: nat, v: T)
    requires st.Valid() && e <= |st.cache| && w < |st.planeP0|
    ensures Selects(BitsOf(st.planeP0[w], st.planeP1[w], RangeMask(s, e, w), v), st.cache, s, e, w, v)
  {
    var bits := BitsOf(st.planeP0[w], st.planeP1[w], RangeMask(s, e, w), v);
    forall j | 0 <= j < 64
      ensures bits[j] <==> s <= w * 64 + j < e && w * 64 + j < |st.cache| && st.cache[w * 64 + j] == v
    {
      var d := w * 64 + j;
      RangeMaskSelects(s, e, w, j);
      assert d / 64 == w && d % 64 == j;
      assert Test(st.planeP0, d) == st.planeP0[w][j];
      assert Test(st.planeP1, d) == st.planeP1[w][j];
    }
  }

  /** Scanning one more word: v occurs so far iff it did before or the word shows it. */
  lemma WordScan(bits: Word, cache: seq<T>, s: nat, e: nat, w: nat, v: T)
    requires Selects(bits, cache, s, e, w, v)
    ensures Occurs(cache, s, AtMost(e, (w + 1) * 64), v)
       <==> Occurs(cache, s, AtMost(e, w * 64), v) || bits != NO_BITS
  {
    forall d | s <= d < AtMost(e, (w + 1) * 64) && d < |cache| && cache[d] == v
      ensures d < w * 64 || bits[d - w * 64]
    {
      if d >= w * 64 {
        var j := d - w * 64;
        assert w * 64 + j == d;
      }
    }
    if bits != NO_BITS {
      var j :| 0 <= j < 64 && bits[j];
      assert cache[w * 64 + j] == v;
    }
  }

  lemma PlaneScan(st: Store, s: nat, e: nat, w: nat, v: T)
    requires st.Valid() && e <= |st.cache| && w < |st.planeP0|
    ensures Occurs(st.cache, s, AtMost(e, (w + 1) * 64), v)
       <==> Occurs(st.cache, s, AtMost(e, w * 64), v)
            || BitsOf(st.planeP0[w], st.planeP1[w], RangeMask(s, e, w), v) != NO_BITS
  {
    BitsSelect(st, s, e, w, v);
    WordScan(BitsOf(st.planeP0[w], st.planeP1[w], RangeMask(s, e, w), v), st.cache, s, e, w, v);
  }

  function AtMost(a: nat, b: nat): nat { if a <= b then a else b }

  lemma OccursInSlice(cache: seq<T>, s: nat, e: nat, v: T)
    requires s <= e <= |cache|
    ensures Occurs(cache, s, e, v) <==> v in cache[s..e]
  {
    if Occurs(cache, s, e, v) {
      var d :| s <= d < e && cache[d] == v;
      assert cache[s..e][d - s] == v;
    }
  }

  lemma EmptyMask(p0: Word, p1: Word, v: T)
    ensures BitsOf(p0, p1, NO_BITS, v) == NO_BITS
  {}

  /** The folds over a range, read off which values occur in it. */
  lemma RangeFolds(cache: seq<T>, s: nat, e: nat)
    requires s <= e <= |cache|
    ensures MeetAll(cache[s..e]) == if Occurs(cache, s, e, Neg) then Neg else if Occurs(cache, s, e, Zero) then Zero else Pos
    ensures JoinAny(cache[s..e]) == if Occurs(cache, s, e, Pos) then Pos else if Occurs(cache, s, e, Zero) then Zero else Neg
  {
    FoldsCharacterised(cache[s..e]);
    OccursInSlice(cache, s, e, Neg);
    OccursInSlice(cache, s, e, Zero);
    OccursInSlice(cache, s, e, Pos);
  }

  class ValueStore {
    var cache: seq<T>
    var idx: map<Uid, nat>
    var planeP0: seq<Word>
    var planeP1: seq<Word>

    ghost function View(): Store
      reads this
    {
      Store(cache, idx, planeP0, planeP1)
    }

    constructor ()
      ensures View() == EMPTY_STORE
    {
      cache, idx, planeP0, planeP1 := [], map[], [], [];
    }

    method Alloc(id: Uid) returns (dense: nat)
      requires View().Valid()
      modifies this
      ensures View() == old(View()).Alloc(id) && View().Valid()
      ensures dense == View().idx[id] && View().Get(id) == Neg
    {
      AllocValid(View(), id);
      dense := |cache|;
      cache := cache + [Neg];
      idx := idx[id := dense];
      var neededWords := Words(|cache|);
      while |planeP0| < neededWords
        invariant cache == old(cache) + [Neg] && idx == old(idx)[id := dense]
        invariant |planeP0| == |planeP1| <= neededWords
        invariant || (planeP0 == old(planeP0) && planeP1 == old(planeP1))
                  || (planeP0 == old(planeP0) + [NO_BITS] && planeP1 == old(planeP1) + [NO_BITS])
      {
        planeP0 := planeP0 + [NO_BITS];
        planeP1 := planeP1 + [NO_BITS];
      }
    }

    method SetByDense(d: nat, val: T)
      requires View().Valid() && d < |cache|
      modifies this
      ensures View() == old(View()).SetByDense(d, val) && View().Valid()
    {
      SetByDenseValid(View(), d, val);
      if val == Pos {
        planeP0 := SetBit(planeP0, d);
      } else {
        planeP0 := ClearBit(planeP0, d);
      }
      if val == Zero {
        planeP1 := SetBit(planeP1, d);
      } else {
        planeP1 := ClearBit(planeP1, d);
      }
      cache := cache[d := val];
    }

    method Set(id: Uid, val: T)
      requires View().Valid()
      modifies this
      ensures View() == old(View()).Set(id, val) && View().Valid()
    {
      if id in idx { SetByDense(idx[id], val); }
    }

    /** Tombstone: the slot reads Neg again and its index entry stays. */
    method Dealloc(id: Uid)
      requires View().Valid()
      modifies this
      ensures View() == old(View()).Set(id, Neg) && View().Valid()
    {
      if id in idx { SetByDense(idx[id], Neg); }
    }

    /** `meet_all_range`: the word loop over the planes computes the meet of the slots it covers. */
    method MeetAllRange(start: nat, len: nat) returns (r: T)
      requires View().Valid() && start + len <= |cache|
      ensures r == MeetAll(cache[start..start + len])
    {
      var s, e := start, start + len;
      RangeFolds(cache, s, e);
      if len == 0 { return Pos; }
      var w0, w1 := s / 64, (e + 63) / 64;
      var hasZero := false;
      var w := w0;
      while w < w1 && w < |planeP0|
        invariant w0 <= w <= w1
        invariant !Occurs(cache, s, AtMost(e, w * 64), Neg)
        invariant hasZero <==> Occurs(cache, s, AtMost(e, w * 64), Zero)
      {
        PlaneScan(View(), s, e, w, Neg);
        PlaneScan(View(), s, e, w, Zero);
        var mask := RangeMask(s, e, w);
        if mask == NO_BITS {
          EmptyMask(planeP0[w], planeP1[w], Neg);
          EmptyMask(planeP0[w], planeP1[w], Zero);
        } else if NegBits(planeP0[w], planeP1[w], mask) != NO_BITS {
          assert Occurs(cache, s, e, Neg);
          return Neg;
        } else if ZeroBits(planeP0[w], planeP1[w], mask) != NO_BITS {
          hasZero := true;
        }
        w := w + 1;
      }
      r := if hasZero then Zero else Pos;
    }

    /** `join_any_range`: the word loop over the planes computes the join of the slots it covers. */
    method JoinAnyRange(start: nat, len: nat) returns (r: T)
      requires View().Valid() && start + len <= |cache|
      ensures r == JoinAny(cache[start..start + len])
    {
      var s, e := start, start + len;
      RangeFolds(cache, s, e);
      if len == 0 { return Neg; }
      var w0, w1 := s / 64, (e + 63) / 64;
      var hasZero := false;
      var w := w0;
      while w < w1 && w < |planeP0|
        invariant w0 <= w <= w1
        invariant !Occurs(cache, s, AtMost(e, w * 64), Pos)
        invariant hasZero <==> Occurs(cache, s, AtMost(e, w * 64), Zero)
      {
        PlaneScan(View(), s, e, w, Pos);
        PlaneScan(View(), s, e, w, Zero);
        var mask := RangeMask(s, e, w);
        if mask == NO_BITS {
          EmptyMask(planeP0[w], planeP1[w], Pos);
          EmptyMask(planeP0[w], planeP1[w], Zero);
        } else if PosBits(planeP0[w], planeP1[w], mask) != NO_BITS {
          assert Occurs(cache, s, e, Pos);
          return Pos;
        } else if ZeroBits(planeP0[w], planeP1[w], mask) != NO_BITS {
          hasZero := true;
        }
        w := w + 1;
      }
      r := if hasZero then Zero else Neg;
    }
  }
}
