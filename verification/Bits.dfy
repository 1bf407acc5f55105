/** Unsigned 64-bit words and bit planes: the word-level arithmetic behind `plane_p0`,
    `plane_p1`, `dirty_slots`, `compiled_handled` and the `pending` row set.  A word is its
    64 bits, least significant first. */
module Bits {

  const WORD := 64

  type Word = w: seq<bool> | |w| == 64 witness seq(64, i => false)

  function Repeat(b: bool): (w: Word)
    ensures forall i :: 0 <= i < 64 ==> w[i] == b
  {
    seq(64, i => b)
  }

  const NO_BITS: Word := Repeat(false)
  const ALL_ONES: Word := Repeat(true)
  const ONE: Word := NO_BITS[0 := true]

  function And(a: Word, b: Word): Word { seq(64, i requires 0 <= i < 64 => a[i] && b[i]) }
  function Or(a: Word, b: Word): Word { seq(64, i requires 0 <= i < 64 => a[i] || b[i]) }
  function Not(a: Word): Word { seq(64, i requires 0 <= i < 64 => !a[i]) }

  /** `w << k`: bits move up, zeros move in, bits past position 63 are lost. */
  function Shl(w: Word, k: nat): Word { seq(64, i requires 0 <= i < 64 => i >= k && w[i - k]) }

  /** No bit of w below position i is set. */
  predicate ClearBelow(w: Word, i: nat)
    requires i <= 64
  {
    forall j :: 0 <= j < i ==> !w[j]
  }

  /** `w - 1` with its borrow: the lowest set bit and everything below it flip. */
  function Dec(w: Word): Word {
    seq(64, i requires 0 <= i < 64 => w[i] != ClearBelow(w, i))
  }

  /** `1u64 << k` */
  function Mask(k: nat): Word { Shl(ONE, k) }

  // ---- words as numbers: the borrow above is subtraction ---------------------------

  function Number(bits: seq<bool>): nat {
    if bits == [] then 0 else (if bits[0] then 1 else 0) + 2 * Number(bits[1..])
  }

  lemma {:induction false} BorrowSubtracts(bits: seq<bool>, less: seq<bool>)
    requires |bits| == |less|
    requires forall i :: 0 <= i < |bits| ==>
      less[i] == if forall j :: 0 <= j < i ==> !bits[j] then !bits[i] else bits[i]
    ensures true in bits ==> Number(less) == Number(bits) - 1
    ensures true !in bits ==> forall i :: 0 <= i < |less| ==> less[i]
  {
    if bits != [] {
      if bits[0] {
        assert forall i :: 1 <= i < |bits| ==> less[i] == bits[i];
        assert less[1..] == bits[1..];
      } else {
        forall i | 0 <= i < |bits[1..]|
          ensures less[1..][i] == if forall j :: 0 <= j < i ==> !bits[1..][j] then !bits[1..][i] else bits[1..][i]
        {
          assert less[1..][i] == less[i + 1] && bits[1..][i] == bits[i + 1];
          if forall j :: 0 <= j < i ==> !bits[1..][j] {
            assert forall j :: 0 <= j < i + 1 ==> !bits[j] by {
              forall j | 0 < j < i + 1 ensures !bits[j] { assert bits[1..][j - 1] == bits[j]; }
            }
          } else {
            var j :| 0 <= j < i && bits[1..][j];
            assert bits[j + 1];
          }
        }
        BorrowSubtracts(bits[1..], less[1..]);
        assert true in bits <==> true in bits[1..];
      }
    }
  }

  /** `Dec` is subtraction of one on every word but zero, where it wraps to all ones. */
  lemma DecSubtractsOne(w: Word)
    ensures w != NO_BITS ==> Number(Dec(w)) == Number(w) - 1
    ensures Dec(NO_BITS) == ALL_ONES
  {
    BorrowSubtracts(w, Dec(w));
    if w != NO_BITS {
      assert exists i :: 0 <= i < 64 && w[i];
    }
  }

  // ---- lowest set bit: `trailing_zeros` and Kernighan's `w & (w - 1)` ----------------

  /** `w.trailing_zeros()` for a nonzero word. */
  method TrailingZeros(w: Word) returns (k: nat)
    requires w != NO_BITS
    ensures k < WORD && w[k] && ClearBelow(w, k)
  {
    k := 0;
    while k < WORD && !w[k]
      invariant k <= WORD && ClearBelow(w, k)
    {
      k := k + 1;
    }
  }

  /** `w & (w - 1)` clears the lowest set bit and no other. */
  lemma ClearLowest(w: Word, k: nat)
    requires k < WORD && w[k] && ClearBelow(w, k)
    ensures And(w, Dec(w)) == w[k := false]
  {
    forall i | 0 <= i < 64 ensures And(w, Dec(w))[i] == w[k := false][i] {
      if i > k { assert !ClearBelow(w, i); }
    }
  }

  // ---- planes: sequences of words ---------------------------------------------------

  /** Number of words that hold n bits. */
  function Words(n: nat): nat { (n + 63) / 64 }

  predicate Test(ws: seq<Word>, i: nat) {
    i / WORD < |ws| && ws[i / WORD][i % WORD]
  }

  /** `ws[i / 64] |= 1 << (i % 64)` */
  function SetBit(ws: seq<Word>, i: nat): seq<Word>
    requires i / WORD < |ws|
  {
    ws[i / WORD := Or(ws[i / WORD], Mask(i % WORD))]
  }

  /** `ws[i / 64] &= !(1 << (i % 64))` */
  function ClearBit(ws: seq<Word>, i: nat): seq<Word>
    requires i / WORD < |ws|
  {
    ws[i / WORD := And(ws[i / WORD], Not(Mask(i % WORD)))]
  }

  /** The source guards some writes with `word < len`; out of range they do nothing. */
  function SetBitGuarded(ws: seq<Word>, i: nat): seq<Word> {
    if i / WORD < |ws| then SetBit(ws, i) else ws
  }

  lemma TestSet(ws: seq<Word>, i: nat, j: nat)
    requires i / WORD < |ws|
    ensures Test(SetBit(ws, i), j) <==> j == i || Test(ws, j)
  {}

  lemma TestClear(ws: seq<Word>, i: nat, j: nat)
    requires i / WORD < |ws|
    ensures Test(ClearBit(ws, i), j) <==> j != i && Test(ws, j)
  {}
}
