/** Little-endian integers, text order and UTF-8 validity: what the wire format is made of. */
module WireBytes {
  import opened Base
  import opened Isa

  const U16 := 0x1_0000
  const U32 := 0x1_0000_0000
  const U64 := 0x1_0000_0000_0000_0000
  const I64_LIMIT := 0x8000_0000_0000_0000

  // ---- little-endian integers ---------------------------------------------------------

  function Pow256(n: nat): (p: nat)
    ensures p > 0
  {
    if n == 0 then 1 else 256 * Pow256(n - 1)
  }

  lemma Widths()
    ensures Pow256(1) == 256 && Pow256(2) == U16 && Pow256(4) == U32 && Pow256(8) == U64
  {
    assert Pow256(2) == 256 * Pow256(1);
    assert Pow256(3) == 256 * Pow256(2);
    assert Pow256(4) == 256 * Pow256(3);
    assert Pow256(5) == 256 * Pow256(4);
    assert Pow256(6) == 256 * Pow256(5);
    assert Pow256(7) == 256 * Pow256(6);
  }

  /** `to_le_bytes` of the low n bytes; a negative number is written in two's complement. */
  function LE(n: nat, x: int): (b: seq<Byte>)
    ensures |b| == n
  {
    if n == 0 then [] else [x % 256] + LE(n - 1, x / 256)
  }

  /** `from_le_bytes` */
  function FromLE(b: seq<Byte>): nat {
    if b == [] then 0 else b[0] + 256 * FromLE(b[1..])
  }

  lemma {:induction false} MultipleGrows(m: nat, k: nat)
    ensures m * k >= 0 && m * (k + 1) == m * k + m
    decreases k
  {
    if k > 0 { MultipleGrows(m, k - 1); }
  }

  lemma SmallMultiple(m: nat, d: int)
    requires 0 - m < m * d < m
    ensures d == 0
  {
    if d > 0 { MultipleGrows(m, d - 1); }
  }

  lemma ModUnique(x: int, m: nat, a: int, c: nat)
    requires m > 0 && x == m * a + c && c < m
    ensures x % m == c
  {
    var q, r := x / m, x % m;
    assert x == m * q + r && 0 <= r < m;
    assert m * (q - a) == m * q - m * a;
    SmallMultiple(m, q - a);
  }

  /** Reading back what was written gives the number's residue. */
  lemma {:induction false} ReadBack(n: nat, x: int)
    ensures FromLE(LE(n, x)) == x % Pow256(n)
    decreases n
  {
    if n > 0 {
      ReadBack(n - 1, x / 256);
      var p := Pow256(n - 1);
      var a, b := x / 256 / p, x / 256 % p;
      assert LE(n, x)[1..] == LE(n - 1, x / 256);
      assert x == 256 * (p * a + b) + x % 256;
      assert 256 * (p * a) == 256 * p * a;
      ModUnique(x, 256 * p, a, 256 * b + x % 256);
    }
  }

  lemma {:induction false} FromLEBound(b: seq<Byte>)
    ensures FromLE(b) < Pow256(|b|)
    decreases |b|
  {
    if b != [] { FromLEBound(b[1..]); }
  }

  /** Reading and writing back gives the bytes. */
  lemma {:induction false} WriteBack(b: seq<Byte>)
    ensures LE(|b|, FromLE(b)) == b
    decreases |b|
  {
    if b != [] { WriteBack(b[1..]); }
  }

  /** `as i64` */
  function Signed64(x: nat): int
    requires x < U64
  {
    if x < I64_LIMIT then x else x - U64
  }

  /** `as i8` */
  function Signed8(x: Byte): int { if x < 128 then x else x - 256 }

  /** Any NaN pattern (section 3.4 of IEEE 754-2008) becomes the quiet NaN; others stay. */
  function CanonicalFloat(bits: nat): (canonical: nat)
    requires bits < U64
    ensures canonical < U64
  {
    if bits / 0x10_0000_0000_0000 % 0x800 == 0x7FF && bits % 0x10_0000_0000_0000 != 0 then 0x7FF8_0000_0000_0000 else bits
  }

  lemma CanonicalTwice(bits: nat)
    requires bits < U64
    ensures CanonicalFloat(CanonicalFloat(bits)) == CanonicalFloat(bits)
  {}

  // ---- UTF-8 --------------------------------------------------------------------------

  predicate Between(b: Byte, lo: Byte, hi: Byte) { lo <= b <= hi }

  predicate Tail(b: Byte) { 0x80 <= b <= 0xBF }

  /** The length of the well-formed character at the front (section 4 of RFC 3629), 0 if none. */
  function CharLength(s: Text): (n: nat)
    requires s != []
    ensures n <= |s|
  {
    var c := s[0];
    if c < 0x80 then 1
    else if |s| >= 2 && 0xC2 <= c <= 0xDF && Tail(s[1]) then 2
    else if |s| >= 3 && 0xE0 <= c <= 0xEF && Tail(s[1]) && Tail(s[2])
            && (c == 0xE0 ==> s[1] >= 0xA0) && (c == 0xED ==> s[1] <= 0x9F) then 3
    else if |s| >= 4 && 0xF0 <= c <= 0xF4 && Tail(s[1]) && Tail(s[2]) && Tail(s[3])
            && (c == 0xF0 ==> s[1] >= 0x90) && (c == 0xF4 ==> s[1] <= 0x8F) then 4
    else 0
  }

  predicate Utf8(s: Text)
    decreases |s|
  {
    s == [] || (CharLength(s) > 0 && Utf8(s[CharLength(s)..]))
  }

  // ---- the order of keys ----------------------------------------------------------------

  /** Lexicographic order on bytes. */
  predicate Before(a: Text, b: Text) {
    b != [] && (a == [] || a[0] < b[0] || (a[0] == b[0] && Before(a[1..], b[1..])))
  }

  lemma {:induction false} BeforeTotal(a: Text, b: Text)
    ensures !(Before(a, b) && Before(b, a))
    ensures Before(a, b) || a == b || Before(b, a)
    decreases |a| + |b|
  {
    if a != [] && b != [] && a[0] == b[0] {
      BeforeTotal(a[1..], b[1..]);
      if a[1..] == b[1..] { assert a == [a[0]] + a[1..] && b == [b[0]] + b[1..]; }
    }
  }

  lemma {:induction false} BeforeTransitive(a: Text, b: Text, c: Text)
    requires Before(a, b) && Before(b, c)
    ensures Before(a, c)
    decreases |a|
  {
    if a != [] && a[0] == b[0] && b[0] == c[0] { BeforeTransitive(a[1..], b[1..], c[1..]); }
  }

  predicate IsFirst(m: Text, s: set<Text>) {
    m in s && forall t :: t in s && t != m ==> Before(m, t)
  }

  lemma FirstExists(s: set<Text>)
    requires s != {}
    ensures exists m :: IsFirst(m, s)
    decreases |s|
  {
    var m :| m in s;
    var rest := s - {m};
    if rest == {} {
      assert s == {m};
      assert IsFirst(m, s);
    } else {
      FirstExists(rest);
      var r :| IsFirst(r, rest);
      BeforeTotal(m, r);
      if Before(r, m) {
        assert IsFirst(r, s);
      } else {
        forall t | t in s && t != m ensures Before(m, t) {
          if t != r { BeforeTransitive(m, r, t); }
        }
        assert IsFirst(m, s);
      }
    }
  }

  lemma FirstUnique(a: Text, b: Text, s: set<Text>)
    requires IsFirst(a, s) && IsFirst(b, s)
    ensures a == b
  {
    BeforeTotal(a, b);
  }

  function First(s: set<Text>): (m: Text)
    requires s != {}
    ensures IsFirst(m, s)
  {
    FirstExists(s);
    assert forall a, b :: IsFirst(a, s) && IsFirst(b, s) ==> a == b by {
      forall a, b | IsFirst(a, s) && IsFirst(b, s) ensures a == b { FirstUnique(a, b, s); }
    }
    var m: Text :| IsFirst(m, s);
    m
  }

  /** The keys in lexicographic order (`sort_unstable_by_key`). */
  function Sorted(s: set<Text>): (q: seq<Text>)
    decreases |s|
  {
    if s == {} then [] else [First(s)] + Sorted(s - {First(s)})
  }

  lemma {:induction false} SortedElements(s: set<Text>)
    ensures |Sorted(s)| == |s| && forall t :: t in Sorted(s) <==> t in s
    decreases |s|
  {
    if s != {} {
      var m := First(s);
      SortedElements(s - {m});
      assert s == s - {m} + {m};
      assert Sorted(s) == [m] + Sorted(s - {m});
    }
  }

  lemma {:induction false} SortedAscending(s: set<Text>)
    ensures forall i, j :: 0 <= i < j < |Sorted(s)| ==> Before(Sorted(s)[i], Sorted(s)[j])
    decreases |s|
  {
    if s != {} {
      var m := First(s);
      var rest := Sorted(s - {m});
      SortedAscending(s - {m});
      SortedElements(s - {m});
      assert Sorted(s) == [m] + rest;
      forall j | 0 <= j < |rest| ensures Before(m, rest[j]) { assert rest[j] in rest; }
    }
  }
}
