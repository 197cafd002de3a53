/**
 Fixed-width little-endian integers and variable-length integers, as the log's
 buffers read and write them.
 */
module Encoding {
  import opened Prelude

  const TWO16: nat := 0x1_0000
  const TWO32: nat := 0x1_0000_0000
  const TWO63: int := 0x8000_0000_0000_0000
  const TWO64: nat := 0x1_0000_0000_0000_0000

  predicate IsInt64(v: int) {
    -TWO63 <= v < TWO63
  }

  /** The bits of a signed 64-bit integer read as an unsigned one. */
  function ToUint64(v: int): (u: nat)
    requires IsInt64(v)
    ensures u < TWO64
  {
    if v < 0 then v + TWO64 else v
  }

  function FromUint64(u: nat): (v: int)
    requires u < TWO64
    ensures IsInt64(v) && ToUint64(v) == u
  {
    if u < TWO63 then u else u - TWO64
  }

  // ---------------------------------------------------------------------------
  // Fixed width

  function Pow256(n: nat): (p: nat)
    ensures 0 < p
  {
    if n == 0 then 1 else 256 * Pow256(n - 1)
  }

  lemma Widths()
    ensures Pow256(1) == 256 && Pow256(2) == TWO16 && Pow256(4) == TWO32 && Pow256(8) == TWO64
  {
    assert Pow256(3) == 256 * TWO16 && Pow256(5) == 256 * Pow256(4) && Pow256(7) == 256 * Pow256(6);
  }

  /** The n low bytes of v, least significant first. */
  function PutFixed(v: nat, n: nat): (s: Bytes)
    ensures |s| == n
  {
    if n == 0 then [] else [v % 256] + PutFixed(v / 256, n - 1)
  }

  function GetFixed(s: Bytes): (v: nat)
    ensures v < Pow256(|s|)
  {
    if s == [] then 0 else s[0] + 256 * GetFixed(s[1..])
  }

  /** Reading back gives the value, when it fits the width. */
  lemma {:induction false} GetPutFixed(v: nat, n: nat)
    requires v < Pow256(n)
    ensures GetFixed(PutFixed(v, n)) == v
  {
    if n > 0 {
      GetPutFixed(v / 256, n - 1);
      assert PutFixed(v, n)[1..] == PutFixed(v / 256, n - 1);
    }
  }

  /** A 16-bit field keeps the value modulo 65536. */
  lemma GetPutFixed16(v: nat)
    ensures GetFixed(PutFixed(v, 2)) == v % TWO16
  {
    var low := PutFixed(v / 256, 1);
    assert low == [v / 256 % 256] && PutFixed(v, 2)[1..] == low && low[1..] == [];
    assert GetFixed(low) == v / 256 % 256;
  }

  /** These bytes stand at this position. */
  ghost predicate At(s: Bytes, p: nat, piece: Bytes) {
    p + |piece| <= |s| && forall i | 0 <= i < |piece| :: piece[i] == s[p + i]
  }

  lemma AtSplit(s: Bytes, p: nat, a: Bytes, b: Bytes)
    requires At(s, p, a + b)
    ensures At(s, p, a) && At(s, p + |a|, b)
  {
    forall i | 0 <= i < |a| ensures a[i] == s[p + i] {
      assert (a + b)[i] == a[i];
    }
    forall i | 0 <= i < |b| ensures b[i] == s[p + |a| + i] {
      assert (a + b)[|a| + i] == b[i];
    }
  }

  lemma AtSlice(s: Bytes, p: nat, piece: Bytes)
    requires At(s, p, piece)
    ensures s[p..p + |piece|] == piece
  {
  }

  lemma AtWhole(s: Bytes)
    ensures At(s, 0, s)
  {
  }

  /** The n-byte integer at this position. */
  function Field(s: Bytes, p: nat, n: nat): (v: nat)
    requires p + n <= |s|
    ensures v < Pow256(n)
  {
    GetFixed(s[p..p + n])
  }

  lemma FieldAt(s: Bytes, p: nat, v: nat, n: nat)
    requires v < Pow256(n) && At(s, p, PutFixed(v, n))
    ensures Field(s, p, n) == v
  {
    AtSlice(s, p, PutFixed(v, n));
    GetPutFixed(v, n);
  }

  // ---------------------------------------------------------------------------
  // Variable width

  const MAX_VARINT_LEN: nat := 10

  /** Seven bits a byte, least significant group first, the high bit set on all but the last. */
  function PutUvarint(v: nat): (s: Bytes)
    ensures 0 < |s|
  {
    if v < 128 then [v] else [128 + v % 128] + PutUvarint(v / 128)
  }

  datatype Scanned = Value(value: nat, length: nat) | Incomplete | Overflow

  /** What is left of the value after i groups have been read fits in the remaining bits of 64. */
  function Cap(i: nat): nat
    requires i < MAX_VARINT_LEN
  {
    match i
    case 0 => TWO64
    case 1 => 0x200_0000_0000_0000
    case 2 => 0x4_0000_0000_0000
    case 3 => 0x800_0000_0000
    case 4 => 0x10_0000_0000
    case 5 => 0x2000_0000
    case 6 => 0x40_0000
    case 7 => 0x8000
    case 8 => 0x100
    case 9 => 2
  }

  lemma CapNext(i: nat, v: nat)
    requires i < MAX_VARINT_LEN && 128 <= v < Cap(i)
    ensures i + 1 < MAX_VARINT_LEN && v / 128 < Cap(i + 1)
  {
  }

  /** Reads from the i-th byte of an integer that starts at p; the tenth may only carry the last bit of 64. */
  function GetUvarintFrom(s: Bytes, p: nat, i: nat): (r: Scanned)
    requires p + i <= |s| && i <= MAX_VARINT_LEN
    ensures r.Value? ==> i < r.length && p + r.length <= |s| && i < MAX_VARINT_LEN && r.value < Cap(i)
    decreases |s| - i
  {
    if p + i == |s| then Incomplete
    else if i == MAX_VARINT_LEN then Overflow
    else
      var b := s[p + i];
      if b < 128 then (if i == MAX_VARINT_LEN - 1 && b > 1 then Overflow else Value(b, i + 1))
      else
        match GetUvarintFrom(s, p, i + 1)
        case Value(v, n) => Value(b - 128 + 128 * v, n)
        case other => other
  }

  function GetUvarint(s: Bytes, p: nat): (r: Scanned)
    requires p <= |s|
    ensures r.Value? ==> 0 < r.length && p + r.length <= |s| && r.value < TWO64
  {
    GetUvarintFrom(s, p, 0)
  }

  lemma {:induction false} GetPutUvarintFrom(s: Bytes, p: nat, i: nat, v: nat)
    requires i < MAX_VARINT_LEN && v < Cap(i) && At(s, p + i, PutUvarint(v))
    ensures GetUvarintFrom(s, p, i) == Value(v, i + |PutUvarint(v)|)
    decreases v
  {
    assert PutUvarint(v)[0] == s[p + i];
    if v >= 128 {
      AtSplit(s, p + i, [128 + v % 128], PutUvarint(v / 128));
      GetPutUvarintFrom(s, p, i + 1, v / 128);
    }
  }

  /** Reading a variable-length integer gives back what was written, and stops exactly behind it. */
  lemma GetPutUvarint(s: Bytes, p: nat, v: nat)
    requires v < TWO64 && At(s, p, PutUvarint(v))
    ensures GetUvarint(s, p) == Value(v, |PutUvarint(v)|)
  {
    GetPutUvarintFrom(s, p, 0, v);
  }

  /** Signed integers interleave: 0, -1, 1, -2, 2, ... */
  function ZigZag(v: int): (u: nat)
    ensures IsInt64(v) ==> u < TWO64
  {
    if v < 0 then -2 * v - 1 else 2 * v
  }

  function UnZigZag(u: nat): (v: int)
    ensures ZigZag(v) == u
    ensures u < TWO64 ==> IsInt64(v)
  {
    if u % 2 == 0 then u / 2 else -(u / 2) - 1
  }

  function PutVarint(v: int): Bytes {
    PutUvarint(ZigZag(v))
  }

  // ---------------------------------------------------------------------------
  // Sizes without encoding

  /** The loop of UvarintSize counts the bytes PutUvarint writes. */
  method UvarintSize(v: nat) returns (size: nat)
    ensures size == |PutUvarint(v)|
  {
    size := 1;
    var left := v;
    while left >= 128
      invariant size + |PutUvarint(left)| == |PutUvarint(v)| + 1
    {
      left := left / 128;
      size := size + 1;
    }
  }

  lemma {:induction false} UvarintMonotone(v: nat, w: nat)
    requires v <= w
    ensures |PutUvarint(v)| <= |PutUvarint(w)|
  {
    if v >= 128 {
      UvarintMonotone(v / 128, w / 128);
    }
  }

  /** A length written as a signed varint takes at most one byte more than as an unsigned one. */
  lemma {:induction false} SignedLengthSize(n: nat)
    ensures |PutUvarint(n)| <= |PutVarint(n)| <= |PutUvarint(n)| + 1
  {
    UvarintMonotone(n, 2 * n);
    if n < 128 {
      assert PutUvarint(2 * n / 128) == [2 * n / 128];
    } else {
      SignedLengthSize(n / 128);
      assert 2 * n / 128 == 2 * (n / 128) || 2 * n / 128 == 2 * (n / 128) + 1;
      SameSizeNext(2 * (n / 128));
    }
  }

  /** An even number and its successor take the same number of bytes. */
  lemma {:induction false} SameSizeNext(e: nat)
    requires e % 2 == 0
    ensures |PutUvarint(e)| == |PutUvarint(e + 1)|
  {
    if e >= 128 {
      assert e / 128 == (e + 1) / 128;
    }
  }
}
