/**
 * `PartitionKeyGenerator.Generate`: encode the value as UTF-16 little-endian
 * bytes, digest them into 16 bytes, read two overlapping little-endian 64-bit
 * windows (at offsets 0 and 7) and XOR them as signed longs. The digest
 * algorithm is a parameter: any fixed function onto 16 bytes.
 */
module Sharding {

  type Byte = x: int | 0 <= x < 0x100

  /** A UTF-16 code unit. */
  type CodeUnit = x: int | 0 <= x < 0x1_0000

  /** A 16-byte message digest. */
  type Digest = d: seq<Byte> | |d| == 16 witness seq(16, i => 0)

  /** The values of a C# `long`. */
  type Int64 = x: int | -0x8000_0000_0000_0000 <= x < 0x8000_0000_0000_0000

  const TwoTo63 := 0x8000_0000_0000_0000
  const TwoTo64 := 0x1_0000_0000_0000_0000

  /** Bitwise XOR of two bytes. */
  function XorByte(a: Byte, b: Byte): Byte
  {
    ((a as bv8) ^ (b as bv8)) as int
  }

  // ----- Encoding.Unicode.GetBytes ------------------------------------------

  /**
   * The UTF-16 code units of one character: the character itself below
   * U+10000 (never a surrogate there), a high/low surrogate pair above, which
   * together carry its value.
   */
  function CodeUnits(c: char): (units: seq<CodeUnit>)
    ensures c as int < 0x1_0000 ==>
      && units == [c as int]
      && !IsHighSurrogate(units[0]) && !IsLowSurrogate(units[0])
    ensures c as int >= 0x1_0000 ==>
      && |units| == 2
      && IsHighSurrogate(units[0]) && IsLowSurrogate(units[1])
      && 0x1_0000 + (units[0] as int - 0xD800) * 0x400 + (units[1] as int - 0xDC00) == c as int
  {
    if c as int < 0x1_0000 then [c as int]
    else
      var v := c as int - 0x1_0000;
      [0xD800 + v / 0x400, 0xDC00 + v % 0x400]
  }

  /** The UTF-16 code units of a string, in order. */
  function Utf16(s: string): (units: seq<CodeUnit>)
    ensures |s| <= |units| <= 2 * |s|
  {
    if s == [] then [] else CodeUnits(s[0]) + Utf16(s[1..])
  }

  /** Each code unit written as two bytes, low byte first. */
  function LittleEndianBytes(units: seq<CodeUnit>): (bytes: seq<Byte>)
    ensures |bytes| == 2 * |units|
    ensures forall i :: 0 <= i < |units| ==>
      bytes[2 * i] == units[i] % 0x100 && bytes[2 * i + 1] == units[i] / 0x100
  {
    if units == [] then []
    else
      var rest := LittleEndianBytes(units[1..]);
      var bytes := [units[0] % 0x100, units[0] / 0x100] + rest;
      assert forall i :: 1 <= i < |units| ==>
        bytes[2 * i] == rest[2 * (i - 1)] && bytes[2 * i + 1] == rest[2 * (i - 1) + 1];
      bytes
  }

  /** `Encoding.Unicode.GetBytes`: UTF-16 little-endian, each code unit as its low byte then its high byte. */
  function GetBytes(value: string): (bytes: seq<Byte>)
    ensures |bytes| == 2 * |Utf16(value)|
    ensures forall i :: 0 <= i < |Utf16(value)| ==> bytes[2 * i] as int + 0x100 * (bytes[2 * i + 1] as int) == Utf16(value)[i]
  {
    LittleEndianBytes(Utf16(value))
  }

  /** Reads pairs of bytes, low byte first, back into code units. */
  function FromLittleEndian(bytes: seq<Byte>): seq<CodeUnit>
    requires |bytes| % 2 == 0
  {
    if bytes == [] then [] else [bytes[0] as int + 0x100 * bytes[1] as int] + FromLittleEndian(bytes[2..])
  }

  predicate IsHighSurrogate(u: CodeUnit) { 0xD800 <= u < 0xDC00 }
  predicate IsLowSurrogate(u: CodeUnit) { 0xDC00 <= u < 0xE000 }

  /** Decodes UTF-16 code units, pairing surrogates; a lone surrogate reads as U+FFFD. */
  function FromUtf16(units: seq<CodeUnit>): string
  {
    if units == [] then []
    else if |units| >= 2 && IsHighSurrogate(units[0]) && IsLowSurrogate(units[1]) then
      var c: int := 0x1_0000 + (units[0] as int - 0xD800) * 0x400 + (units[1] as int - 0xDC00);
      [c as char] + FromUtf16(units[2..])
    else if IsHighSurrogate(units[0]) || IsLowSurrogate(units[0]) then
      [0xFFFD as char] + FromUtf16(units[1..])
    else
      [units[0] as char] + FromUtf16(units[1..])
  }

  lemma {:induction false} LittleEndianRoundTrip(units: seq<CodeUnit>)
    ensures FromLittleEndian(LittleEndianBytes(units)) == units
  {
    if units != [] {
      var bytes := LittleEndianBytes(units);
      assert bytes[2..] == LittleEndianBytes(units[1..]);
      LittleEndianRoundTrip(units[1..]);
    }
  }

  lemma CodeUnitsDecode(c: char, rest: seq<CodeUnit>)
    ensures FromUtf16(CodeUnits(c) + rest) == [c] + FromUtf16(rest)
  {
    var units := CodeUnits(c) + rest;
    if c as int < 0x1_0000 {
      assert units[1..] == rest;
    } else {
      assert units[2..] == rest;
    }
  }

  lemma {:induction false} Utf16RoundTrip(s: string)
    ensures FromUtf16(Utf16(s)) == s
  {
    if s != [] {
      CodeUnitsDecode(s[0], Utf16(s[1..]));
      Utf16RoundTrip(s[1..]);
    }
  }

  lemma {:induction false} Utf16OfNarrow(s: string)
    requires forall i :: 0 <= i < |s| ==> s[i] as int < 0x1_0000
    ensures |Utf16(s)| == |s|
  {
    if s != [] {
      Utf16OfNarrow(s[1..]);
    }
  }

  /**
   * The encoding is UTF-16 little-endian: two bytes per code unit, one code
   * unit per character below U+10000, and the bytes decode back to the string.
   */
  lemma GetBytesEncoding(value: string)
    ensures |GetBytes(value)| == 2 * |Utf16(value)|
    ensures (forall i :: 0 <= i < |value| ==> value[i] as int < 0x1_0000) ==> |GetBytes(value)| == 2 * |value|
    ensures FromUtf16(FromLittleEndian(GetBytes(value))) == value
  {
    LittleEndianRoundTrip(Utf16(value));
    Utf16RoundTrip(value);
    if forall i :: 0 <= i < |value| ==> value[i] as int < 0x1_0000 {
      Utf16OfNarrow(value);
    }
  }

  // ----- BitConverter.ToInt64 ----------------------------------------------

  function Pow256(n: nat): (p: nat)
    ensures p >= 1
  {
    if n == 0 then 1 else 0x100 * Pow256(n - 1)
  }

  lemma Pow256Eight()
    ensures Pow256(7) == 0x100_0000_0000_0000
    ensures Pow256(8) == TwoTo64
  {
    assert Pow256(2) == 0x1_0000;
    assert Pow256(4) == 0x1_0000_0000;
    assert Pow256(6) == 0x1_0000_0000_0000;
  }

  /** The unsigned value of bytes read little-endian. */
  function Unsigned(b: seq<Byte>): (u: nat)
    ensures u < Pow256(|b|)
  {
    if b == [] then 0 else b[0] + 0x100 * Unsigned(b[1..])
  }

  /** The `n` little-endian bytes of `u`, modulo 256^n. */
  function LowBytes(u: nat, n: nat): (b: seq<Byte>)
    ensures |b| == n
  {
    if n == 0 then [] else [u % 0x100] + LowBytes(u / 0x100, n - 1)
  }

  lemma {:induction false} LowBytesUnsigned(b: seq<Byte>)
    ensures LowBytes(Unsigned(b), |b|) == b
  {
    if b != [] {
      var u := Unsigned(b);
      assert u % 0x100 == b[0] && u / 0x100 == Unsigned(b[1..]);
      LowBytesUnsigned(b[1..]);
    }
  }

  lemma {:induction false} UnsignedLowBytes(u: nat, n: nat)
    requires u < Pow256(n)
    ensures Unsigned(LowBytes(u, n)) == u
  {
    if n > 0 {
      var b := LowBytes(u, n);
      assert b[1..] == LowBytes(u / 0x100, n - 1);
      UnsignedLowBytes(u / 0x100, n - 1);
    }
  }

  /** `BitConverter.ToInt64` on eight bytes: little-endian two's complement. */
  function FromBytes(b: seq<Byte>): (x: Int64)
    requires |b| == 8
    ensures x >= 0 ==> x == Unsigned(b)
    ensures x < 0 ==> x + TwoTo64 == Unsigned(b)
  {
    Pow256Eight();
    var u := Unsigned(b);
    if u < TwoTo63 then u else u - TwoTo64
  }

  /** The eight little-endian bytes of a `long`'s two's-complement pattern. */
  function ToBytes(x: Int64): (b: seq<Byte>)
    ensures |b| == 8
    ensures x >= 0 ==> Unsigned(b) == x
    ensures x < 0 ==> Unsigned(b) == x + TwoTo64
  {
    Pow256Eight();
    UnsignedLowBytes(if x >= 0 then x else x + TwoTo64, 8);
    LowBytes(if x >= 0 then x else x + TwoTo64, 8)
  }

  /** Reading a `long` from its bytes, and writing its bytes back, are inverse. */
  lemma BytesRoundTrip(b: seq<Byte>, x: Int64)
    requires |b| == 8
    ensures ToBytes(FromBytes(b)) == b
    ensures FromBytes(ToBytes(x)) == x
  {
    Pow256Eight();
    LowBytesUnsigned(b);
    UnsignedLowBytes(if x >= 0 then x else x + TwoTo64, 8);
  }

  lemma {:induction false} UnsignedTop(b: seq<Byte>)
    requires |b| >= 1
    ensures Unsigned(b) == Unsigned(b[..|b| - 1]) + Pow256(|b| - 1) * b[|b| - 1]
  {
    var n := |b|;
    if n > 1 {
      var rest, init := b[1..], b[..n - 1];
      UnsignedTop(rest);
      assert rest[..n - 2] == init[1..];
      var top, p := b[n - 1] as int, Pow256(n - 2);
      assert Unsigned(rest) == Unsigned(init[1..]) + p * top;
      assert Unsigned(init) == b[0] + 0x100 * Unsigned(init[1..]);
      assert 0x100 * (p * top) == (0x100 * p) * top;
    } else {
      assert b[..0] == [];
    }
  }

  /** A `long` is negative exactly when the top bit of its last byte is set. */
  lemma SignOfBytes(b: seq<Byte>)
    requires |b| == 8
    ensures FromBytes(b) < 0 <==> b[7] >= 0x80
  {
    Pow256Eight();
    UnsignedTop(b);
  }

  /** `BitConverter.ToInt64(value, startIndex)`; the window must lie inside the array. */
  function ToInt64(value: seq<Byte>, startIndex: nat): (x: Int64)
    requires startIndex + 8 <= |value|
    ensures ToBytes(x) == value[startIndex..startIndex + 8]
  {
    BytesRoundTrip(value[startIndex..startIndex + 8], 0);
    FromBytes(value[startIndex..startIndex + 8])
  }

  /** `^` on two longs: XOR of their two's-complement patterns, byte by byte. */
  function Xor(a: Int64, b: Int64): (r: Int64)
    ensures forall i :: 0 <= i < 8 ==> ToBytes(r)[i] == XorByte(ToBytes(a)[i], ToBytes(b)[i])
  {
    var x, y := ToBytes(a), ToBytes(b);
    var z := seq(8, i requires 0 <= i < 8 => XorByte(x[i], y[i]));
    BytesRoundTrip(z, 0);
    FromBytes(z)
  }

  // ----- Generate ----------------------------------------------------------

  /**
   * The two overlapping windows of the digest, XORed. Both lie inside it:
   * 7 + 8 <= 16. Byte `i` of the result is digest byte `i` XOR digest byte `i + 7`.
   */
  function Fold(d: Digest): (r: Int64)
    ensures forall i :: 0 <= i < 8 ==> ToBytes(r)[i] == XorByte(d[i], d[i + 7])
  {
    Xor(ToInt64(d, 0), ToInt64(d, 7))
  }

  /** Digest byte 7 is the top byte of the first window and the bottom byte of the second. */
  lemma SharedByte(d: Digest)
    ensures ToBytes(ToInt64(d, 0))[7] == d[7]
    ensures ToBytes(ToInt64(d, 7))[0] == d[7]
  {
    BytesRoundTrip(d[0..8], 0);
    BytesRoundTrip(d[7..15], 0);
  }

  /** Only digest bytes 0 to 14 matter: byte 15 never affects the key. */
  lemma FoldIgnoresLastByte(d: Digest, e: Digest)
    requires d[..15] == e[..15]
    ensures Fold(d) == Fold(e)
  {
    assert ToBytes(Fold(d)) == ToBytes(Fold(e)) by {
      forall i | 0 <= i < 8 ensures ToBytes(Fold(d))[i] == ToBytes(Fold(e))[i] {
        assert d[i] == d[..15][i] && d[i + 7] == d[..15][i + 7];
        assert e[i] == e[..15][i] && e[i + 7] == e[..15][i + 7];
      }
    }
    BytesRoundTrip(ToBytes(Fold(d)), Fold(d));
    BytesRoundTrip(ToBytes(Fold(e)), Fold(e));
  }

  /** The key is negative exactly when the top bit of `d[7] ^ d[14]` is set. */
  lemma FoldSign(d: Digest)
    ensures Fold(d) < 0 <==> XorByte(d[7], d[14]) >= 0x80
  {
    BytesRoundTrip(ToBytes(Fold(d)), Fold(d));
    SignOfBytes(ToBytes(Fold(d)));
  }

  /**
   * `Generate(value)` with `md5` as the digest: the little-endian long at
   * offset 0 of the digest of the value's UTF-16 little-endian bytes, XORed
   * with the one at offset 7; byte `i` of the key is `d[i] ^ d[i + 7]`.
   */
  function Generate(md5: seq<Byte> -> Digest, value: string): (r: Int64)
    ensures var d := md5(GetBytes(value));
      forall i :: 0 <= i < 8 ==> ToBytes(r)[i] == XorByte(d[i], d[i + 7])
  {
    Fold(md5(GetBytes(value)))
  }
}
