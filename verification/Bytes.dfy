/** Bytes, fixed-width integers and C strings, as the message layouts store them. */
module Bytes {

  type byte = x: int | 0 <= x < 256

  type int32 = x: int | -0x8000_0000 <= x < 0x8000_0000

  const TWO_32: nat := 0x1_0000_0000
  const TWO_64: nat := 0x1_0000_0000_0000_0000

  type uint64 = x: int | 0 <= x < TWO_64

  function Min(a: int, b: int): int {
    if a < b then a else b
  }

  /** A condition, counted. */
  function One(b: bool): nat {
    if b then 1 else 0
  }

  /** A list after the erasure of one element. */
  function Without<T>(s: seq<T>, i: nat): (r: seq<T>)
    requires i < |s|
    ensures |r| == |s| - 1 && forall x :: x in r ==> x in s
  {
    s[..i] + s[i + 1..]
  }

  /** The conversion of any integer to `int32_t`, modulo 2^32. */
  function Wrap32(n: int): (w: int32)
    ensures -0x8000_0000 <= n < 0x8000_0000 ==> w == n
  {
    var u := n % TWO_32;
    if u < 0x8000_0000 then u else u - TWO_32
  }

  /** The conversion of an `int32_t` to `size_t`: negative values become huge. */
  function ToSize(n: int32): nat {
    if n >= 0 then n else TWO_64 + n
  }

  function Zeros(n: nat): (s: seq<byte>)
    ensures |s| == n && forall i :: 0 <= i < n ==> s[i] == 0
  {
    if n == 0 then [] else [0] + Zeros(n - 1)
  }

  lemma ZerosAdd(m: nat, n: nat)
    ensures Zeros(m) + Zeros(n) == Zeros(m + n)
  {
  }

  lemma Assoc<T>(a: seq<T>, b: seq<T>, c: seq<T>)
    ensures (a + b) + c == a + (b + c)
  {
  }

  function Flatten(parts: seq<seq<byte>>): seq<byte> {
    if parts == [] then [] else parts[0] + Flatten(parts[1..])
  }

  lemma {:induction false} FlattenConcat(a: seq<seq<byte>>, b: seq<seq<byte>>)
    ensures Flatten(a + b) == Flatten(a) + Flatten(b)
  {
    if a == [] {
      assert a + b == b;
    } else {
      assert (a + b)[1..] == a[1..] + b;
      Assoc(a[0], Flatten(a[1..]), Flatten(b));
      FlattenConcat(a[1..], b);
    }
  }

  // ---------------------------------------------------------------- integers

  function Pow256(n: nat): (p: nat)
    ensures p > 0
  {
    if n == 0 then 1 else 256 * Pow256(n - 1)
  }

  /** The `n` low-order bytes of `u`, least significant first. */
  function EncodeLE(u: nat, n: nat): (s: seq<byte>)
    ensures |s| == n
  {
    if n == 0 then [] else [u % 256] + EncodeLE(u / 256, n - 1)
  }

  function DecodeLE(s: seq<byte>): (u: nat)
    ensures u < Pow256(|s|)
  {
    if s == [] then 0 else s[0] + 256 * DecodeLE(s[1..])
  }

  lemma {:induction false} DecodeEncodeLE(u: nat, n: nat)
    requires u < Pow256(n)
    ensures DecodeLE(EncodeLE(u, n)) == u
  {
    if n > 0 {
      DecodeEncodeLE(u / 256, n - 1);
      assert EncodeLE(u, n)[1..] == EncodeLE(u / 256, n - 1);
    }
  }

  /** The integer types the messages store: `int32_t`, `uint64_t` and `bool`. */
  datatype NumKind = I32 | U64 | Flag

  function Width(k: NumKind): nat {
    match k case I32 => 4 case U64 => 8 case Flag => 1
  }

  predicate InRange(k: NumKind, n: int) {
    match k
    case I32 => -0x8000_0000 <= n < 0x8000_0000
    case U64 => 0 <= n < TWO_64
    case Flag => 0 <= n < 2
  }

  function EncodeNum(k: NumKind, n: int): (s: seq<byte>)
    requires InRange(k, n)
    ensures |s| == Width(k)
  {
    EncodeLE(if n < 0 then n + TWO_32 else n, Width(k))
  }

  function DecodeNum(k: NumKind, s: seq<byte>): int {
    var u := DecodeLE(s);
    if k == I32 && u >= 0x8000_0000 then u - TWO_32 else u
  }

  lemma DecodeEncodeNum(k: NumKind, n: int)
    requires InRange(k, n)
    ensures DecodeNum(k, EncodeNum(k, n)) == n
  {
    assert Pow256(4) == TWO_32 && Pow256(8) == TWO_64 by {
      assert Pow256(1) == 256 && Pow256(2) == 0x1_0000 && Pow256(3) == 0x100_0000;
      assert Pow256(5) == 256 * Pow256(4) && Pow256(6) == 256 * Pow256(5) && Pow256(7) == 256 * Pow256(6);
    }
    DecodeEncodeLE(if n < 0 then n + TWO_32 else n, Width(k));
  }

  lemma DecodeZeros(k: NumKind)
    ensures DecodeNum(k, Zeros(Width(k))) == 0
  {
    assert EncodeLE(0, Width(k)) == Zeros(Width(k)) by { EncodeZero(Width(k)); }
    DecodeEncodeNum(k, 0);
  }

  lemma {:induction false} EncodeZero(n: nat)
    ensures EncodeLE(0, n) == Zeros(n)
  {
    if n > 0 {
      EncodeZero(n - 1);
    }
  }

  // ----------------------------------------------------------------- strings

  /** The string a C reader sees: everything before the first NUL byte. */
  function CString(s: seq<byte>): (t: seq<byte>)
    ensures t <= s && 0 !in t
    ensures |t| < |s| ==> s[|t|] == 0
  {
    if s == [] || s[0] == 0 then [] else [s[0]] + CString(s[1..])
  }

  /** What `strncpy(dst, src, n)` writes: the string cut at `n` bytes, padded with NULs. */
  function Strncpy(src: seq<byte>, n: nat): (s: seq<byte>)
    ensures |s| == n
  {
    var t := CString(src);
    var k := Min(|t|, n);
    t[..k] + Zeros(n - k)
  }

  /** Byte by byte, as the loop of `strncpy` writes it. */
  lemma StrncpyAt(src: seq<byte>, n: nat)
    ensures forall j :: 0 <= j < n ==> Strncpy(src, n)[j] == if j < |CString(src)| then src[j] else 0
  {
  }

  lemma {:induction false} CStringStops(t: seq<byte>, rest: seq<byte>)
    requires 0 !in t && (rest == [] || rest[0] == 0)
    ensures CString(t + rest) == t
  {
    if t != [] {
      CStringStops(t[1..], rest);
      assert (t + rest)[1..] == t[1..] + rest;
    } else {
      assert t + rest == rest;
    }
  }

  /** A string that fits is copied up to its first NUL, and the rest is padding. */
  lemma StrncpyPads(src: seq<byte>, n: nat)
    requires |src| <= n
    ensures |CString(src)| <= n && Strncpy(src, n) == CString(src) + Zeros(n - |CString(src)|)
  {
    var t := CString(src);
    assert t[..|t|] == t;
  }

  /** Reading a copied string back, from a region with NULs after the copied bytes. */
  lemma ReadBack(src: seq<byte>, n: nat, tail: nat)
    requires |src| <= n
    ensures CString(Strncpy(src, n) + Zeros(tail)) == CString(src)
  {
    StrncpyPads(src, n);
    ReadPadded(Strncpy(src, n), CString(src), n - |CString(src)|, tail);
  }

  lemma ReadPadded(s: seq<byte>, t: seq<byte>, m: nat, n: nat)
    requires 0 !in t && s == t + Zeros(m)
    ensures CString(s + Zeros(n)) == t
  {
    PadFurther(t, m, n);
    CStringStops(t, Zeros(m + n));
  }

  lemma PadFurther(t: seq<byte>, m: nat, n: nat)
    ensures (t + Zeros(m)) + Zeros(n) == t + Zeros(m + n)
  {
    Assoc(t, Zeros(m), Zeros(n));
    ZerosAdd(m, n);
  }
}

/** A `std::string` as text. */
module Strings {
  import opened Bytes

  /** The text of the given bytes, and back. */
  function Text(s: seq<byte>): (t: string)
    ensures |t| == |s|
  {
    if s == [] then "" else Text(s[..|s| - 1]) + [s[|s| - 1] as char]
  }

  function Raw(t: string): (s: seq<byte>)
    ensures |s| == |t|
  {
    if t == "" then [] else Raw(t[..|t| - 1]) + [t[|t| - 1] as int % 256]
  }

  lemma {:induction false} RawOfText(s: seq<byte>)
    ensures Raw(Text(s)) == s
  {
    if s != [] {
      var init := s[..|s| - 1];
      RawOfText(init);
      assert Text(s)[..|s| - 1] == Text(init);
      assert s == init + [s[|s| - 1]];
    }
  }
}
