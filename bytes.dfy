/** Octets and the little-endian integer layouts of a RIFF file. */
module Bytes {

  /** One octet of an ArrayBuffer. */
  type byte = x: int | 0 <= x < 0x100

  /** A 16-bit unsigned value, least significant byte first. */
  function LE16(v: nat): (b: seq<byte>)
    requires v < 0x1_0000
    ensures |b| == 2
  {
    [v % 0x100, v / 0x100]
  }

  /** A 32-bit unsigned value, least significant byte first. */
  function LE32(v: nat): (b: seq<byte>)
    requires v < 0x1_0000_0000
    ensures |b| == 4
  {
    var v1 := v / 0x100;
    var v2 := v1 / 0x100;
    [v % 0x100, v1 % 0x100, v2 % 0x100, v2 / 0x100]
  }

  /** The unsigned value of two little-endian bytes. */
  function U16(b: seq<byte>): (v: nat)
    requires |b| == 2
    ensures v < 0x1_0000
  {
    b[0] as int + 0x100 * b[1] as int
  }

  /** The unsigned value of four little-endian bytes. */
  function U32(b: seq<byte>): (v: nat)
    requires |b| == 4
    ensures v < 0x1_0000_0000
  {
    var b0, b1, b2, b3 := b[0] as int, b[1] as int, b[2] as int, b[3] as int;
    b0 + 0x100 * (b1 + 0x100 * (b2 + 0x100 * b3))
  }

  /** The two's-complement value of two little-endian bytes. */
  function I16(b: seq<byte>): (v: int)
    requires |b| == 2
    ensures -0x8000 <= v < 0x8000
    ensures v == U16(b) || v == U16(b) - 0x1_0000
  {
    var u := U16(b);
    if u < 0x8000 then u else u - 0x1_0000
  }

  lemma LE16Decodes(v: nat)
    requires v < 0x1_0000
    ensures U16(LE16(v)) == v
  {
  }

  lemma U16Encodes(b: seq<byte>)
    requires |b| == 2
    ensures LE16(U16(b)) == b
  {
  }

  lemma LE32Decodes(v: nat)
    requires v < 0x1_0000_0000
    ensures U32(LE32(v)) == v
  {
  }

  lemma U32Encodes(b: seq<byte>)
    requires |b| == 4
    ensures LE32(U32(b)) == b
  {
    var v2 := b[2] as int + 0x100 * b[3] as int;
    var v1 := b[1] as int + 0x100 * v2;
    var v := b[0] as int + 0x100 * v1;
    assert v == U32(b);
    assert v / 0x100 == v1 && v % 0x100 == b[0];
    assert v1 / 0x100 == v2 && v1 % 0x100 == b[1];
    assert v2 / 0x100 == b[3] && v2 % 0x100 == b[2];
  }

  /** The bytes DataView.setUint8 stores for the characters of s: each
      character's code point modulo 2^8. For the ASCII tags written here this
      is the character code itself. */
  function Ascii(s: string): (b: seq<byte>)
    ensures |b| == |s|
  {
    seq(|s|, i requires 0 <= i < |s| => (s[i] as int) % 0x100)
  }

  /** n zero bytes, as a fresh ArrayBuffer holds. */
  function Zeros(n: nat): (z: seq<byte>)
    ensures |z| == n
  {
    seq(n, _ => 0)
  }

  /** s with the bytes from offset on overwritten by piece. */
  function Splice(s: seq<byte>, offset: nat, piece: seq<byte>): (r: seq<byte>)
    requires offset + |piece| <= |s|
    ensures |r| == |s|
  {
    s[..offset] + piece + s[offset + |piece|..]
  }

  /** Writing at the end of what is written so far, over zeros, extends it. */
  lemma SpliceOverZeros(written: seq<byte>, piece: seq<byte>, free: nat)
    requires |piece| <= free
    ensures Splice(written + Zeros(free), |written|, piece) == written + piece + Zeros(free - |piece|)
  {
    var s := written + Zeros(free);
    assert s[..|written|] == written;
    assert s[|written| + |piece|..] == Zeros(free - |piece|);
  }

  /** Two writes side by side are one write of both pieces. */
  lemma SpliceAppend(s: seq<byte>, offset: nat, first: seq<byte>, second: seq<byte>)
    requires offset + |first| + |second| <= |s|
    ensures Splice(Splice(s, offset, first), offset + |first|, second) == Splice(s, offset, first + second)
  {
    var t := Splice(s, offset, first);
    assert t[..offset + |first|] == s[..offset] + first;
    assert t[offset + |first| + |second|..] == s[offset + |first| + |second|..];
  }

  /** A write leaves the bytes before its offset as they were. */
  lemma SplicePrefix(s: seq<byte>, offset: nat, piece: seq<byte>)
    requires offset + |piece| <= |s|
    ensures Splice(s, offset, piece)[..offset] == s[..offset]
  {
  }
}
