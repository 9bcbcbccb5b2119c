/** The sample quantisation of floatTo16BitPCM and floatTo8BitPCM: clamp to
    [-1, 1], scale asymmetrically, and let the DataView setter truncate. */
module Pcm {
  import opened JsNumbers

  /** Math.min of two finite numbers. */
  function Min(a: real, b: real): (m: real)
    ensures m <= a && m <= b && (m == a || m == b)
  {
    if a <= b then a else b
  }

  /** Math.max of two finite numbers. */
  function Max(a: real, b: real): (m: real)
    ensures a <= m && b <= m && (m == a || m == b)
  {
    if a <= b then b else a
  }

  /** Math.max(-1, Math.min(1, x)): the nearest point of [-1, 1] to x. */
  function Clamp(x: real): (s: real)
    ensures -1.0 <= s <= 1.0
    ensures -1.0 <= x <= 1.0 ==> s == x
    ensures x < -1.0 ==> s == -1.0
    ensures 1.0 < x ==> s == 1.0
  {
    Max(-1.0, Min(1.0, x))
  }

  /** The value handed to setInt16: negative samples scale by 0x8000,
      the others by 0x7FFF. */
  function Scale16(s: real): (v: real)
    ensures -1.0 <= s <= 1.0 ==> -32768.0 <= v <= 32767.0
    ensures s < 0.0 <==> v < 0.0
  {
    if s < 0.0 then s * 32768.0 else s * 32767.0
  }

  /** The value handed to setInt8. */
  function Scale8(s: real): (v: real)
    ensures -1.0 <= s <= 1.0 ==> 0.0 <= v <= 255.0
    ensures s < 0.0 <==> v < 128.0
  {
    if s < 0.0 then s * 128.0 + 128.0 else s * 127.0 + 128.0
  }

  /** The signed 16-bit sample floatTo16BitPCM stores for x. */
  function Quantise16(x: real): (v: int)
    ensures -0x8000 <= v < 0x8000
  {
    Trunc(Scale16(Clamp(x)))
  }

  /** The integer floatTo8BitPCM hands on for x, before any 8-bit wrap. */
  function Quantise8(x: real): (v: int)
    ensures 0 <= v < 0x100
  {
    Trunc(Scale8(Clamp(x)))
  }

  lemma ClampMonotone(x: real, y: real)
    requires x <= y
    ensures Clamp(x) <= Clamp(y)
  {
  }

  /** Louder input never gives a smaller 16-bit sample. */
  lemma {:induction false} Quantise16Monotone(x: real, y: real)
    requires x <= y
    ensures Quantise16(x) <= Quantise16(y)
  {
    ClampMonotone(x, y);
    var s, t := Clamp(x), Clamp(y);
    assert Scale16(s) <= Scale16(t);
    TruncMonotone(Scale16(s), Scale16(t));
  }

  /** Louder input never gives a smaller 8-bit sample. */
  lemma {:induction false} Quantise8Monotone(x: real, y: real)
    requires x <= y
    ensures Quantise8(x) <= Quantise8(y)
  {
    ClampMonotone(x, y);
    var s, t := Clamp(x), Clamp(y);
    assert Scale8(s) <= Scale8(t);
    TruncMonotone(Scale8(s), Scale8(t));
  }

  /** The 16-bit sample is at its minimum exactly when the input is at or
      below -1, and at its maximum exactly when it is at or above 1;
      silence stays 0. */
  lemma Quantise16Extremes(x: real)
    ensures Quantise16(x) == -0x8000 <==> x <= -1.0
    ensures Quantise16(x) == 0x7FFF <==> 1.0 <= x
    ensures Quantise16(0.0) == 0
  {
  }

  /** The 8-bit sample is 0 exactly below -127/128 (the scaled value is
      truncated, not rounded) and 255 exactly at or above 1; silence is the
      mid-point 128. */
  lemma Quantise8Extremes(x: real)
    ensures Quantise8(x) == 0 <==> x < -127.0 / 128.0
    ensures Quantise8(x) == 0xFF <==> 1.0 <= x
    ensures Quantise8(0.0) == 0x80
  {
  }
}
