/** The ECMAScript number conversions a DataView applies to the value it is
    asked to store: take the integer part (toward zero), then reduce it
    modulo 2^8, 2^16 or 2^32. Only finite numbers are modelled, as reals. */
module JsNumbers {

  /** The integer part of a finite number, rounding toward zero. */
  function Trunc(x: real): (n: int)
    ensures 0.0 <= x ==> n as real <= x < n as real + 1.0
    ensures x < 0.0 ==> n as real - 1.0 < x <= n as real
  {
    if x < 0.0 then -((-x).Floor) else x.Floor
  }

  lemma TruncMonotone(x: real, y: real)
    requires x <= y
    ensures Trunc(x) <= Trunc(y)
  {
  }

  /** ToUint8 of an integral value: the residue modulo 2^8. */
  function ToUint8(n: int): (b: nat)
    ensures b < 0x100
    ensures (n - b) % 0x100 == 0
    ensures 0 <= n < 0x100 ==> b == n
  {
    n % 0x100
  }

  /** ToUint16 of an integral value: the residue modulo 2^16. */
  function ToUint16(n: int): (b: nat)
    ensures b < 0x1_0000
    ensures (n - b) % 0x1_0000 == 0
    ensures 0 <= n < 0x1_0000 ==> b == n
  {
    n % 0x1_0000
  }

  /** ToUint32 of an integral value: the residue modulo 2^32. */
  function ToUint32(n: int): (b: nat)
    ensures b < 0x1_0000_0000
    ensures (n - b) % 0x1_0000_0000 == 0
    ensures 0 <= n < 0x1_0000_0000 ==> b == n
  {
    n % 0x1_0000_0000
  }
}
