/** The little-endian DataView setters the WAV encoder calls. A view wraps one
    ArrayBuffer and never changes itself: every setter overwrites the bytes at
    its offset with the stored value reduced to the setter's width. */
module DataViews {
  import opened Bytes
  import opened JsNumbers

  class DataView {
    const buffer: array<byte>

    constructor (buffer: array<byte>)
      ensures this.buffer == buffer
    {
      this.buffer := buffer;
    }

    /** setUint8(offset, value) */
    method SetUint8(offset: nat, value: int)
      requires offset + 1 <= buffer.Length
      modifies buffer
      ensures buffer[..] == Splice(old(buffer[..]), offset, [ToUint8(value)])
    {
      buffer[offset] := ToUint8(value);
    }

    /** setUint16(offset, value, true) */
    method SetUint16(offset: nat, value: int)
      requires offset + 2 <= buffer.Length
      modifies buffer
      ensures buffer[..] == Splice(old(buffer[..]), offset, LE16(ToUint16(value)))
    {
      var b := LE16(ToUint16(value));
      buffer[offset] := b[0];
      buffer[offset + 1] := b[1];
    }

    /** setUint32(offset, value, true) */
    method SetUint32(offset: nat, value: int)
      requires offset + 4 <= buffer.Length
      modifies buffer
      ensures buffer[..] == Splice(old(buffer[..]), offset, LE32(ToUint32(value)))
    {
      var b := LE32(ToUint32(value));
      buffer[offset] := b[0];
      buffer[offset + 1] := b[1];
      buffer[offset + 2] := b[2];
      buffer[offset + 3] := b[3];
    }

    /** setInt16(offset, value, true): ToInt16 keeps the integer part and wraps
        it modulo 2^16; the two's-complement bits are what reach the buffer. */
    method SetInt16(offset: nat, value: real)
      requires offset + 2 <= buffer.Length
      modifies buffer
      ensures buffer[..] == Splice(old(buffer[..]), offset, LE16(ToUint16(Trunc(value))))
    {
      var b := LE16(ToUint16(Trunc(value)));
      buffer[offset] := b[0];
      buffer[offset + 1] := b[1];
    }

    /** setInt8(offset, value): ToInt8 keeps the integer part and wraps it
        modulo 2^8. */
    method SetInt8(offset: nat, value: real)
      requires offset + 1 <= buffer.Length
      modifies buffer
      ensures buffer[..] == Splice(old(buffer[..]), offset, [ToUint8(Trunc(value))])
    {
      buffer[offset] := ToUint8(Trunc(value));
    }
  }

  /** What setInt16 stores for an integer in the signed 16-bit range reads
      back, as two's complement, as that integer. */
  lemma {:induction false} StoredInt16(n: int)
    requires -0x8000 <= n < 0x8000
    ensures I16(LE16(ToUint16(n))) == n
  {
    var u := ToUint16(n);
    if n < 0 {
      assert u == n + 0x1_0000;
    } else {
      assert u == n;
    }
    LE16Decodes(u);
  }
}
