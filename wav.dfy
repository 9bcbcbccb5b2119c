/** encodeWAV and its helpers: a canonical 44-byte RIFF/WAVE header (a 16-byte
    `fmt ` chunk, then a `data` chunk) followed by the quantised samples,
    written through a DataView into a zeroed ArrayBuffer. */
module Wav {
  import opened Bytes
  import opened JsNumbers
  import opened DataViews
  import opened Pcm

  datatype Option<T> = None | Some(value: T)

  /** The parameters encodeWAV receives besides the samples. */
  datatype Format = Format(audioFormat: nat, sampleRate: nat, numChannels: nat, bitDepth: nat)

  /** bitDepth / 8 is a whole, positive number of bytes. */
  predicate WholeBytes(bitDepth: nat)
  {
    8 <= bitDepth && bitDepth % 8 == 0
  }

  /** bitDepth / 8 as an integer; for whole-byte depths it is the exact
      quotient JavaScript's division gives. */
  function BytesPerSample(f: Format): (n: nat)
    ensures WholeBytes(f.bitDepth) ==> 1 <= n && n * 8 == f.bitDepth
  {
    f.bitDepth / 8
  }

  function BlockAlign(f: Format): nat
  {
    f.numChannels * BytesPerSample(f)
  }

  function ByteRate(f: Format): nat
  {
    f.sampleRate * BlockAlign(f)
  }

  /** The size of the data chunk for sampleCount samples. */
  function DataSize(f: Format, sampleCount: nat): nat
  {
    sampleCount * BytesPerSample(f)
  }

  /** The 44 header bytes for the given field values, in file order; every
      setUint16 and setUint32 reduces its value to the field's width. */
  function HeaderBytes(chunkSize: int, audioFormat: int, numChannels: int, sampleRate: int,
                       byteRate: int, blockAlign: int, bitDepth: int, dataSize: int): (h: seq<byte>)
    ensures |h| == 44
  {
    Ascii("RIFF") + LE32(ToUint32(chunkSize)) + Ascii("WAVE") + Ascii("fmt ")
    + LE32(ToUint32(16)) + LE16(ToUint16(audioFormat)) + LE16(ToUint16(numChannels))
    + LE32(ToUint32(sampleRate)) + LE32(ToUint32(byteRate))
    + LE16(ToUint16(blockAlign)) + LE16(ToUint16(bitDepth))
    + Ascii("data") + LE32(ToUint32(dataSize))
  }

  /** The header encodeWAV writes for sampleCount samples. */
  function Header(f: Format, sampleCount: nat): (h: seq<byte>)
    ensures |h| == 44
  {
    var dataSize := DataSize(f, sampleCount);
    HeaderBytes(36 + dataSize, f.audioFormat, f.numChannels, f.sampleRate,
                ByteRate(f), BlockAlign(f), f.bitDepth, dataSize)
  }

  /** The two bytes floatTo16BitPCM stores for one sample. */
  function Pcm16Bytes(x: real): (b: seq<byte>)
    ensures |b| == 2
  {
    LE16(ToUint16(Quantise16(x)))
  }

  /** The byte floatTo8BitPCM stores for one sample. */
  function Pcm8Byte(x: real): byte
  {
    ToUint8(Quantise8(x))
  }

  /** The 16-bit payload: two bytes per sample, in order. */
  function Pcm16(samples: seq<real>): (p: seq<byte>)
    ensures |p| == 2 * |samples|
  {
    if samples == [] then []
    else Pcm16(samples[..|samples| - 1]) + Pcm16Bytes(samples[|samples| - 1])
  }

  /** The 8-bit payload: one byte per sample, in order. */
  function Pcm8(samples: seq<real>): (p: seq<byte>)
    ensures |p| == |samples|
  {
    if samples == [] then []
    else Pcm8(samples[..|samples| - 1]) + [Pcm8Byte(samples[|samples| - 1])]
  }

  /** Everything after the header. Any bit depth other than 16 takes the
      8-bit writer, which fills one byte per sample and leaves the rest of the
      data chunk zero. */
  function Payload(f: Format, samples: seq<real>): (p: seq<byte>)
    requires WholeBytes(f.bitDepth)
    ensures |p| == DataSize(f, |samples|)
  {
    var n, b := |samples|, BytesPerSample(f);
    assert n + (b - 1) * n == n * b;
    if f.bitDepth == 16 then Pcm16(samples)
    else Pcm8(samples) + Zeros((BytesPerSample(f) - 1) * |samples|)
  }

  /** The whole buffer encodeWAV returns. */
  function WavFile(f: Format, samples: seq<real>): (w: seq<byte>)
    requires WholeBytes(f.bitDepth)
    ensures |w| == 44 + DataSize(f, |samples|)
  {
    Header(f, |samples|) + Payload(f, samples)
  }

  /** Sample k of the 16-bit payload sits at bytes 2k and 2k + 1. */
  lemma {:induction false} Pcm16At(samples: seq<real>, k: nat)
    requires k < |samples|
    ensures Pcm16(samples)[2 * k..2 * k + 2] == Pcm16Bytes(samples[k])
  {
    var n := |samples|;
    var init := samples[..n - 1];
    assert Pcm16(samples) == Pcm16(init) + Pcm16Bytes(samples[n - 1]);
    if k < n - 1 {
      Pcm16At(init, k);
      assert init[k] == samples[k];
    }
  }

  /** One more sample adds its bytes at the end of the 16-bit payload. */
  lemma Pcm16Step(input: seq<real>, i: nat)
    requires i < |input|
    ensures Pcm16(input[..i + 1]) == Pcm16(input[..i]) + Pcm16Bytes(input[i])
  {
    assert input[..i + 1][..i] == input[..i];
  }

  /** One more sample adds its byte at the end of the 8-bit payload. */
  lemma Pcm8Step(input: seq<real>, i: nat)
    requires i < |input|
    ensures Pcm8(input[..i + 1]) == Pcm8(input[..i]) + [Pcm8Byte(input[i])]
  {
    assert input[..i + 1][..i] == input[..i];
  }

  /** After sample i of floatTo16BitPCM is stored, the samples written
      from the starting offset are input[..i + 1]. */
  lemma Write16Step(start: seq<byte>, before: seq<byte>, after: seq<byte>, offset: nat,
                    input: seq<real>, i: nat, value: real)
    requires i < |input| && offset + 2 * |input| <= |start|
    requires before == Splice(start, offset, Pcm16(input[..i]))
    requires value == Scale16(Clamp(input[i]))
    requires after == Splice(before, offset + 2 * i, LE16(ToUint16(Trunc(value))))
    ensures after == Splice(start, offset, Pcm16(input[..i + 1]))
  {
    SpliceAppend(start, offset, Pcm16(input[..i]), Pcm16Bytes(input[i]));
    Pcm16Step(input, i);
  }

  /** After sample i of floatTo8BitPCM is stored, the samples written from
      the starting offset are input[..i + 1]. */
  lemma Write8Step(start: seq<byte>, before: seq<byte>, after: seq<byte>, offset: nat,
                   input: seq<real>, i: nat, value: real)
    requires i < |input| && offset + |input| <= |start|
    requires before == Splice(start, offset, Pcm8(input[..i]))
    requires value == Scale8(Clamp(input[i]))
    requires after == Splice(before, offset + i, [ToUint8(Trunc(value))])
    ensures after == Splice(start, offset, Pcm8(input[..i + 1]))
  {
    SpliceAppend(start, offset, Pcm8(input[..i]), [Pcm8Byte(input[i])]);
    Pcm8Step(input, i);
  }

  /** Silence is stored as zero bytes. */
  lemma {:induction false} Pcm16Silence(samples: seq<real>)
    requires forall k :: 0 <= k < |samples| ==> samples[k] == 0.0
    ensures Pcm16(samples) == Zeros(2 * |samples|)
  {
    if samples != [] {
      var n := |samples|;
      Pcm16Silence(samples[..n - 1]);
      Quantise16Extremes(0.0);
      assert Pcm16Bytes(samples[n - 1]) == [0, 0];
      assert Zeros(2 * (n - 1)) + [0, 0] == Zeros(2 * n);
    }
  }

  /** Sample k of the 8-bit payload is byte k. */
  lemma {:induction false} Pcm8At(samples: seq<real>, k: nat)
    requires k < |samples|
    ensures Pcm8(samples)[k] == Pcm8Byte(samples[k])
  {
    var n := |samples|;
    var init := samples[..n - 1];
    assert Pcm8(samples) == Pcm8(init) + [Pcm8Byte(samples[n - 1])];
    if k < n - 1 {
      Pcm8At(init, k);
      assert init[k] == samples[k];
    }
  }

  /** The two bytes of a 16-bit sample read back, as two's complement, as
      the quantised sample: the setInt16 wrap never changes it. */
  lemma Pcm16Decodes(x: real)
    ensures I16(Pcm16Bytes(x)) == Quantise16(x)
  {
    StoredInt16(Quantise16(x));
  }

  /** Full scale: 1.0 is stored as FF 7F and -1.0 as 00 80. */
  lemma Pcm16FullScale()
    ensures Pcm16Bytes(1.0) == [0xFF, 0x7F]
    ensures Pcm16Bytes(-1.0) == [0x00, 0x80]
  {
    Quantise16Extremes(1.0);
    Quantise16Extremes(-1.0);
  }

  /** The 8-bit value is already in [0, 255], so the setInt8 wrap stores it
      unchanged, as an unsigned offset-binary byte. */
  lemma Pcm8Stores(x: real)
    ensures Pcm8Byte(x) == Quantise8(x)
  {
  }

  /** The header fields as a reader finds them at their offsets. */
  datatype HeaderFields = HeaderFields(
    chunkId: seq<byte>, chunkSize: nat, formType: seq<byte>,
    fmtId: seq<byte>, fmtSize: nat, audioFormat: nat, numChannels: nat,
    sampleRate: nat, byteRate: nat, blockAlign: nat, bitsPerSample: nat,
    dataId: seq<byte>, dataSize: nat)

  function Fields(b: seq<byte>): HeaderFields
    requires 44 <= |b|
  {
    HeaderFields(
      b[0..4], U32(b[4..8]), b[8..12],
      b[12..16], U32(b[16..20]), U16(b[20..22]), U16(b[22..24]),
      U32(b[24..28]), U32(b[28..32]), U16(b[32..34]), U16(b[34..36]),
      b[36..40], U32(b[40..44]))
  }

  /** The parameters for which no header field wraps. */
  predicate Encodable(f: Format, sampleCount: nat)
  {
    WholeBytes(f.bitDepth) && f.bitDepth < 0x1_0000
    && f.audioFormat < 0x1_0000 && f.numChannels < 0x1_0000 && BlockAlign(f) < 0x1_0000
    && f.sampleRate < 0x1_0000_0000 && ByteRate(f) < 0x1_0000_0000
    && 36 + DataSize(f, sampleCount) < 0x1_0000_0000
  }

  /** What a reader of the header recovers. */
  datatype Decoded = Decoded(format: Format, sampleCount: nat)

  /** A reader of the canonical 44-byte header: the four chunk tags, a 16-byte
      fmt chunk, whole-byte samples, the derived fields consistent, and a data
      chunk that fills the rest of the buffer. */
  function ParseHeader(b: seq<byte>): Option<Decoded>
  {
    if |b| < 44 then None else Validate(Fields(b), |b|)
  }

  /** The consistency checks on the fields of a buffer of the given length. */
  function Validate(h: HeaderFields, length: nat): Option<Decoded>
  {
    if h.chunkId != Ascii("RIFF") || h.formType != Ascii("WAVE")
       || h.fmtId != Ascii("fmt ") || h.dataId != Ascii("data") then None
    else if h.fmtSize != 16 || !WholeBytes(h.bitsPerSample) then None
    else
      var bytesPerSample := h.bitsPerSample / 8;
      if h.blockAlign != h.numChannels * bytesPerSample
         || h.byteRate != h.sampleRate * h.blockAlign
         || h.dataSize % bytesPerSample != 0
         || h.chunkSize != 36 + h.dataSize
         || length != 44 + h.dataSize then None
      else Some(Decoded(Format(h.audioFormat, h.sampleRate, h.numChannels, h.bitsPerSample),
                        h.dataSize / bytesPerSample))
  }

  lemma MulAtLeast(a: int, b: nat)
    requires 1 <= a
    ensures b <= a * b
  {
    assert a * b == (a - 1) * b + b;
  }

  /** Dividing a multiple of b by b gives the multiplier back, exactly. */
  lemma MulDiv(n: nat, b: nat)
    requires 0 < b
    ensures (n * b) / b == n && (n * b) % b == 0
  {
    var q, r := (n * b) / b, (n * b) % b;
    assert q * b + r == n * b;
    assert (n - q) * b == r;
    if n - q >= 1 {
      MulAtLeast(n - q, b);
      assert false;
    } else if q - n >= 1 {
      MulAtLeast(q - n, b);
      assert false;
    }
  }

  /** Each field value sits, little-endian, at its offset. */
  lemma HeaderBytesLayout(chunkSize: int, audioFormat: int, numChannels: int, sampleRate: int,
                          byteRate: int, blockAlign: int, bitDepth: int, dataSize: int)
    ensures var h := HeaderBytes(chunkSize, audioFormat, numChannels, sampleRate, byteRate, blockAlign, bitDepth, dataSize);
            h[0..4] == Ascii("RIFF") && h[4..8] == LE32(ToUint32(chunkSize)) && h[8..12] == Ascii("WAVE")
            && h[12..16] == Ascii("fmt ") && h[16..20] == LE32(ToUint32(16))
            && h[20..22] == LE16(ToUint16(audioFormat)) && h[22..24] == LE16(ToUint16(numChannels))
            && h[24..28] == LE32(ToUint32(sampleRate)) && h[28..32] == LE32(ToUint32(byteRate))
            && h[32..34] == LE16(ToUint16(blockAlign)) && h[34..36] == LE16(ToUint16(bitDepth))
            && h[36..40] == Ascii("data") && h[40..44] == LE32(ToUint32(dataSize))
  {
    var p1 := Ascii("RIFF") + LE32(ToUint32(chunkSize));
    var p2 := p1 + Ascii("WAVE");
    var p3 := p2 + Ascii("fmt ");
    var p4 := p3 + LE32(ToUint32(16));
    var p5 := p4 + LE16(ToUint16(audioFormat));
    var p6 := p5 + LE16(ToUint16(numChannels));
    var p7 := p6 + LE32(ToUint32(sampleRate));
    var p8 := p7 + LE32(ToUint32(byteRate));
    var p9 := p8 + LE16(ToUint16(blockAlign));
    var p10 := p9 + LE16(ToUint16(bitDepth));
    var p11 := p10 + Ascii("data");
    var h := p11 + LE32(ToUint32(dataSize));
    assert h[0..4] == Ascii("RIFF");
    assert h[4..8] == LE32(ToUint32(chunkSize));
    assert h[8..12] == Ascii("WAVE");
    assert h[12..16] == Ascii("fmt ");
    assert h[16..20] == LE32(ToUint32(16));
    assert h[20..22] == LE16(ToUint16(audioFormat));
    assert h[22..24] == LE16(ToUint16(numChannels));
    assert h[24..28] == LE32(ToUint32(sampleRate));
    assert h[28..32] == LE32(ToUint32(byteRate));
    assert h[32..34] == LE16(ToUint16(blockAlign));
    assert h[34..36] == LE16(ToUint16(bitDepth));
    assert h[36..40] == Ascii("data");
    assert h[40..44] == LE32(ToUint32(dataSize));
  }

  /** A reader finds each field value where HeaderBytes put it. */
  lemma HeaderBytesFields(chunkSize: nat, audioFormat: nat, numChannels: nat, sampleRate: nat,
                          byteRate: nat, blockAlign: nat, bitDepth: nat, dataSize: nat)
    requires chunkSize < 0x1_0000_0000 && sampleRate < 0x1_0000_0000
    requires byteRate < 0x1_0000_0000 && dataSize < 0x1_0000_0000
    requires audioFormat < 0x1_0000 && numChannels < 0x1_0000
    requires blockAlign < 0x1_0000 && bitDepth < 0x1_0000
    ensures Fields(HeaderBytes(chunkSize, audioFormat, numChannels, sampleRate, byteRate, blockAlign, bitDepth, dataSize))
            == HeaderFields(Ascii("RIFF"), chunkSize, Ascii("WAVE"), Ascii("fmt "), 16, audioFormat, numChannels,
                            sampleRate, byteRate, blockAlign, bitDepth, Ascii("data"), dataSize)
  {
    HeaderBytesLayout(chunkSize, audioFormat, numChannels, sampleRate, byteRate, blockAlign, bitDepth, dataSize);
    assert ToUint32(chunkSize) == chunkSize && ToUint32(16) == 16;
    assert ToUint16(audioFormat) == audioFormat && ToUint16(numChannels) == numChannels;
    assert ToUint32(sampleRate) == sampleRate && ToUint32(byteRate) == byteRate;
    assert ToUint16(blockAlign) == blockAlign && ToUint16(bitDepth) == bitDepth;
    assert ToUint32(dataSize) == dataSize;
    LE32Decodes(chunkSize);
    LE32Decodes(16);
    LE16Decodes(audioFormat);
    LE16Decodes(numChannels);
    LE32Decodes(sampleRate);
    LE32Decodes(byteRate);
    LE16Decodes(blockAlign);
    LE16Decodes(bitDepth);
    LE32Decodes(dataSize);
  }

  /** Fields reads nothing past byte 44. */
  lemma FieldsOfPrefix(b: seq<byte>)
    requires 44 <= |b|
    ensures Fields(b) == Fields(b[..44])
  {
  }

  /** An encoded buffer starts with its header. */
  lemma WavFileHeader(f: Format, samples: seq<real>)
    requires WholeBytes(f.bitDepth)
    ensures WavFile(f, samples)[..44] == Header(f, |samples|)
  {
    assert WavFile(f, samples) == Header(f, |samples|) + Payload(f, samples);
  }

  /** Byte-exact layout of an encoded buffer: the tags at 0, 8, 12 and 36
      and the little-endian fields at 4, 16, 20, 22, 24, 28, 32, 34 and 40. */
  lemma HeaderLayout(f: Format, samples: seq<real>)
    requires Encodable(f, |samples|)
    ensures Fields(WavFile(f, samples)) == HeaderFields(
      Ascii("RIFF"), 36 + DataSize(f, |samples|), Ascii("WAVE"),
      Ascii("fmt "), 16, f.audioFormat, f.numChannels,
      f.sampleRate, ByteRate(f), BlockAlign(f), f.bitDepth,
      Ascii("data"), DataSize(f, |samples|))
  {
    FieldsOfWavFile(f, samples);
    HeaderFieldsOf(f, |samples|);
  }

  /** A reader of an encoded buffer reads only its header. */
  lemma FieldsOfWavFile(f: Format, samples: seq<real>)
    requires WholeBytes(f.bitDepth)
    ensures Fields(WavFile(f, samples)) == Fields(Header(f, |samples|))
  {
    WavFileHeader(f, samples);
    FieldsOfPrefix(WavFile(f, samples));
  }

  /** The field values of the header, when none of them wraps. */
  lemma HeaderFieldsOf(f: Format, sampleCount: nat)
    requires Encodable(f, sampleCount)
    ensures Fields(Header(f, sampleCount)) == HeaderFields(
      Ascii("RIFF"), 36 + DataSize(f, sampleCount), Ascii("WAVE"),
      Ascii("fmt "), 16, f.audioFormat, f.numChannels,
      f.sampleRate, ByteRate(f), BlockAlign(f), f.bitDepth,
      Ascii("data"), DataSize(f, sampleCount))
  {
    var dataSize := DataSize(f, sampleCount);
    HeaderBytesFields(36 + dataSize, f.audioFormat, f.numChannels, f.sampleRate,
                      ByteRate(f), BlockAlign(f), f.bitDepth, dataSize);
  }

  lemma ParseWavFile(f: Format, samples: seq<real>)
    requires Encodable(f, |samples|)
    ensures ParseHeader(WavFile(f, samples)) == Some(Decoded(f, |samples|))
  {
    HeaderLayout(f, samples);
    MulDiv(|samples|, BytesPerSample(f));
  }

  lemma MulPred(n: nat, b: nat)
    requires 1 <= b
    ensures n * b - n == (b - 1) * n
  {
  }

  /** A multiple of b divided by b and multiplied back is itself. */
  lemma DivMul(x: nat, b: nat)
    requires 0 < b && x % b == 0
    ensures (x / b) * b == x
  {
    assert x == b * (x / b) + x % b;
  }

  /** The first 44 bytes are the concatenation of the header's field slots. */
  lemma Reassemble(x: seq<byte>)
    requires 44 <= |x|
    ensures x[..44] == x[0..4] + x[4..8] + x[8..12] + x[12..16] + x[16..20] + x[20..22]
                       + x[22..24] + x[24..28] + x[28..32] + x[32..34] + x[34..36]
                       + x[36..40] + x[40..44]
  {
  }

  /** A buffer whose tags and fmt size are the canonical ones starts with the
      header HeaderBytes writes for the field values a reader finds in it. */
  lemma HeaderOfFields(b: seq<byte>)
    requires 44 <= |b|
    requires b[0..4] == Ascii("RIFF") && b[8..12] == Ascii("WAVE")
    requires b[12..16] == Ascii("fmt ") && b[36..40] == Ascii("data")
    requires Fields(b).fmtSize == 16
    ensures var fs := Fields(b);
            b[..44] == HeaderBytes(fs.chunkSize, fs.audioFormat, fs.numChannels, fs.sampleRate,
                                   fs.byteRate, fs.blockAlign, fs.bitsPerSample, fs.dataSize)
  {
    var fs := Fields(b);
    var h := HeaderBytes(fs.chunkSize, fs.audioFormat, fs.numChannels, fs.sampleRate,
                         fs.byteRate, fs.blockAlign, fs.bitsPerSample, fs.dataSize);
    HeaderBytesLayout(fs.chunkSize, fs.audioFormat, fs.numChannels, fs.sampleRate,
                      fs.byteRate, fs.blockAlign, fs.bitsPerSample, fs.dataSize);
    assert b[4..8] == h[4..8] by { U32Encodes(b[4..8]); }
    assert b[16..20] == h[16..20] by { U32Encodes(b[16..20]); }
    assert b[20..22] == h[20..22] by { U16Encodes(b[20..22]); }
    assert b[22..24] == h[22..24] by { U16Encodes(b[22..24]); }
    assert b[24..28] == h[24..28] by { U32Encodes(b[24..28]); }
    assert b[28..32] == h[28..32] by { U32Encodes(b[28..32]); }
    assert b[32..34] == h[32..34] by { U16Encodes(b[32..34]); }
    assert b[34..36] == h[34..36] by { U16Encodes(b[34..36]); }
    assert b[40..44] == h[40..44] by { U32Encodes(b[40..44]); }
    Reassemble(b);
    Reassemble(h);
    assert h[..44] == h;
  }

  /** The reader accepts nothing but what encodeWAV writes: an accepted
      header is byte for byte the header of the decoded parameters, and the
      buffer has exactly the length encodeWAV gives it. */
  lemma ParseHeaderExact(b: seq<byte>)
    requires ParseHeader(b).Some?
    ensures var d := ParseHeader(b).value;
            Encodable(d.format, d.sampleCount)
            && |b| == 44 + DataSize(d.format, d.sampleCount)
            && b[..44] == Header(d.format, d.sampleCount)
  {
    var fs := Fields(b);
    var d := ParseHeader(b).value;
    var f := d.format;
    assert BytesPerSample(f) == fs.bitsPerSample / 8;
    DivMul(fs.dataSize, fs.bitsPerSample / 8);
    assert DataSize(f, d.sampleCount) == fs.dataSize;
    assert BlockAlign(f) == fs.blockAlign;
    assert ByteRate(f) == fs.byteRate;
    HeaderOfFields(b);
  }

  /** Sample k of a 16-bit file sits at byte 44 + 2k and reads back as its
      quantised value. */
  lemma Sample16At(f: Format, samples: seq<real>, k: nat)
    requires f.bitDepth == 16 && k < |samples|
    ensures WavFile(f, samples)[44 + 2 * k..46 + 2 * k] == Pcm16Bytes(samples[k])
    ensures I16(WavFile(f, samples)[44 + 2 * k..46 + 2 * k]) == Quantise16(samples[k])
  {
    var w := WavFile(f, samples);
    assert w == Header(f, |samples|) + Payload(f, samples);
    assert w[44..] == Pcm16(samples);
    assert w[44 + 2 * k..46 + 2 * k] == Pcm16(samples)[2 * k..2 * k + 2];
    Pcm16At(samples, k);
    Pcm16Decodes(samples[k]);
  }

  /** In any other bit depth, byte 44 + k holds sample k as an offset-binary
      byte and the rest of the data chunk stays zero. */
  lemma Sample8At(f: Format, samples: seq<real>, k: nat)
    requires WholeBytes(f.bitDepth) && f.bitDepth != 16 && k < |samples|
    ensures WavFile(f, samples)[44 + k] == Quantise8(samples[k])
    ensures forall p :: 44 + |samples| <= p < |WavFile(f, samples)| ==> WavFile(f, samples)[p] == 0
  {
    var n := |samples|;
    var w, payload := WavFile(f, samples), Payload(f, samples);
    assert w == Header(f, n) + payload;
    assert payload[..n] == Pcm8(samples);
    assert w[44 + k] == payload[k] == Pcm8(samples)[k];
    Pcm8At(samples, k);
    Pcm8Stores(samples[k]);
    forall p | 44 + n <= p < |w|
      ensures w[p] == 0
    {
      assert w[p] == payload[p - 44];
    }
  }

  /** Bytes 0-11, the RIFF chunk descriptor, written over zeros. */
  lemma RiffWrites(size: nat, chunkSize: int)
    requires 44 <= size
    ensures Splice(Splice(Splice(Zeros(size), 0, Ascii("RIFF")), 4, LE32(ToUint32(chunkSize))), 8, Ascii("WAVE"))
            == Ascii("RIFF") + LE32(ToUint32(chunkSize)) + Ascii("WAVE") + Zeros(size - 12)
  {
    assert Zeros(size) == [] + Zeros(size - 0);
    SpliceOverZeros([], Ascii("RIFF"), size - 0);
    assert [] + Ascii("RIFF") == Ascii("RIFF");
    SpliceOverZeros(Ascii("RIFF"), LE32(ToUint32(chunkSize)), size - 4);
    SpliceOverZeros(Ascii("RIFF") + LE32(ToUint32(chunkSize)), Ascii("WAVE"), size - 8);
  }

  /** Bytes 12-23: the fmt sub-chunk id and size, the format and the channel count. */
  lemma FormatWrites(written: seq<byte>, size: nat, audioFormat: int, numChannels: int)
    requires |written| == 12 && 44 <= size
    ensures Splice(Splice(Splice(Splice(written + Zeros(size - 12), 12, Ascii("fmt ")), 16, LE32(ToUint32(16))), 20, LE16(ToUint16(audioFormat))), 22, LE16(ToUint16(numChannels)))
            == written + Ascii("fmt ") + LE32(ToUint32(16)) + LE16(ToUint16(audioFormat)) + LE16(ToUint16(numChannels)) + Zeros(size - 24)
  {
    SpliceOverZeros(written, Ascii("fmt "), size - 12);
    SpliceOverZeros(written + Ascii("fmt "), LE32(ToUint32(16)), size - 16);
    SpliceOverZeros(written + Ascii("fmt ") + LE32(ToUint32(16)), LE16(ToUint16(audioFormat)), size - 20);
    SpliceOverZeros(written + Ascii("fmt ") + LE32(ToUint32(16)) + LE16(ToUint16(audioFormat)), LE16(ToUint16(numChannels)), size - 22);
  }

  /** Bytes 24-35: sample rate, byte rate, block align and bit depth. */
  lemma RateWrites(written: seq<byte>, size: nat, sampleRate: int, byteRate: int, blockAlign: int, bitDepth: int)
    requires |written| == 24 && 44 <= size
    ensures Splice(Splice(Splice(Splice(written + Zeros(size - 24), 24, LE32(ToUint32(sampleRate))), 28, LE32(ToUint32(byteRate))), 32, LE16(ToUint16(blockAlign))), 34, LE16(ToUint16(bitDepth)))
            == written + LE32(ToUint32(sampleRate)) + LE32(ToUint32(byteRate)) + LE16(ToUint16(blockAlign)) + LE16(ToUint16(bitDepth)) + Zeros(size - 36)
  {
    SpliceOverZeros(written, LE32(ToUint32(sampleRate)), size - 24);
    SpliceOverZeros(written + LE32(ToUint32(sampleRate)), LE32(ToUint32(byteRate)), size - 28);
    SpliceOverZeros(written + LE32(ToUint32(sampleRate)) + LE32(ToUint32(byteRate)), LE16(ToUint16(blockAlign)), size - 32);
    SpliceOverZeros(written + LE32(ToUint32(sampleRate)) + LE32(ToUint32(byteRate)) + LE16(ToUint16(blockAlign)), LE16(ToUint16(bitDepth)), size - 34);
  }

  /** Bytes 36-43, the data sub-chunk id and size. */
  lemma DataWrites(written: seq<byte>, size: nat, dataSize: int)
    requires |written| == 36 && 44 <= size
    ensures Splice(Splice(written + Zeros(size - 36), 36, Ascii("data")), 40, LE32(ToUint32(dataSize)))
            == written + Ascii("data") + LE32(ToUint32(dataSize)) + Zeros(size - 44)
  {
    SpliceOverZeros(written, Ascii("data"), size - 36);
    SpliceOverZeros(written + Ascii("data"), LE32(ToUint32(dataSize)), size - 40);
  }

  /** The thirteen writes of encodeWAV, in order, over a zeroed buffer leave
      the header in front of the untouched zeros. */
  lemma HeaderWrites(size: nat, chunkSize: int, audioFormat: int, numChannels: int, sampleRate: int,
                     byteRate: int, blockAlign: int, bitDepth: int, dataSize: int)
    requires 44 <= size
    ensures Splice(Splice(Splice(Splice(Splice(Splice(Splice(Splice(Splice(Splice(Splice(Splice(Splice(Zeros(size), 0, Ascii("RIFF")), 4, LE32(ToUint32(chunkSize))), 8, Ascii("WAVE")), 12, Ascii("fmt ")), 16, LE32(ToUint32(16))), 20, LE16(ToUint16(audioFormat))), 22, LE16(ToUint16(numChannels))), 24, LE32(ToUint32(sampleRate))), 28, LE32(ToUint32(byteRate))), 32, LE16(ToUint16(blockAlign))), 34, LE16(ToUint16(bitDepth))), 36, Ascii("data")), 40, LE32(ToUint32(dataSize)))
            == HeaderBytes(chunkSize, audioFormat, numChannels, sampleRate, byteRate, blockAlign, bitDepth, dataSize)
               + Zeros(size - 44)
  {
    RiffWrites(size, chunkSize);
    var riff := Ascii("RIFF") + LE32(ToUint32(chunkSize)) + Ascii("WAVE");
    FormatWrites(riff, size, audioFormat, numChannels);
    var format := riff + Ascii("fmt ") + LE32(ToUint32(16)) + LE16(ToUint16(audioFormat)) + LE16(ToUint16(numChannels));
    RateWrites(format, size, sampleRate, byteRate, blockAlign, bitDepth);
    var rates := format + LE32(ToUint32(sampleRate)) + LE32(ToUint32(byteRate)) + LE16(ToUint16(blockAlign)) + LE16(ToUint16(bitDepth));
    DataWrites(rates, size, dataSize);
  }

  /** One more character adds its setUint8 byte at the end. */
  lemma AsciiStep(s: string, i: nat)
    requires i < |s|
    ensures Ascii(s)[..i + 1] == Ascii(s)[..i] + [ToUint8(s[i] as int)]
  {
  }

  /** writeString: one setUint8 per character. */
  method WriteString(view: DataView, offset: nat, s: string)
    requires offset + |s| <= view.buffer.Length
    modifies view.buffer
    ensures view.buffer[..] == Splice(old(view.buffer[..]), offset, Ascii(s))
  {
    for i := 0 to |s|
      invariant view.buffer[..] == Splice(old(view.buffer[..]), offset, Ascii(s)[..i])
    {
      view.SetUint8(offset + i, s[i] as int);
      SpliceAppend(old(view.buffer[..]), offset, Ascii(s)[..i], [ToUint8(s[i] as int)]);
      AsciiStep(s, i);
    }
    assert Ascii(s)[..|s|] == Ascii(s);
  }

  /** floatTo16BitPCM: clamp, scale, setInt16 little-endian, two bytes on. */
  method FloatTo16BitPCM(output: DataView, offset: nat, input: seq<real>)
    requires offset + 2 * |input| <= output.buffer.Length
    modifies output.buffer
    ensures output.buffer[..] == Splice(old(output.buffer[..]), offset, Pcm16(input))
    ensures output.buffer[..offset] == old(output.buffer[..offset])
  {
    var pos := offset;
    for i := 0 to |input|
      invariant pos == offset + 2 * i
      invariant output.buffer[..] == Splice(old(output.buffer[..]), offset, Pcm16(input[..i]))
    {
      ghost var before := output.buffer[..];
      var s := Clamp(input[i]);
      var value := Scale16(s);
      output.SetInt16(pos, value);
      Write16Step(old(output.buffer[..]), before, output.buffer[..], offset, input, i, value);
      pos := pos + 2;
    }
    assert input[..|input|] == input;
    SplicePrefix(old(output.buffer[..]), offset, Pcm16(input));
  }

  /** floatTo8BitPCM: clamp, scale into [0, 255], setInt8, one byte on. */
  method FloatTo8BitPCM(output: DataView, offset: nat, input: seq<real>)
    requires offset + |input| <= output.buffer.Length
    modifies output.buffer
    ensures output.buffer[..] == Splice(old(output.buffer[..]), offset, Pcm8(input))
    ensures output.buffer[..offset] == old(output.buffer[..offset])
  {
    var pos := offset;
    for i := 0 to |input|
      invariant pos == offset + i
      invariant output.buffer[..] == Splice(old(output.buffer[..]), offset, Pcm8(input[..i]))
    {
      ghost var before := output.buffer[..];
      var s := Clamp(input[i]);
      var val := Scale8(s);
      output.SetInt8(pos, val);
      Write8Step(old(output.buffer[..]), before, output.buffer[..], offset, input, i, val);
      pos := pos + 1;
    }
    assert input[..|input|] == input;
    SplicePrefix(old(output.buffer[..]), offset, Pcm8(input));
  }

  /** The header block of encodeWAV: thirteen setter calls over a zeroed
      buffer, which leave the 44 header bytes in front of the zeros. */
  method WriteHeader(view: DataView, chunkSize: int, audioFormat: int, numChannels: int, sampleRate: int,
                     byteRate: int, blockAlign: int, bitDepth: int, dataSize: int)
    requires 44 <= view.buffer.Length && view.buffer[..] == Zeros(view.buffer.Length)
    modifies view.buffer
    ensures view.buffer[..]
            == HeaderBytes(chunkSize, audioFormat, numChannels, sampleRate, byteRate, blockAlign, bitDepth, dataSize)
               + Zeros(view.buffer.Length - 44)
  {
    WriteString(view, 0, "RIFF");
    view.SetUint32(4, chunkSize);
    WriteString(view, 8, "WAVE");
    WriteString(view, 12, "fmt ");
    view.SetUint32(16, 16);
    view.SetUint16(20, audioFormat);
    view.SetUint16(22, numChannels);
    view.SetUint32(24, sampleRate);
    view.SetUint32(28, byteRate);
    view.SetUint16(32, blockAlign);
    view.SetUint16(34, bitDepth);
    WriteString(view, 36, "data");
    view.SetUint32(40, dataSize);
    HeaderWrites(view.buffer.Length, chunkSize, audioFormat, numChannels, sampleRate,
                 byteRate, blockAlign, bitDepth, dataSize);
  }

  /** encodeWAV: a zeroed buffer of 44 + n * bytesPerSample bytes, the header
      fields in order, then the samples from byte 44. */
  method EncodeWav(samples: seq<real>, format: nat, sampleRate: nat, numChannels: nat, bitDepth: nat)
    returns (wav: seq<byte>)
    requires WholeBytes(bitDepth)
    ensures |wav| == 44 + |samples| * (bitDepth / 8)
    ensures wav == WavFile(Format(format, sampleRate, numChannels, bitDepth), samples)
  {
    var f := Format(format, sampleRate, numChannels, bitDepth);
    var bytesPerSample := BytesPerSample(f);
    var blockAlign := BlockAlign(f);
    var dataSize := DataSize(f, |samples|);
    var buffer := new byte[44 + dataSize](_ => 0);
    var view := new DataView(buffer);
    assert buffer[..] == Zeros(44 + dataSize);
    WriteHeader(view, 36 + dataSize, format, numChannels, sampleRate,
                ByteRate(f), blockAlign, bitDepth, dataSize);
    ghost var written := Header(f, |samples|);
    assert buffer[..] == written + Zeros(dataSize);

    if bitDepth == 16 {
      FloatTo16BitPCM(view, 44, samples);
      assert buffer[..] == Header(f, |samples|) + Pcm16(samples) by {
        SpliceOverZeros(written, Pcm16(samples), dataSize);
        assert Zeros(0) == [];
      }
    } else {
      MulAtLeast(bytesPerSample, |samples|);
      FloatTo8BitPCM(view, 44, samples);
      assert buffer[..] == Header(f, |samples|) + Pcm8(samples) + Zeros((bytesPerSample - 1) * |samples|) by {
        SpliceOverZeros(written, Pcm8(samples), dataSize);
        MulPred(|samples|, bytesPerSample);
      }
    }
    wav := buffer[..];
  }
}
