/** The two steps of soundUtils that produce bytes: a drawing becomes one
    channel of samples, and an audio buffer becomes a 16-bit PCM WAV file. */
module SoundUtils {
  import opened Bytes
  import opened Pcm
  import opened Sonifier
  import opened Channels
  import opened Wav

  /** An AudioBuffer as audioBufferToWav reads it: its sample rate and the
      samples of each channel. */
  datatype AudioBuffer = AudioBuffer(sampleRate: nat, channels: seq<seq<real>>)

  /** What the Web Audio API guarantees of every AudioBuffer: at least one
      channel, and all channels of the same length. */
  predicate ValidBuffer(buffer: AudioBuffer)
  {
    |buffer.channels| >= 1
    && forall c :: 0 <= c < |buffer.channels| ==> |buffer.channels[c]| == |buffer.channels[0]|
  }

  /** The format audioBufferToWav always asks for: PCM (1), 16 bits. */
  function WavFormat(buffer: AudioBuffer): Format
  {
    Format(1, buffer.sampleRate, |buffer.channels|, 16)
  }

  /** The sample stream handed to encodeWAV: the two channels interleaved for
      a stereo buffer, channel 0 alone for any other channel count. */
  function Mixed(buffer: AudioBuffer): (stream: seq<real>)
    requires ValidBuffer(buffer)
    ensures |buffer.channels| == 2 ==> |stream| == 2 * |buffer.channels[0]|
    ensures |buffer.channels| != 2 ==> |stream| == |buffer.channels[0]|
  {
    if |buffer.channels| == 2 then Interleaved(buffer.channels[0], buffer.channels[1])
    else buffer.channels[0]
  }

  /** audioBufferToWav: picks the sample stream by channel count and encodes
      it as 16-bit PCM at the buffer's own rate. */
  method AudioBufferToWav(buffer: AudioBuffer) returns (wav: seq<byte>)
    requires ValidBuffer(buffer)
    ensures wav == WavFile(WavFormat(buffer), Mixed(buffer))
    ensures |buffer.channels| == 2 ==> |wav| == 44 + 4 * |buffer.channels[0]|
    ensures |buffer.channels| != 2 ==> |wav| == 44 + 2 * |buffer.channels[0]|
  {
    var numChannels := |buffer.channels|;
    var sampleRate := buffer.sampleRate;
    var format := 1;
    var bitDepth := 16;
    var result;
    if numChannels == 2 {
      result := Interleave(buffer.channels[0], buffer.channels[1]);
    } else {
      result := buffer.channels[0];
    }
    wav := EncodeWav(result, format, sampleRate, numChannels, bitDepth);
  }

  /** Frame k of a stereo file: the left sample at byte 44 + 4k, the right
      one right after it, each read back as its quantised value. */
  lemma StereoFrame(buffer: AudioBuffer, k: nat)
    requires ValidBuffer(buffer) && |buffer.channels| == 2 && k < |buffer.channels[0]|
    ensures var wav := WavFile(WavFormat(buffer), Mixed(buffer));
            I16(wav[44 + 4 * k..46 + 4 * k]) == Quantise16(buffer.channels[0][k])
            && I16(wav[46 + 4 * k..48 + 4 * k]) == Quantise16(buffer.channels[1][k])
  {
    var left, right := buffer.channels[0], buffer.channels[1];
    InterleavedFrame(left, right, k);
    Sample16At(WavFormat(buffer), Mixed(buffer), 2 * k);
    Sample16At(WavFormat(buffer), Mixed(buffer), 2 * k + 1);
  }

  /** Any other channel count: sample k of channel 0 at byte 44 + 2k; the
      other channels are not written although the header counts them. */
  lemma MonoSample(buffer: AudioBuffer, k: nat)
    requires ValidBuffer(buffer) && |buffer.channels| != 2 && k < |buffer.channels[0]|
    ensures I16(WavFile(WavFormat(buffer), Mixed(buffer))[44 + 2 * k..46 + 2 * k])
            == Quantise16(buffer.channels[0][k])
    ensures |WavFile(WavFormat(buffer), Mixed(buffer))| == 44 + 2 * |buffer.channels[0]|
  {
    Sample16At(WavFormat(buffer), Mixed(buffer), k);
  }

  /** A reader of the header gets back the format audioBufferToWav chose and
      the number of samples it encoded, whenever no header field wraps. */
  lemma BufferHeader(buffer: AudioBuffer)
    requires ValidBuffer(buffer) && Encodable(WavFormat(buffer), |Mixed(buffer)|)
    ensures ParseHeader(WavFile(WavFormat(buffer), Mixed(buffer)))
            == Some(Decoded(Format(1, buffer.sampleRate, |buffer.channels|, 16), |Mixed(buffer)|))
  {
    ParseWavFile(WavFormat(buffer), Mixed(buffer));
  }

  /** How convertDrawingToSound's promise settles. */
  datatype Outcome = Resolved(wav: seq<byte>) | Rejected

  /** convertDrawingToSound on the canvas's ImageData. getImageData throws
      for a canvas with no width or no height, and the promise rejects;
      otherwise the one channel is sonified, rendered unchanged by the
      offline context, and encoded at the context's sample rate. */
  method ConvertDrawingToSound(data: seq<byte>, width: nat, height: nat, sampleRate: nat)
    returns (outcome: Outcome)
    requires IsBitmap(data, width, height)
    ensures outcome.Rejected? <==> width == 0 || height == 0
    ensures outcome.Resolved? ==> 0 < height && outcome.wav == DrawingWav(data, width, height, sampleRate)
  {
    if width == 0 || height == 0 {
      return Rejected;
    }
    var channelData := Sonify(data, width, height);
    var renderedBuffer := AudioBuffer(sampleRate, [channelData]);
    var wavData := AudioBufferToWav(renderedBuffer);
    return Resolved(wavData);
  }

  /** The file of a drawing, as ConvertDrawingToSound resolves it. */
  function DrawingWav(data: seq<byte>, width: nat, height: nat, sampleRate: nat): (wav: seq<byte>)
    requires IsBitmap(data, width, height) && 0 < height
    ensures |wav| == 44 + 2 * width
  {
    WavFile(Format(1, sampleRate, 1, 16), Sonified(data, width, height))
  }

  /** A reader of the file finds mono 16-bit PCM at the context's rate with
      one sample per canvas column. */
  lemma DrawingHeader(data: seq<byte>, width: nat, height: nat, sampleRate: nat)
    requires IsBitmap(data, width, height) && 0 < height
    requires 2 * sampleRate < 0x1_0000_0000 && 36 + 2 * width < 0x1_0000_0000
    ensures ParseHeader(DrawingWav(data, width, height, sampleRate))
            == Some(Decoded(Format(1, sampleRate, 1, 16), width))
  {
    ParseWavFile(Format(1, sampleRate, 1, 16), Sonified(data, width, height));
  }

  /** Column i's sample sits at byte 44 + 2i and reads back as the quantised
      column average. */
  lemma ColumnBytes(data: seq<byte>, width: nat, height: nat, sampleRate: nat, i: nat)
    requires IsBitmap(data, width, height) && 0 < height && i < width
    ensures DrawingWav(data, width, height, sampleRate)[44 + 2 * i..46 + 2 * i]
            == Pcm16Bytes(ColumnSample(data, width, height, i))
    ensures I16(DrawingWav(data, width, height, sampleRate)[44 + 2 * i..46 + 2 * i])
            == Quantise16(ColumnSample(data, width, height, i))
  {
    Sample16At(Format(1, sampleRate, 1, 16), Sonified(data, width, height), i);
  }

  /** A column is stored as the most negative sample, bytes 00 80, exactly
      when every pixel in it is transparent or black. */
  lemma DarkColumn(data: seq<byte>, width: nat, height: nat, sampleRate: nat, i: nat)
    requires IsBitmap(data, width, height) && 0 < height && i < width
    ensures DrawingWav(data, width, height, sampleRate)[44 + 2 * i..46 + 2 * i] == [0x00, 0x80]
            <==> forall j :: 0 <= j < height ==> IsDark(data, width, height, i, j)
  {
    var x := ColumnSample(data, width, height, i);
    var bytes := DrawingWav(data, width, height, sampleRate)[44 + 2 * i..46 + 2 * i];
    ColumnBytes(data, width, height, sampleRate, i);
    SampleIsMinusOne(data, width, height, i);
    SampleRange(data, width, height, i);
    Quantise16Extremes(x);
    Pcm16FullScale();
    if bytes == [0x00, 0x80] {
      assert I16(bytes) == -0x8000;
    }
  }

  /** A column is stored as the most positive sample, bytes FF 7F, exactly
      when every pixel in it is opaque white. */
  lemma WhiteColumn(data: seq<byte>, width: nat, height: nat, sampleRate: nat, i: nat)
    requires IsBitmap(data, width, height) && 0 < height && i < width
    ensures DrawingWav(data, width, height, sampleRate)[44 + 2 * i..46 + 2 * i] == [0xFF, 0x7F]
            <==> forall j :: 0 <= j < height ==> IsWhite(data, width, height, i, j)
  {
    var x := ColumnSample(data, width, height, i);
    var bytes := DrawingWav(data, width, height, sampleRate)[44 + 2 * i..46 + 2 * i];
    ColumnBytes(data, width, height, sampleRate, i);
    SampleIsOne(data, width, height, i);
    SampleRange(data, width, height, i);
    Quantise16Extremes(x);
    Pcm16FullScale();
    if bytes == [0xFF, 0x7F] {
      assert I16(bytes) == 0x7FFF;
    }
  }

  /** A 2 x 1 canvas, an opaque white pixel then an opaque black one: 48
      bytes, with FF 7F then 00 80 after the header. */
  lemma WhiteThenBlack(data: seq<byte>, sampleRate: nat)
    requires data == [0xFF, 0xFF, 0xFF, 0xFF, 0x00, 0x00, 0x00, 0xFF]
    ensures var wav := DrawingWav(data, 2, 1, sampleRate);
            |wav| == 48 && wav[44..46] == [0xFF, 0x7F] && wav[46..48] == [0x00, 0x80]
  {
    assert IsWhite(data, 2, 1, 0, 0) by {
      assert Px(data, 2, 1, 0, 0, 0) == data[0] && Px(data, 2, 1, 0, 0, 1) == data[1];
      assert Px(data, 2, 1, 0, 0, 2) == data[2] && Px(data, 2, 1, 0, 0, 3) == data[3];
    }
    assert IsDark(data, 2, 1, 1, 0) by {
      assert Px(data, 2, 1, 1, 0, 0) == data[4] && Px(data, 2, 1, 1, 0, 1) == data[5];
      assert Px(data, 2, 1, 1, 0, 2) == data[6];
    }
    WhiteColumn(data, 2, 1, sampleRate, 0);
    DarkColumn(data, 2, 1, sampleRate, 1);
  }

  /** A stereo buffer with left [1.0] and right [-1.0] is encoded as the
      frame FF 7F 00 80. */
  lemma StereoExtremes(sampleRate: nat)
    ensures var buffer := AudioBuffer(sampleRate, [[1.0], [-1.0]]);
            WavFile(WavFormat(buffer), Mixed(buffer))[44..48] == [0xFF, 0x7F, 0x00, 0x80]
  {
    var buffer := AudioBuffer(sampleRate, [[1.0], [-1.0]]);
    var wav := WavFile(WavFormat(buffer), Mixed(buffer));
    StereoFrame(buffer, 0);
    Sample16At(WavFormat(buffer), Mixed(buffer), 0);
    Sample16At(WavFormat(buffer), Mixed(buffer), 1);
    InterleavedFrame([1.0], [-1.0], 0);
    Pcm16FullScale();
    assert wav[44..48] == wav[44..46] + wav[46..48];
  }
}
