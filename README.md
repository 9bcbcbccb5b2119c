# drawtosound: the drawing-to-WAV core of soundUtils.js

drawtosound turns a canvas drawing into a sound and offers it as a WAV
download. This project models the part of `src/utils/soundUtils.js` that
produces bytes, and proves properties of it.

- **Sonification** (`Sonifier`). Each canvas column gives one audio sample.
  The loop sums the brightness `(r + g + b) / (3 * 255)` of the column's
  pixels whose alpha is above 0. It divides the sum by the full canvas
  height and maps the mean onto `[-1, 1]` as `mean * 2 - 1`.
- **audioBufferToWav and interleave** (`SoundUtils`, `Channels`). A
  two-channel buffer is interleaved L0, R0, L1, R1, and so on. Any other
  channel count contributes channel 0 alone. Either stream is encoded as
  16-bit PCM at the buffer's own sample rate.
- **encodeWAV** (`Wav`). The encoder allocates a zeroed ArrayBuffer of
  `44 + n * bitDepth / 8` bytes. It writes the canonical 44-byte
  RIFF/WAVE header (a 16-byte `fmt ` chunk, then a `data` chunk) with
  little-endian setters. It then writes the samples from byte 44 on, with
  `floatTo16BitPCM` when the depth is 16 and `floatTo8BitPCM` otherwise.
- **The DataView** (`DataViews`). This is a class over `array<byte>`.
  Each setter converts its number the way ECMAScript does: it takes the
  integer part toward zero, then reduces it modulo 2^8, 2^16 or 2^32
  (`JsNumbers`). It writes the result in little-endian order and changes
  no other byte. All byte sequences use `Bytes`.
- **convertDrawingToSound** (`SoundUtils`). The canvas's ImageData,
  width, height and the audio context's sample rate are parameters. The
  promise is modelled as an `Outcome`: `Resolved` with the file, or
  `Rejected`.

The parsing side of the header (`Wav.ParseHeader`) is a reference reader
written for the round-trip proofs. It recovers the format and the sample
count from a buffer. For parameters whose header fields fit their 16- and
32-bit widths (`Wav.Encodable`) it reads back exactly the parameters the
encoder wrote (`Wav.ParseWavFile`). Every buffer it accepts has the length
and the 44 header bytes that encodeWAV writes for the decoded parameters
(`Wav.ParseHeaderExact`). The reader never looks at the data chunk, so an
accepted buffer's sample bytes need not be ones the encoder can produce.
Outside those widths the setters wrap the fields, and the reader may reject
the encoder's own output, or accept it and decode different parameters.

Conventions the code follows, which the model keeps:

- Rounding: a 16-bit sample is truncated toward zero by `setInt16`, not rounded.
  It is `trunc(s * 0x8000)` for negative `s` and `trunc(s * 0x7FFF)`
  otherwise, after clamping to `[-1, 1]`.
- Signedness: the 8-bit value `s * 128 + 128` or `s * 127 + 128` lies in `[0, 256)`.
  `setInt8` therefore stores the byte `trunc(value)` unchanged, which is
  ordinary unsigned (offset-binary) 8-bit PCM. No signed-byte corruption
  happens.
- Format errors: the encoder has none. Any bit depth other than 16 takes the
  8-bit path. It writes one byte per sample and leaves the rest of the
  data chunk zero. A channel count above 2 is written into the header,
  but only channel 0's samples are encoded.
- Degenerate canvases raise no error of the core's own. A canvas with a
  width or a height of 0 makes `getImageData` throw (it refuses an empty
  rectangle), and the `catch` rejects the promise. No sample is computed,
  so the division by the height is never reached with 0.
- Alpha 0 pixels add nothing to a column's sum but still count in the
  divisor.

## Model

| member | source | states |
|---|---|---|
| JsNumbers.Trunc | src/utils/soundUtils.js:158 | the integer part toward zero that setInt16 and setInt8 take: within 1 of x, on the side of 0 |
| JsNumbers.TruncMonotone | src/utils/soundUtils.js:158 | truncation never reverses the order of two values |
| JsNumbers.ToUint8 | src/utils/soundUtils.js:151 | the stored byte is below 2^8, congruent to the value modulo 2^8, and equal to it when it is in range |
| JsNumbers.ToUint16 | src/utils/soundUtils.js:123 | the stored 16-bit value is below 2^16, congruent modulo 2^16, and the value itself when in range |
| JsNumbers.ToUint32 | src/utils/soundUtils.js:115 | the stored 32-bit value is below 2^32, congruent modulo 2^32, and the value itself when in range |
| Bytes.I16 | src/utils/soundUtils.js:158 | a two-byte little-endian field read as signed lies in [-0x8000, 0x8000) and differs from its unsigned reading by 0 or 2^16 |
| Bytes.LE16 | src/utils/soundUtils.js:123-133 | the little-endian order the `true` argument of setUint16 selects: two bytes, least significant first |
| Bytes.LE32 | src/utils/soundUtils.js:115-137 | the little-endian order the `true` argument of setUint32 selects: four bytes, least significant first |
| Bytes.Ascii | src/utils/soundUtils.js:151 | the bytes setUint8 stores for the character codes of a string, one per character, each modulo 256 |
| Bytes.LE16Decodes | src/utils/soundUtils.js:123 | a 16-bit field written little-endian reads back as the same value |
| Bytes.U16Encodes | src/utils/soundUtils.js:123 | any two bytes are the little-endian encoding of their own reading |
| Bytes.LE32Decodes | src/utils/soundUtils.js:115 | a 32-bit field written little-endian reads back as the same value |
| Bytes.U32Encodes | src/utils/soundUtils.js:115 | any four bytes are the little-endian encoding of their own reading |
| Bytes.SpliceOverZeros | src/utils/soundUtils.js:109 | writing just past the filled prefix of a zeroed buffer appends the piece and leaves the zeros after it |
| Bytes.SpliceAppend | src/utils/soundUtils.js:150-152 | two adjacent writes equal one write of their concatenation |
| Bytes.SplicePrefix | src/utils/soundUtils.js:155-160 | a write at an offset leaves every byte before the offset unchanged |
| DataViews.DataView.SetUint8 | src/utils/soundUtils.js:151 | the byte at offset becomes ToUint8(value) and no other byte changes |
| DataViews.DataView.SetUint16 | src/utils/soundUtils.js:123 | the two bytes at offset become ToUint16(value), little-endian, and no other byte changes |
| DataViews.DataView.SetUint32 | src/utils/soundUtils.js:115 | the four bytes at offset become ToUint32(value), little-endian, and no other byte changes |
| DataViews.DataView.SetInt16 | src/utils/soundUtils.js:158 | the two bytes at offset become the truncated value modulo 2^16, little-endian, and no other byte changes |
| DataViews.DataView.SetInt8 | src/utils/soundUtils.js:166 | the byte at offset becomes the truncated value modulo 2^8 and no other byte changes |
| DataViews.DataView.constructor | src/utils/soundUtils.js:110 | the view writes into the given buffer |
| DataViews.StoredInt16 | src/utils/soundUtils.js:158 | a value in the int16 range stored by setInt16 reads back as itself |
| Pcm.Min | src/utils/soundUtils.js:157 | Math.min: a lower bound of both arguments that is one of them |
| Pcm.Max | src/utils/soundUtils.js:157 | Math.max: an upper bound of both arguments that is one of them |
| Pcm.Clamp | src/utils/soundUtils.js:157 | the clamped sample lies in [-1, 1], is the input when the input is in range, and is the nearer bound otherwise |
| Pcm.Scale16 | src/utils/soundUtils.js:158 | a clamped sample scales into [-32768, 32767], negative exactly when the sample is |
| Pcm.Scale8 | src/utils/soundUtils.js:165 | a clamped sample scales into [0, 255], below 128 exactly when the sample is negative |
| Pcm.Quantise16 | src/utils/soundUtils.js:157-158 | every 16-bit sample value lies in [-0x8000, 0x8000) |
| Pcm.Quantise8 | src/utils/soundUtils.js:164-166 | every 8-bit sample value lies in [0, 0x100) |
| Pcm.ClampMonotone | src/utils/soundUtils.js:157 | clamping preserves order |
| Pcm.Quantise16Monotone | src/utils/soundUtils.js:157-158 | a larger input never gives a smaller 16-bit sample |
| Pcm.Quantise8Monotone | src/utils/soundUtils.js:164-166 | a larger input never gives a smaller 8-bit sample |
| Pcm.Quantise16Extremes | src/utils/soundUtils.js:157-158 | the sample is -0x8000 exactly when the input is at most -1, 0x7FFF exactly when it is at least 1, and silence stays 0 |
| Pcm.Quantise8Extremes | src/utils/soundUtils.js:164-166 | the byte is 0 exactly when the input is below -127/128, 0xFF exactly when it is at least 1, and silence is 0x80 |
| Sonifier.PixelIndexInBounds | src/utils/soundUtils.js:23-27 | every byte the loop reads for a pixel in the canvas lies inside the ImageData |
| Sonifier.Sonified | src/utils/soundUtils.js:18-39 | the channel has exactly one sample per canvas column |
| Sonifier.Px | src/utils/soundUtils.js:23-27 | the r, g, b and a bytes of the pixel in column i and row j, read at (j * width + i) * 4 + k, always inside the ImageData |
| Sonifier.Brightness | src/utils/soundUtils.js:31 | a pixel's brightness lies in [0, 1]; it is 0 exactly when r, g and b are 0 and 1 exactly when they are all 255 |
| Sonifier.Contribution | src/utils/soundUtils.js:29-33 | what a pixel adds to its column: its brightness when alpha is above 0, nothing otherwise (range in Sonifier.ContributionRange) |
| Sonifier.ColumnSum | src/utils/soundUtils.js:19-34 | the running sum after the first rows of a column, row by row (properties in Sonifier.ColumnSumRange, ColumnSumZero, ColumnSumFull) |
| Sonifier.ColumnSample | src/utils/soundUtils.js:37-38 | the column sum divided by the full height, mapped by mean * 2 - 1 (range in Sonifier.SampleRange) |
| Sonifier.ContributionRange | src/utils/soundUtils.js:29-33 | a pixel adds a value in [0, 1]; it adds 0 exactly when it is transparent or black and 1 exactly when it is non-transparent white |
| Sonifier.ColumnSumRange | src/utils/soundUtils.js:19-34 | after j rows the column sum lies in [0, j] |
| Sonifier.ColumnSumZero | src/utils/soundUtils.js:19-34 | a column sum is 0 exactly when every pixel summed is transparent or black |
| Sonifier.ColumnSumFull | src/utils/soundUtils.js:19-34 | a column sum equals its row count exactly when every pixel summed is non-transparent white |
| Sonifier.SampleRange | src/utils/soundUtils.js:36-38 | every sample lies in [-1, 1] |
| Sonifier.SampleIsMinusOne | src/utils/soundUtils.js:22-38 | a sample is -1 exactly when its whole column is transparent or black |
| Sonifier.SampleIsOne | src/utils/soundUtils.js:22-38 | a sample is 1 exactly when its whole column is non-transparent white |
| Sonifier.Sonify | src/utils/soundUtils.js:18-39 | the nested loop fills the channel with the column-average formula for every column, each sample in [-1, 1] |
| Channels.Interleaved | src/utils/soundUtils.js:91-103 | the stereo stream is as long as both channels together |
| Channels.InterleavedFrame | src/utils/soundUtils.js:96-100 | frame k of the stream is left[k] at position 2k and right[k] at 2k + 1 |
| Channels.InterleavedAt | src/utils/soundUtils.js:96-100 | even positions come from the left channel and odd ones from the right, each at half the position |
| Channels.DeinterleaveInterleaved | src/utils/soundUtils.js:91-103 | taking every other sample of the stream gives back both channels unchanged |
| Channels.Interleave | src/utils/soundUtils.js:91-103 | the loop's result has the combined length, the left sample at each even index and the right one at each odd index |
| Wav.BytesPerSample | src/utils/soundUtils.js:106 | bitDepth / 8; for whole-byte depths (Wav.WholeBytes) it is at least 1 and exactly the quotient JavaScript's float division gives |
| Wav.BlockAlign | src/utils/soundUtils.js:107 | numChannels times the bytes per sample |
| Wav.ByteRate | src/utils/soundUtils.js:129 | sampleRate times the block align |
| Wav.DataSize | src/utils/soundUtils.js:109 | samples.length times the bytes per sample: the data chunk size written at :137 and the payload size allocated at :109 |
| Wav.Header | src/utils/soundUtils.js:112-137 | the header encodeWAV writes is 44 bytes: HeaderBytes of 36 + data size, the format, the byte rate, the block align and the data size |
| Wav.Pcm16Bytes | src/utils/soundUtils.js:155-160 | the two bytes stored for one sample: its 16-bit quantised value, little-endian (read back in Wav.Pcm16Decodes) |
| Wav.Pcm16 | src/utils/soundUtils.js:155-160 | the 16-bit payload has two bytes per sample, in order |
| Wav.Pcm8Byte | src/utils/soundUtils.js:162-168 | the byte stored for one sample: its 8-bit quantised value modulo 256 (equal to it, Wav.Pcm8Stores) |
| Wav.Pcm8 | src/utils/soundUtils.js:162-168 | the 8-bit payload has one byte per sample, in order |
| Wav.Payload | src/utils/soundUtils.js:140-144 | the bytes after the header fill exactly the data size: the 16-bit payload at depth 16, else the 8-bit payload followed by zeros |
| Wav.HeaderBytes | src/utils/soundUtils.js:112-137 | the header is 44 bytes long |
| Wav.WavFile | src/utils/soundUtils.js:105-147 | the file is 44 bytes of header plus one data-chunk slot per sample |
| Wav.Pcm16At | src/utils/soundUtils.js:155-160 | sample k of the 16-bit payload occupies bytes 2k and 2k + 1 |
| Wav.Pcm8At | src/utils/soundUtils.js:162-168 | sample k of the 8-bit payload is byte k |
| Wav.Pcm16Silence | src/utils/soundUtils.js:155-160 | a run of 0.0 samples is encoded as all-zero bytes |
| Wav.Pcm16Decodes | src/utils/soundUtils.js:157-158 | the two stored bytes of a sample read back, signed, as its quantised value |
| Wav.Pcm16FullScale | src/utils/soundUtils.js:157-158 | full scale 1.0 is stored as FF 7F and -1.0 as 00 80 |
| Wav.Pcm8Stores | src/utils/soundUtils.js:164-166 | the byte setInt8 stores is the 8-bit value itself, with no sign wrap |
| Wav.HeaderBytesLayout | src/utils/soundUtils.js:113-137 | each header slot holds its tag or its field value, reduced to the field's width, at the offset the source writes it to |
| Wav.HeaderBytesFields | src/utils/soundUtils.js:113-137 | a reader of a header with in-range field values gets back each value and each tag |
| Wav.FieldsOfPrefix | src/utils/soundUtils.js:113-137 | the header fields depend only on the first 44 bytes |
| Wav.WavFileHeader | src/utils/soundUtils.js:105-147 | the file's first 44 bytes are the header for its format and sample count |
| Wav.FieldsOfWavFile | src/utils/soundUtils.js:105-147 | the sample payload never alters what the header fields read |
| Wav.HeaderFieldsOf | src/utils/soundUtils.js:113-137 | a header for encodable parameters carries exactly the format, derived sizes and tags |
| Wav.HeaderLayout | src/utils/soundUtils.js:113-137 | the fields of a file are its format, 36 + data size, the block align, the byte rate and the data size |
| Wav.ParseWavFile | src/utils/soundUtils.js:105-147 | reading back an encoded file recovers exactly its format and sample count |
| Wav.HeaderOfFields | src/utils/soundUtils.js:113-137 | a buffer with the canonical tags and fmt size begins with the header written from the fields it carries |
| Wav.ParseHeaderExact | src/utils/soundUtils.js:105-147 | any buffer the reader accepts has exactly the encoder's length and header for the decoded parameters |
| Wav.Sample16At | src/utils/soundUtils.js:140-141 | in a 16-bit file, sample k is at bytes 44 + 2k and 45 + 2k and reads back as its quantised value |
| Wav.Sample8At | src/utils/soundUtils.js:142-143 | in a file of any other depth, sample k is the quantised byte at 44 + k and every byte after the samples is 0 |
| Wav.Write16Step | src/utils/soundUtils.js:156-158 | one iteration of floatTo16BitPCM extends the written payload by that sample's two bytes |
| Wav.Write8Step | src/utils/soundUtils.js:163-166 | one iteration of floatTo8BitPCM extends the written payload by that sample's byte |
| Wav.HeaderWrites | src/utils/soundUtils.js:113-137 | the thirteen header writes into a zeroed buffer leave the header followed by zeros |
| Wav.WriteString | src/utils/soundUtils.js:149-153 | the string's character codes modulo 256 appear at offset and nothing else changes |
| Wav.FloatTo16BitPCM | src/utils/soundUtils.js:155-160 | the 16-bit payload of the input is written from offset, and the bytes before offset keep their values |
| Wav.FloatTo8BitPCM | src/utils/soundUtils.js:162-168 | the 8-bit payload of the input is written from offset, and the bytes before offset keep their values |
| Wav.WriteHeader | src/utils/soundUtils.js:112-137 | on a zeroed buffer the header writes leave the 44 header bytes followed by zeros |
| Wav.EncodeWav | src/utils/soundUtils.js:105-147 | the encoder returns 44 + n * bitDepth / 8 bytes: the file of the given format and samples |
| SoundUtils.WavFormat | src/utils/soundUtils.js:76-79 | the format audioBufferToWav chooses: PCM (1), the buffer's rate and channel count, 16 bits |
| SoundUtils.Mixed | src/utils/soundUtils.js:81-86 | the stream handed to encodeWAV has twice the channel length for two channels and the channel length otherwise |
| SoundUtils.AudioBufferToWav | src/utils/soundUtils.js:75-89 | the result is the 16-bit file of the interleaved stream for two channels and of channel 0 otherwise, with 4 or 2 data bytes per frame |
| SoundUtils.StereoFrame | src/utils/soundUtils.js:82-83 | in a stereo file, frame k holds the left sample at byte 44 + 4k and the right one at 46 + 4k, each reading back as its quantised value |
| SoundUtils.MonoSample | src/utils/soundUtils.js:84-86 | for any other channel count, sample k of channel 0 is at byte 44 + 2k and the data holds channel 0 alone |
| SoundUtils.BufferHeader | src/utils/soundUtils.js:75-89 | the header of an encoded buffer reads back as PCM, 16 bits, the buffer's rate and channel count, and the number of samples in the encoded stream (twice the frame count for two channels) |
| SoundUtils.ConvertDrawingToSound | src/utils/soundUtils.js:4-72 | the promise rejects exactly when the canvas has width 0 or height 0, and otherwise resolves with the 16-bit mono file of the sonified channel |
| SoundUtils.DrawingWav | src/utils/soundUtils.js:54-63 | the file of a canvas with rows is 44 + 2 * width bytes long |
| SoundUtils.DrawingHeader | src/utils/soundUtils.js:13 | the drawing's file reads back as mono 16-bit PCM at the context's rate with one sample per column |
| SoundUtils.ColumnBytes | src/utils/soundUtils.js:18-39 | column i's sample is stored at byte 44 + 2i and reads back as the quantised column average |
| SoundUtils.DarkColumn | src/utils/soundUtils.js:29-38 | a column is stored as 00 80 exactly when every pixel in it is transparent or black |
| SoundUtils.WhiteColumn | src/utils/soundUtils.js:29-38 | a column is stored as FF 7F exactly when every pixel in it is non-transparent white |
| SoundUtils.WhiteThenBlack | src/utils/soundUtils.js:18-39 | a 2 x 1 canvas, white then black, yields 48 bytes ending FF 7F 00 80 |
| SoundUtils.StereoExtremes | src/utils/soundUtils.js:82-83 | a stereo buffer of left 1.0 and right -1.0 is encoded as the frame FF 7F 00 80 |

## Left out

- The audio graph of lines 42-51 (buffer source, analyser with fftSize 2048, destination) is built but its source is never started, so it neither writes bytes nor produces sound; it is not modelled.
- SoundUtils.ConvertDrawingToSound: offline rendering (lines 54-60) is taken to return the buffer unchanged, and the context's sample rate is a parameter. A rendering failure that rejects the promise is not modelled, because the rendering engine is outside the code.
- Reading the canvas (lines 7-9) is replaced by the ImageData bytes, width and height as parameters.
- Samples are exact reals. The single-precision rounding of Float32Array and AudioBuffer storage is not modelled, and neither are NaN or infinite sample values.
- SoundUtils.AudioBuffer: the sample rate is a whole number. A fractional rate would be truncated by setUint32, which is not modelled.
- Wav.EncodeWav: requires bitDepth to be a positive multiple of 8, so that bitDepth / 8 is a whole number of bytes. audioBufferToWav always passes 16, and fractional byte counts are not modelled.
- Wav.WriteString: a character is taken as one code unit. A character outside the Basic Multilingual Plane, which JavaScript splits into two UTF-16 code units, is not modelled. Only the four-letter ASCII chunk tags are ever written.
- SoundUtils.ValidBuffer: channels of unequal length are excluded, because an AudioBuffer's channels always share its length.
- Wav.HeaderLayout, Wav.ParseWavFile and SoundUtils.BufferHeader require every header field to fit its 16- or 32-bit width (Wav.Encodable). Beyond those widths the setters wrap: this is modelled exactly (Wav.HeaderBytesLayout), but the original parameters then cannot be recovered.
- The React components and the rest of the user interface are not part of this model.
