/**
 * The WAV encoder of GPTService: 16-bit PCM packing (`AudioClipToWav`) and the canonical
 * 44-byte RIFF/WAVE header (`AddWavHeader`), following the PCM "fmt " and "data" chunks of
 * the WAVE form in the Microsoft/IBM Multimedia Programming Interface and Data
 * Specifications 1.0.
 */
module Wav {
  import opened Wrappers
  import opened Bytes

  const HeaderSize: nat := 44

  /** A recorded clip after quantisation: interleaved `short` samples, channel count, frequency. */
  datatype AudioClip = AudioClip(samples: seq<int16>, channels: int32, frequency: int32)

  // ---------------------------------------------------------------- PCM payload

  /** Each sample as two bytes, low byte first, in sample order. */
  function PcmBytes(samples: seq<int16>): (b: seq<byte>)
    ensures |b| == 2 * |samples|
  {
    if samples == [] then [] else Le16(samples[0]) + PcmBytes(samples[1..])
  }

  /** Reads a PCM payload back as `short` samples; an odd trailing byte is ignored. */
  function DecodePcm(b: seq<byte>): (samples: seq<int16>)
    ensures |samples| == |b| / 2
  {
    if |b| < 2 then [] else [AsInt16(ReadU16(b, 0))] + DecodePcm(b[2..])
  }

  /** Sample `i` sits at bytes `2i` (low) and `2i + 1` (high), in two's complement. */
  lemma {:induction false} PcmBytesAt(samples: seq<int16>, i: nat)
    requires i < |samples|
    ensures PcmBytes(samples)[2 * i .. 2 * i + 2] == Le16(samples[i])
    ensures AsInt16(ReadU16(PcmBytes(samples), 2 * i)) == samples[i]
  {
    var b := PcmBytes(samples);
    assert b == Le16(samples[0]) + PcmBytes(samples[1..]);
    if i > 0 {
      PcmBytesAt(samples[1..], i - 1);
      assert b[2 * i .. 2 * i + 2] == PcmBytes(samples[1..])[2 * (i - 1) .. 2 * (i - 1) + 2];
    }
    assert b[2 * i] == Le16(samples[i])[0] && b[2 * i + 1] == Le16(samples[i])[1];
    Int16RoundTrip(samples[i]);
  }

  lemma {:induction false} PcmRoundTrip(samples: seq<int16>)
    ensures DecodePcm(PcmBytes(samples)) == samples
  {
    if samples != [] {
      var b := PcmBytes(samples);
      assert b == Le16(samples[0]) + PcmBytes(samples[1..]);
      assert b[2..] == PcmBytes(samples[1..]);
      PcmRoundTrip(samples[1..]);
      PcmBytesAt(samples, 0);
      assert samples == [samples[0]] + samples[1..];
    }
  }

  /**
   * The packing loop of `AudioClipToWav`: `intData` (already quantised) is written two
   * bytes per sample into a fresh `bytesData` array of twice its length.
   */
  method PackPcm(intData: seq<int16>) returns (bytesData: array<byte>)
    ensures fresh(bytesData)
    ensures bytesData.Length == 2 * |intData|
    ensures bytesData[..] == PcmBytes(intData)
  {
    bytesData := new byte[2 * |intData|];
    for i := 0 to |intData|
      invariant bytesData[..2 * i] == PcmBytes(intData)[..2 * i]
    {
      var byteArr := Le16(intData[i]);
      bytesData[2 * i] := byteArr[0];
      bytesData[2 * i + 1] := byteArr[1];
      PcmBytesAt(intData, i);
      assert bytesData[..2 * i + 2] == bytesData[..2 * i] + byteArr;
      assert PcmBytes(intData)[..2 * i + 2] == PcmBytes(intData)[..2 * i] + byteArr;
    }
    assert bytesData[..2 * |intData|] == bytesData[..];
  }

  // ---------------------------------------------------------------- header

  /** The 44-byte header for `dataSize` payload bytes, every integer field little-endian. */
  function WavHeader(dataSize: int, channels: int, sampleRate: int): (h: seq<byte>)
    ensures |h| == HeaderSize
  {
    RiffChunk(36 + dataSize) + FmtChunk(channels, sampleRate, sampleRate * channels * 2, channels * 2)
      + DataChunkHeader(dataSize)
  }

  /** The RIFF chunk descriptor: magic, the size of the rest of the file, the WAVE form type. */
  function RiffChunk(chunkSize: int): (h: seq<byte>)
    ensures |h| == 12
  {
    Ascii("RIFF") + Le32(chunkSize) + Ascii("WAVE")
  }

  /** The PCM "fmt " sub-chunk: size 16, format 1, then the stream parameters and 16 bits per sample. */
  function FmtChunk(channels: int, sampleRate: int, byteRate: int, blockAlign: int): (h: seq<byte>)
    ensures |h| == 24
  {
    Ascii("fmt ") + Le32(16) + Le16(1) + Le16(channels) + Le32(sampleRate)
      + Le32(byteRate) + Le16(blockAlign) + Le16(16)
  }

  /** The "data" sub-chunk header: magic and payload length. */
  function DataChunkHeader(dataSize: int): (h: seq<byte>)
    ensures |h| == 8
  {
    Ascii("data") + Le32(dataSize)
  }

  /** A whole WAV file: the header for `pcm`, then `pcm` itself. */
  function WavFile(pcm: seq<byte>, channels: int, sampleRate: int): (w: seq<byte>)
    ensures |w| == HeaderSize + |pcm|
  {
    WavHeader(|pcm|, channels, sampleRate) + pcm
  }

  /** The fields of a parsed WAV file. */
  datatype WavInfo = WavInfo(channels: nat, sampleRate: nat, byteRate: nat, blockAlign: nat, pcm: seq<byte>)

  /**
   * An independent reader of canonical 16-bit PCM WAV files: checks the magic strings, the
   * fixed fields and the two size fields against the actual length, and returns the rest.
   */
  function ParseWav(w: seq<byte>): (info: Option<WavInfo>)
    ensures info.Some? ==> |w| >= HeaderSize && info.value.pcm == w[HeaderSize..]
  {
    if |w| < HeaderSize then None
    else if w[0..4] != Ascii("RIFF") || w[8..12] != Ascii("WAVE") || w[12..16] != Ascii("fmt ")
         || w[36..40] != Ascii("data") then None
    else if ReadU32(w, 4) != |w| - 8 || ReadU32(w, 40) != |w| - HeaderSize then None
    else if ReadU32(w, 16) != 16 || ReadU16(w, 20) != 1 || ReadU16(w, 34) != 16 then None
    else Some(WavInfo(ReadU16(w, 22), ReadU32(w, 24), ReadU32(w, 28), ReadU16(w, 32), w[HeaderSize..]))
  }

  lemma ReadU32Slice(b: seq<byte>, at: nat, v: int)
    requires at + 4 <= |b| && b[at..at + 4] == Le32(v)
    ensures ReadU32(b, at) == v % 0x1_0000_0000
  {
    assert b[at] == Le32(v)[0] && b[at + 1] == Le32(v)[1];
    assert b[at + 2] == Le32(v)[2] && b[at + 3] == Le32(v)[3];
  }

  lemma ReadU16Slice(b: seq<byte>, at: nat, v: int)
    requires at + 2 <= |b| && b[at..at + 2] == Le16(v)
    ensures ReadU16(b, at) == v % 0x1_0000
  {
    assert b[at] == Le16(v)[0] && b[at + 1] == Le16(v)[1];
  }

  /** A slice lying inside the right-hand operand of a concatenation. */
  lemma SliceRight(a: seq<byte>, b: seq<byte>, i: nat, j: nat)
    requires |a| <= i <= j <= |a| + |b|
    ensures (a + b)[i..j] == b[i - |a|..j - |a|]
  {
  }

  lemma SliceOfSlice(w: seq<byte>, i: nat, j: nat, k: nat, l: nat)
    requires i <= j <= |w| && k <= l <= j - i
    ensures w[i..j][k..l] == w[i + k..i + l]
  {
    assert forall t | 0 <= t < l - k :: w[i..j][k..l][t] == w[i + k + t];
  }

  lemma RiffFields(chunkSize: int)
    ensures var h := RiffChunk(chunkSize);
      h[0..4] == Ascii("RIFF") && h[4..8] == Le32(chunkSize) && h[8..12] == Ascii("WAVE")
  {
  }

  lemma FmtFields(channels: int, sampleRate: int, byteRate: int, blockAlign: int)
    ensures var h := FmtChunk(channels, sampleRate, byteRate, blockAlign);
      && h[0..4] == Ascii("fmt ") && h[4..8] == Le32(16) && h[8..10] == Le16(1)
      && h[10..12] == Le16(channels) && h[12..16] == Le32(sampleRate)
      && h[16..20] == Le32(byteRate) && h[20..22] == Le16(blockAlign)
      && h[22..24] == Le16(16)
  {
    var h := FmtChunk(channels, sampleRate, byteRate, blockAlign);
    var p1 := Ascii("fmt ") + Le32(16) + Le16(1) + Le16(channels);
    var p2 := Le32(sampleRate) + Le32(byteRate) + Le16(blockAlign) + Le16(16);
    assert h == p1 + p2;
    assert h[0..12] == p1;
    assert h[12..24] == p2;
  }

  lemma DataFields(dataSize: int)
    ensures var h := DataChunkHeader(dataSize);
      h[0..4] == Ascii("data") && h[4..8] == Le32(dataSize)
  {
  }

  lemma WavRiffLayout(pcm: seq<byte>, channels: int, sampleRate: int)
    ensures var w := WavFile(pcm, channels, sampleRate);
      && w[0..4] == Ascii("RIFF")
      && ReadU32(w, 4) == (36 + |pcm|) % 0x1_0000_0000
      && w[8..12] == Ascii("WAVE")
  {
    var w := WavFile(pcm, channels, sampleRate);
    var riff := RiffChunk(36 + |pcm|);
    assert w == riff + (FmtChunk(channels, sampleRate, sampleRate * channels * 2, channels * 2)
      + DataChunkHeader(|pcm|) + pcm);
    RiffFields(36 + |pcm|);
    assert w[0..4] == riff[0..4];
    assert w[4..8] == riff[4..8];
    assert w[8..12] == riff[8..12];
    ReadU32Slice(w, 4, 36 + |pcm|);
  }

  /** The fields of a "fmt " chunk placed at offset 12. */
  lemma FmtLayoutAt(w: seq<byte>, channels: int, sampleRate: int, byteRate: int, blockAlign: int)
    requires 36 <= |w| && w[12..36] == FmtChunk(channels, sampleRate, byteRate, blockAlign)
    ensures w[12..16] == Ascii("fmt ")
    ensures ReadU32(w, 16) == 16 && ReadU16(w, 20) == 1
    ensures ReadU16(w, 22) == channels % 0x1_0000
    ensures ReadU32(w, 24) == sampleRate % 0x1_0000_0000
    ensures ReadU32(w, 28) == byteRate % 0x1_0000_0000
    ensures ReadU16(w, 32) == blockAlign % 0x1_0000
    ensures ReadU16(w, 34) == 16
  {
    FmtFields(channels, sampleRate, byteRate, blockAlign);
    FmtFixedAt(w, FmtChunk(channels, sampleRate, byteRate, blockAlign), channels);
    FmtRatesAt(w, FmtChunk(channels, sampleRate, byteRate, blockAlign), sampleRate, byteRate, blockAlign);
  }

  lemma FmtFixedAt(w: seq<byte>, h: seq<byte>, channels: int)
    requires 36 <= |w| && |h| == 24 && w[12..36] == h
    requires h[0..4] == Ascii("fmt ") && h[4..8] == Le32(16) && h[8..10] == Le16(1)
    requires h[10..12] == Le16(channels) && h[22..24] == Le16(16)
    ensures w[12..16] == Ascii("fmt ")
    ensures ReadU32(w, 16) == 16 && ReadU16(w, 20) == 1
    ensures ReadU16(w, 22) == channels % 0x1_0000
    ensures ReadU16(w, 34) == 16
  {
    SliceOfSlice(w, 12, 36, 0, 4);
    Le32At(w, 12, h, 4, 16);
    Le16At(w, 12, h, 8, 1);
    Le16At(w, 12, h, 10, channels);
    Le16At(w, 12, h, 22, 16);
  }

  lemma FmtRatesAt(w: seq<byte>, h: seq<byte>, sampleRate: int, byteRate: int, blockAlign: int)
    requires 36 <= |w| && |h| == 24 && w[12..36] == h
    requires h[12..16] == Le32(sampleRate) && h[16..20] == Le32(byteRate) && h[20..22] == Le16(blockAlign)
    ensures ReadU32(w, 24) == sampleRate % 0x1_0000_0000
    ensures ReadU32(w, 28) == byteRate % 0x1_0000_0000
    ensures ReadU16(w, 32) == blockAlign % 0x1_0000
  {
    Le32At(w, 12, h, 12, sampleRate);
    Le32At(w, 12, h, 16, byteRate);
    Le16At(w, 12, h, 20, blockAlign);
  }

  /** A 32-bit field of a chunk `h` placed at `base` in `w` reads back from `w`. */
  lemma Le32At(w: seq<byte>, base: nat, h: seq<byte>, off: nat, v: int)
    requires base + |h| <= |w| && w[base..base + |h|] == h
    requires off + 4 <= |h| && h[off..off + 4] == Le32(v)
    ensures ReadU32(w, base + off) == v % 0x1_0000_0000
  {
    SliceOfSlice(w, base, base + |h|, off, off + 4);
    ReadU32Slice(w, base + off, v);
  }

  /** A 16-bit field of a chunk `h` placed at `base` in `w` reads back from `w`. */
  lemma Le16At(w: seq<byte>, base: nat, h: seq<byte>, off: nat, v: int)
    requires base + |h| <= |w| && w[base..base + |h|] == h
    requires off + 2 <= |h| && h[off..off + 2] == Le16(v)
    ensures ReadU16(w, base + off) == v % 0x1_0000
  {
    SliceOfSlice(w, base, base + |h|, off, off + 2);
    ReadU16Slice(w, base + off, v);
  }

  lemma WavFmtLayout(pcm: seq<byte>, channels: int, sampleRate: int)
    ensures var w := WavFile(pcm, channels, sampleRate);
      && w[12..16] == Ascii("fmt ")
      && ReadU32(w, 16) == 16
      && ReadU16(w, 20) == 1
      && ReadU16(w, 22) == channels % 0x1_0000
      && ReadU32(w, 24) == sampleRate % 0x1_0000_0000
      && ReadU32(w, 28) == (sampleRate * channels * 2) % 0x1_0000_0000
      && ReadU16(w, 32) == (channels * 2) % 0x1_0000
      && ReadU16(w, 34) == 16
  {
    var w := WavFile(pcm, channels, sampleRate);
    var byteRate, blockAlign := sampleRate * channels * 2, channels * 2;
    var fmt := FmtChunk(channels, sampleRate, byteRate, blockAlign);
    var rest := DataChunkHeader(|pcm|) + pcm;
    assert w == RiffChunk(36 + |pcm|) + (fmt + rest);
    SliceRight(RiffChunk(36 + |pcm|), fmt + rest, 12, 36);
    FmtLayoutAt(w, channels, sampleRate, byteRate, blockAlign);
  }

  lemma WavDataLayout(pcm: seq<byte>, channels: int, sampleRate: int)
    ensures var w := WavFile(pcm, channels, sampleRate);
      && w[36..40] == Ascii("data")
      && ReadU32(w, 40) == |pcm| % 0x1_0000_0000
      && w[HeaderSize..] == pcm
  {
    var w := WavFile(pcm, channels, sampleRate);
    var head := RiffChunk(36 + |pcm|) + FmtChunk(channels, sampleRate, sampleRate * channels * 2, channels * 2);
    var data := DataChunkHeader(|pcm|);
    assert w == head + (data + pcm);
    SliceRight(head, data + pcm, 36, 44);
    assert w[36..44] == data;
    DataFields(|pcm|);
    assert w[36..40] == data[0..4];
    assert w[40..44] == data[4..8];
    ReadU32Slice(w, 40, |pcm|);
  }

  /** Where every field of the header sits, and what it holds. */
  lemma WavLayout(pcm: seq<byte>, channels: int, sampleRate: int)
    ensures var w := WavFile(pcm, channels, sampleRate);
      && |w| == HeaderSize + |pcm|
      && w[0..4] == Ascii("RIFF")
      && ReadU32(w, 4) == (36 + |pcm|) % 0x1_0000_0000
      && w[8..12] == Ascii("WAVE")
      && w[12..16] == Ascii("fmt ")
      && ReadU32(w, 16) == 16
      && ReadU16(w, 20) == 1
      && ReadU16(w, 22) == channels % 0x1_0000
      && ReadU32(w, 24) == sampleRate % 0x1_0000_0000
      && ReadU32(w, 28) == (sampleRate * channels * 2) % 0x1_0000_0000
      && ReadU16(w, 32) == (channels * 2) % 0x1_0000
      && ReadU16(w, 34) == 16
      && w[36..40] == Ascii("data")
      && ReadU32(w, 40) == |pcm| % 0x1_0000_0000
      && w[HeaderSize..] == pcm
  {
    WavRiffLayout(pcm, channels, sampleRate);
    WavFmtLayout(pcm, channels, sampleRate);
    WavDataLayout(pcm, channels, sampleRate);
  }

  /** `ParseWav` accepts a file whose fixed fields and sizes are right, and returns its fields. */
  lemma ParseWavFields(w: seq<byte>)
    requires |w| >= HeaderSize
    requires w[0..4] == Ascii("RIFF") && w[8..12] == Ascii("WAVE")
    requires w[12..16] == Ascii("fmt ") && w[36..40] == Ascii("data")
    requires ReadU32(w, 4) == |w| - 8 && ReadU32(w, 40) == |w| - HeaderSize
    requires ReadU32(w, 16) == 16 && ReadU16(w, 20) == 1 && ReadU16(w, 34) == 16
    ensures ParseWav(w)
         == Some(WavInfo(ReadU16(w, 22), ReadU32(w, 24), ReadU32(w, 28), ReadU16(w, 32), w[HeaderSize..]))
  {
  }

  /**
   * Reading back what the encoder wrote gives the channels, the sample rate, the derived byte
   * rate and block align, and the payload, as long as no field overflowed its width.
   */
  lemma WavRoundTrip(pcm: seq<byte>, channels: int32, sampleRate: int32)
    requires 0 <= channels < 0x1_0000 && 0 <= sampleRate
    requires 36 + |pcm| < 0x1_0000_0000
    ensures ParseWav(WavFile(pcm, channels, sampleRate))
         == Some(WavInfo(channels, sampleRate, (sampleRate * channels * 2) % 0x1_0000_0000,
                         (channels * 2) % 0x1_0000, pcm))
  {
    var w := WavFile(pcm, channels, sampleRate);
    SmallU32(36 + |pcm|);
    SmallU32(|pcm|);
    SmallU16(channels);
    SmallU32(sampleRate);
    WavRiffLayout(pcm, channels, sampleRate);
    WavDataLayout(pcm, channels, sampleRate);
    WavFmtLayout(pcm, channels, sampleRate);
    ParseWavFields(w);
  }

  /** The full law for a quantised clip: the WAV bytes give back every sample. */
  lemma ClipRoundTrip(clip: AudioClip)
    requires 0 <= clip.channels < 0x1_0000 && 0 <= clip.frequency
    requires 36 + 2 * |clip.samples| < 0x1_0000_0000
    ensures match ParseWav(WavFile(PcmBytes(clip.samples), clip.channels, clip.frequency))
      case Some(info) =>
        && info.channels == clip.channels
        && info.sampleRate == clip.frequency
        && DecodePcm(info.pcm) == clip.samples
      case None => false
  {
    WavRoundTrip(PcmBytes(clip.samples), clip.channels, clip.frequency);
    PcmRoundTrip(clip.samples);
  }

  // ---------------------------------------------------------------- the writer

  /** A `BinaryWriter` over a growing `MemoryStream`: `written` is the stream's contents. */
  class BinaryWriter {
    var written: seq<byte>

    constructor ()
      ensures written == []
    {
      written := [];
    }

    method WriteBytes(b: seq<byte>)
      modifies this
      ensures written == old(written) + b
    {
      written := written + b;
    }

    /** `Write(int)`: four bytes, little-endian. */
    method WriteInt32(v: int32)
      modifies this
      ensures written == old(written) + Le32(v)
    {
      written := written + Le32(v);
    }

    /** `Write(short)`: two bytes, little-endian. */
    method WriteInt16(v: int16)
      modifies this
      ensures written == old(written) + Le16(v)
    {
      written := written + Le16(v);
    }

    /** `MemoryStream.ToArray`: a fresh array holding the stream's contents. */
    method ToArray() returns (a: array<byte>)
      ensures fresh(a)
      ensures a[..] == written
    {
      a := new byte[|written|](i requires 0 <= i < |written| reads this => written[i]);
    }
  }

  /** C#'s wrapping `int` arithmetic and `(short)` casts leave every header field's bytes unchanged. */
  lemma WrappedHeaderAgrees(length: int, channels: int, sampleRate: int)
    ensures RiffChunk(WrapInt32(36 + WrapInt32(length) as int)) == RiffChunk(36 + length)
    ensures FmtChunk(WrapInt16(channels), sampleRate, WrapInt32(sampleRate * channels * 2),
                     WrapInt16(WrapInt32(channels * 2)))
         == FmtChunk(channels, sampleRate, sampleRate * channels * 2, channels * 2)
    ensures DataChunkHeader(WrapInt32(length)) == DataChunkHeader(length)
    ensures RiffChunk(WrapInt32(36 + WrapInt32(length) as int))
          + FmtChunk(WrapInt16(channels), sampleRate, WrapInt32(sampleRate * channels * 2),
                     WrapInt16(WrapInt32(channels * 2)))
          + DataChunkHeader(WrapInt32(length))
         == WavHeader(length, channels, sampleRate)
  {
    var size := WrapInt32(length);
    Le32Congruent(WrapInt32(36 + size as int), 36 + size as int);
    Le32Congruent(36 + size as int, 36 + length);
    Le32Congruent(size, length);
    Le16Congruent(WrapInt16(channels), channels);
    Le32Congruent(WrapInt32(sampleRate * channels * 2), sampleRate * channels * 2);
    var blockAlign := WrapInt32(channels * 2);
    Mod32To16(blockAlign, channels * 2);
    Le16Congruent(blockAlign, channels * 2);
    Le16Congruent(WrapInt16(blockAlign), blockAlign);
  }

  /** The "RIFF header" writes of `AddWavHeader`. */
  method WriteRiffChunk(writer: BinaryWriter, chunkSize: int32)
    modifies writer
    ensures writer.written == old(writer.written) + RiffChunk(chunkSize)
  {
    writer.WriteBytes(Ascii("RIFF"));
    writer.WriteInt32(chunkSize);
    writer.WriteBytes(Ascii("WAVE"));
  }

  /** The "fmt subchunk" writes of `AddWavHeader`. */
  method WriteFmtChunk(writer: BinaryWriter, channels: int16, sampleRate: int32, byteRate: int32, blockAlign: int16)
    modifies writer
    ensures writer.written == old(writer.written) + FmtChunk(channels, sampleRate, byteRate, blockAlign)
  {
    writer.WriteBytes(Ascii("fmt "));
    writer.WriteInt32(16);               // sub-chunk size for PCM
    writer.WriteInt16(1);                // audio format: PCM
    writer.WriteInt16(channels);
    writer.WriteInt32(sampleRate);
    writer.WriteInt32(byteRate);
    writer.WriteInt16(blockAlign);
    writer.WriteInt16(16);               // bits per sample
  }

  /** The "data subchunk" writes of `AddWavHeader`: its header, then the payload. */
  method WriteDataChunk(writer: BinaryWriter, subChunk2Size: int32, pcmData: array<byte>)
    modifies writer
    ensures writer.written == old(writer.written) + DataChunkHeader(subChunk2Size) + pcmData[..]
  {
    writer.WriteBytes(Ascii("data"));
    writer.WriteInt32(subChunk2Size);
    writer.WriteBytes(pcmData[..]);
  }

  /**
   * `AddWavHeader`: computes the header fields with C#'s wrapping `int` arithmetic and
   * `(short)` casts, writes the three chunks one after another, and returns the stream's bytes.
   */
  method AddWavHeader(pcmData: array<byte>, channels: int32, sampleRate: int32) returns (wavBytes: array<byte>)
    ensures fresh(wavBytes)
    ensures wavBytes[..] == WavFile(pcmData[..], channels, sampleRate)
  {
    ghost var pcm := pcmData[..];
    var writer := new BinaryWriter();

    var byteRate := WrapInt32(sampleRate * channels * 2);
    var blockAlign := WrapInt32(channels * 2);
    var subChunk2Size := WrapInt32(pcmData.Length);
    var chunkSize := WrapInt32(36 + subChunk2Size as int);

    ghost var riff := RiffChunk(chunkSize);
    ghost var fmt := FmtChunk(WrapInt16(channels), sampleRate, byteRate, WrapInt16(blockAlign));
    ghost var data := DataChunkHeader(subChunk2Size);
    WriteRiffChunk(writer, chunkSize);
    assert writer.written == riff;
    WriteFmtChunk(writer, WrapInt16(channels), sampleRate, byteRate, WrapInt16(blockAlign));
    assert writer.written == riff + fmt;
    WriteDataChunk(writer, subChunk2Size, pcmData);
    assert writer.written == riff + fmt + data + pcm;
    WrappedHeaderAgrees(|pcm|, channels, sampleRate);
    assert riff + fmt + data == WavHeader(|pcm|, channels, sampleRate);

    wavBytes := writer.ToArray();
  }

  /** `AudioClipToWav` from an already-quantised clip: pack the samples, then add the header. */
  method AudioClipToWav(clip: AudioClip) returns (wav: array<byte>)
    ensures fresh(wav)
    ensures wav[..] == WavFile(PcmBytes(clip.samples), clip.channels, clip.frequency)
    ensures wav.Length == HeaderSize + 2 * |clip.samples|
  {
    var bytesData := PackPcm(clip.samples);
    wav := AddWavHeader(bytesData, clip.channels, clip.frequency);
  }
}
