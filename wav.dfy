/**
 * The WAV encoder of the web client (`encodeWAV` and `writeStr`): a canonical 44-byte RIFF/WAVE
 * header for mono 16-bit PCM followed by the samples, each clamped to [-1, 1], scaled and stored
 * as a little-endian Int16. The buffer is an array filled in place, as the DataView writes do.
 */
module Wav {

  import opened Wrappers

  type byte = x: int | 0 <= x < 256

  const HeaderSize: nat := 44
  const DefaultSampleRate: int := 16000
  const NumChannels: int := 1
  const BitsPerSample: int := 16
  const BytesPerSample: nat := 2

  /* ---------- byte-level encodings used by the DataView setters ---------- */

  /** `setUint32(off, v, true)`: ToUint32 (reduction modulo 2^32), then four bytes, least significant first. */
  function Uint32Le(v: int): (r: seq<byte>)
    ensures |r| == 4
  {
    var u := v % 0x1_0000_0000;
    [u % 256, (u / 0x100) % 256, (u / 0x1_0000) % 256, (u / 0x100_0000) % 256]
  }

  /** `setUint16(off, v, true)` and `setInt16(off, v, true)`: both reduce modulo 2^16 and store two bytes. */
  function Uint16Le(v: int): (r: seq<byte>)
    ensures |r| == 2
  {
    var u := v % 0x1_0000;
    [u % 256, u / 256]
  }

  /** `writeStr`: one byte per character, the character code reduced by `setUint8` modulo 256. */
  function AsciiBytes(s: string): (r: seq<byte>)
    ensures |r| == |s|
    ensures forall i :: 0 <= i < |s| && (s[i] as int) < 256 ==> r[i] == s[i] as int
  {
    seq(|s|, i requires 0 <= i < |s| => (s[i] as int) % 256)
  }

  /** The chunk tags as ASCII codes: "RIFF", "WAVE", "fmt " and "data". */
  const RiffTag: seq<byte> := [0x52, 0x49, 0x46, 0x46]
  const WaveTag: seq<byte> := [0x57, 0x41, 0x56, 0x45]
  const FmtTag: seq<byte> := [0x66, 0x6d, 0x74, 0x20]
  const DataTag: seq<byte> := [0x64, 0x61, 0x74, 0x61]

  /* ---------- the reading side: a standard little-endian decoder ---------- */

  function ReadUint16Le(b: seq<byte>, off: nat): int
    requires off + 2 <= |b|
  {
    b[off] as int + 256 * (b[off + 1] as int)
  }

  function ReadUint32Le(b: seq<byte>, off: nat): int
    requires off + 4 <= |b|
  {
    b[off] as int + 0x100 * (b[off + 1] as int) + 0x1_0000 * (b[off + 2] as int) + 0x100_0000 * (b[off + 3] as int)
  }

  /** A two's-complement reading of the 16-bit word at `off`. */
  function ReadInt16Le(b: seq<byte>, off: nat): (r: int)
    requires off + 2 <= |b|
    ensures -0x8000 <= r < 0x8000
  {
    var u := ReadUint16Le(b, off);
    if u >= 0x8000 then u - 0x1_0000 else u
  }

  lemma Uint16RoundTrip(v: int)
    ensures ReadUint16Le(Uint16Le(v), 0) == v % 0x1_0000
  {
  }

  lemma {:induction false} Uint32RoundTrip(v: int)
    ensures ReadUint32Le(Uint32Le(v), 0) == v % 0x1_0000_0000
  {
    var u := v % 0x1_0000_0000;
    var q1, q2, q3 := u / 0x100, u / 0x1_0000, u / 0x100_0000;
    assert u == u % 256 + 0x100 * q1;
    assert q1 == q1 % 256 + 0x100 * q2 by {
      assert q2 == q1 / 0x100;
    }
    assert q2 == q2 % 256 + 0x100 * q3 by {
      assert q3 == q2 / 0x100;
    }
    assert q3 % 256 == q3;
  }

  /** Int16 storage is exact on the whole signed 16-bit range. */
  lemma Int16RoundTrip(q: int)
    requires -0x8000 <= q < 0x8000
    ensures ReadInt16Le(Uint16Le(q), 0) == q
  {
    Uint16RoundTrip(q);
  }

  /* ---------- sample quantization ---------- */

  /** The sample clamped to [-1, 1]. */
  function Clamp(x: real): (r: real)
    ensures -1.0 <= r <= 1.0
    ensures -1.0 <= x <= 1.0 ==> r == x
    ensures x < -1.0 ==> r == -1.0
    ensures x > 1.0 ==> r == 1.0
  {
    if x > 1.0 then 1.0 else if x < -1.0 then -1.0 else x
  }

  /** ToInt16's first step: truncation toward zero (Dafny's `Floor` rounds toward minus infinity). */
  function TruncToZero(x: real): (r: int)
    ensures x >= 0.0 ==> r as real <= x < r as real + 1.0
    ensures x < 0.0 ==> r as real - 1.0 < x <= r as real
  {
    if x >= 0.0 then x.Floor else -((-x).Floor)
  }

  /** The scale a clamped sample is multiplied by: 0x8000 for negatives, 0x7fff otherwise. */
  function Scale(c: real): real
  {
    if c < 0.0 then 32768.0 else 32767.0
  }

  /** The Int16 value written for one float sample. */
  function Quantize(x: real): int
  {
    var c := Clamp(x);
    TruncToZero(c * Scale(c))
  }

  /** Every stored sample lies in the signed 16-bit range, so ToInt16's wrap-around never applies. */
  lemma QuantizeInRange(x: real)
    ensures -0x8000 <= Quantize(x) <= 0x7fff
  {
    var c := Clamp(x);
    if c < 0.0 {
      assert -32768.0 <= c * 32768.0 < 0.0;
    } else {
      assert 0.0 <= c * 32767.0 <= 32767.0;
    }
  }

  /** Quantization error: the stored value is within one step of the scaled clamped sample, toward zero. */
  lemma QuantizeError(x: real)
    ensures var c := Clamp(x); var q := Quantize(x) as real;
      (c >= 0.0 ==> 0.0 <= c * 32767.0 - q < 1.0) && (c < 0.0 ==> 0.0 <= q - c * 32768.0 < 1.0)
  {
  }

  /** Quantization keeps the sign: negative samples give non-positive values, the rest non-negative ones. */
  lemma QuantizeSign(x: real)
    ensures Clamp(x) >= 0.0 ==> Quantize(x) >= 0
    ensures Clamp(x) < 0.0 ==> Quantize(x) <= 0
    ensures x >= 1.0 ==> Quantize(x) == 0x7fff
    ensures x <= -1.0 ==> Quantize(x) == -0x8000
  {
  }

  /* ---------- the encoded image ---------- */

  /** The RIFF chunk descriptor: "RIFF", the RIFF size, "WAVE" (bytes 0-11). */
  function RiffDescriptor(dataLength: int): (d: seq<byte>)
    ensures |d| == 12
  {
    AsciiBytes("RIFF") + Uint32Le(36 + dataLength) + AsciiBytes("WAVE")
  }

  /** The "fmt " sub-chunk for mono PCM at `sampleRate`, 16 bits per sample (bytes 12-35). */
  function FmtChunk(sampleRate: int): (f: seq<byte>)
    ensures |f| == 24
  {
    AsciiBytes("fmt ") + Uint32Le(16) + Uint16Le(1) + Uint16Le(NumChannels)
    + Uint32Le(sampleRate) + Uint32Le(sampleRate * NumChannels * BytesPerSample)
    + Uint16Le(NumChannels * BytesPerSample) + Uint16Le(BitsPerSample)
  }

  /** The "data" sub-chunk header (bytes 36-43). */
  function DataChunkHeader(dataLength: int): (d: seq<byte>)
    ensures |d| == 8
  {
    AsciiBytes("data") + Uint32Le(dataLength)
  }

  /** The 44 header bytes `encodeWAV` writes for `n` samples at `sampleRate`. */
  function Header(n: nat, sampleRate: int): (h: seq<byte>)
    ensures |h| == HeaderSize
  {
    RiffDescriptor(n * BytesPerSample) + FmtChunk(sampleRate) + DataChunkHeader(n * BytesPerSample)
  }

  /** Where each header field sits. */
  lemma HeaderLayout(n: nat, sampleRate: int)
    ensures var h := Header(n, sampleRate);
      && h[0..4] == AsciiBytes("RIFF") && h[4..8] == Uint32Le(36 + 2 * n) && h[8..12] == AsciiBytes("WAVE")
      && h[12..16] == AsciiBytes("fmt ") && h[16..20] == Uint32Le(16) && h[20..22] == Uint16Le(1)
      && h[22..24] == Uint16Le(1) && h[24..28] == Uint32Le(sampleRate)
      && h[28..32] == Uint32Le(sampleRate * 2) && h[32..34] == Uint16Le(2) && h[34..36] == Uint16Le(16)
      && h[36..40] == AsciiBytes("data") && h[40..44] == Uint32Le(2 * n)
  {
    var r, f, d := RiffDescriptor(2 * n), FmtChunk(sampleRate), DataChunkHeader(2 * n);
    var h := Header(n, sampleRate);
    assert h[0..12] == r && h[12..36] == f && h[36..44] == d;
    assert h[0..4] == r[0..4] && h[4..8] == r[4..8] && h[8..12] == r[8..12];
    assert h[12..16] == f[0..4] && h[16..20] == f[4..8] && h[20..22] == f[8..10] && h[22..24] == f[10..12];
    assert h[24..28] == f[12..16] && h[28..32] == f[16..20] && h[32..34] == f[20..22] && h[34..36] == f[22..24];
    assert h[36..40] == d[0..4] && h[40..44] == d[4..8];
  }

  /** The PCM payload: two little-endian bytes per quantized sample. */
  function Pcm(samples: seq<real>): (p: seq<byte>)
    ensures |p| == BytesPerSample * |samples|
  {
    if samples == [] then [] else Uint16Le(Quantize(samples[0])) + Pcm(samples[1..])
  }

  /** The whole WAV image. */
  function WavImage(samples: seq<real>, sampleRate: int := DefaultSampleRate): seq<byte>
  {
    Header(|samples|, sampleRate) + Pcm(samples)
  }

  lemma {:induction false} PcmAt(samples: seq<real>, i: nat)
    requires i < |samples|
    ensures Pcm(samples)[2 * i .. 2 * i + 2] == Uint16Le(Quantize(samples[i]))
  {
    if i > 0 {
      PcmAt(samples[1..], i - 1);
      var rest := Pcm(samples[1..]);
      assert Pcm(samples) == Uint16Le(Quantize(samples[0])) + rest;
      assert Pcm(samples)[2 * i .. 2 * i + 2] == rest[2 * (i - 1) .. 2 * (i - 1) + 2];
    }
  }

  /** The output is exactly 44 + 2n bytes long. */
  lemma WavLength(samples: seq<real>, sampleRate: int)
    ensures |WavImage(samples, sampleRate)| == HeaderSize + 2 * |samples|
  {
  }

  /** The four ASCII chunk tags sit at offsets 0, 8, 12 and 36. */
  lemma WavTags(samples: seq<real>, sampleRate: int)
    ensures var w := WavImage(samples, sampleRate);
      && w[0..4] == RiffTag && w[8..12] == WaveTag && w[12..16] == FmtTag && w[36..40] == DataTag
  {
    var w := WavImage(samples, sampleRate);
    var h := Header(|samples|, sampleRate);
    HeaderLayout(|samples|, sampleRate);
    assert w[0..4] == h[0..4] && w[8..12] == h[8..12] && w[12..16] == h[12..16] && w[36..40] == h[36..40];
  }

  /** The numeric header fields, as a standard little-endian reader sees them. */
  lemma WavFields(samples: seq<real>, sampleRate: int)
    ensures var w := WavImage(samples, sampleRate); var dataLength := 2 * |samples|;
      && ReadUint32Le(w, 4) == (36 + dataLength) % 0x1_0000_0000
      && ReadUint32Le(w, 16) == 16
      && ReadUint16Le(w, 20) == 1
      && ReadUint16Le(w, 22) == 1
      && ReadUint32Le(w, 24) == sampleRate % 0x1_0000_0000
      && ReadUint32Le(w, 28) == (sampleRate * 2) % 0x1_0000_0000
      && ReadUint16Le(w, 32) == 2
      && ReadUint16Le(w, 34) == 16
      && ReadUint32Le(w, 40) == dataLength % 0x1_0000_0000
  {
    var w := WavImage(samples, sampleRate);
    var n := |samples|;
    var pcm, mono, fmtSize, align, bits := 1, NumChannels, 16, 2, BitsPerSample;
    assert w[..HeaderSize] == Header(n, sampleRate);
    HeaderLayout(n, sampleRate);
    FieldAt32(w, 4, 36 + 2 * n);
    FieldAt32(w, 16, fmtSize);
    FieldAt16(w, 20, pcm);
    FieldAt16(w, 22, mono);
    FieldAt32(w, 24, sampleRate);
    FieldAt32(w, 28, sampleRate * 2);
    FieldAt16(w, 32, align);
    FieldAt16(w, 34, bits);
    FieldAt32(w, 40, 2 * n);
  }

  /** A 32-bit header field written at `off` reads back modulo 2^32 from the whole image. */
  lemma FieldAt32(w: seq<byte>, off: nat, v: int)
    requires off + 4 <= HeaderSize <= |w|
    requires w[..HeaderSize][off .. off + 4] == Uint32Le(v)
    ensures ReadUint32Le(w, off) == v % 0x1_0000_0000
  {
    assert w[off .. off + 4] == w[..HeaderSize][off .. off + 4];
    Uint32At(w, off, v);
  }

  /** A 16-bit header field written at `off` reads back modulo 2^16 from the whole image. */
  lemma FieldAt16(w: seq<byte>, off: nat, v: int)
    requires off + 2 <= HeaderSize <= |w|
    requires w[..HeaderSize][off .. off + 2] == Uint16Le(v)
    ensures ReadUint16Le(w, off) == v % 0x1_0000
  {
    assert w[off .. off + 2] == w[..HeaderSize][off .. off + 2];
    Uint16At(w, off, v);
  }

  lemma Uint32At(w: seq<byte>, off: nat, v: int)
    requires off + 4 <= |w| && w[off .. off + 4] == Uint32Le(v)
    ensures ReadUint32Le(w, off) == v % 0x1_0000_0000
  {
    Uint32RoundTrip(v);
    assert ReadUint32Le(w, off) == ReadUint32Le(Uint32Le(v), 0);
  }

  lemma Uint16At(w: seq<byte>, off: nat, v: int)
    requires off + 2 <= |w| && w[off .. off + 2] == Uint16Le(v)
    ensures ReadUint16Le(w, off) == v % 0x1_0000
  {
    Uint16RoundTrip(v);
    assert ReadUint16Le(w, off) == ReadUint16Le(Uint16Le(v), 0);
  }

  /** Sample i occupies bytes 44+2i and 45+2i, and reads back as its quantized value. */
  lemma WavSampleAt(samples: seq<real>, sampleRate: int, i: nat)
    requires i < |samples|
    ensures var w := WavImage(samples, sampleRate);
      && w[44 + 2 * i .. 46 + 2 * i] == Uint16Le(Quantize(samples[i]))
      && ReadInt16Le(w, 44 + 2 * i) == Quantize(samples[i])
  {
    var w := WavImage(samples, sampleRate);
    PcmAt(samples, i);
    assert w[44 + 2 * i .. 46 + 2 * i] == Pcm(samples)[2 * i .. 2 * i + 2];
    QuantizeInRange(samples[i]);
    Int16RoundTrip(Quantize(samples[i]));
    assert ReadInt16Le(w, 44 + 2 * i) == ReadInt16Le(Uint16Le(Quantize(samples[i])), 0);
  }

  /* ---------- a reference decoder and the round trip ---------- */

  datatype Format = Format(sampleRate: int, sampleCount: nat)

  /**
   * What a standard reader recovers from a mono 16-bit PCM WAV image: the tags must be in place, the
   * format block must say PCM, one channel, 16 bits, and the data chunk must fit in the buffer.
   */
  function ParseWav(w: seq<byte>): (r: Option<Format>)
    ensures r.Some? ==> HeaderSize + 2 * r.value.sampleCount <= |w|
  {
    if |w| < HeaderSize then None
    else if w[0..4] != RiffTag || w[8..12] != WaveTag || w[12..16] != FmtTag || w[36..40] != DataTag
    then None
    else if ReadUint16Le(w, 20) != 1 || ReadUint16Le(w, 22) != 1 || ReadUint16Le(w, 34) != 16
    then None
    else
      var dataLength := ReadUint32Le(w, 40);
      if dataLength % 2 != 0 || HeaderSize + dataLength > |w| then None
      else Some(Format(ReadUint32Le(w, 24), dataLength / 2))
  }

  /** The samples a standard reader recovers, given the count from the header. */
  function ReadSamples(w: seq<byte>, n: nat): (r: seq<int>)
    requires HeaderSize + 2 * n <= |w|
    ensures |r| == n
  {
    seq(n, i requires 0 <= i < n => ReadInt16Le(w, HeaderSize + 2 * i))
  }

  /** What `ParseWav` accepts: tags in place, PCM mono 16-bit, and an even data length that fits. */
  lemma ParseWavAccepts(w: seq<byte>, sampleRate: int, n: nat)
    requires HeaderSize + 2 * n <= |w|
    requires w[0..4] == RiffTag && w[8..12] == WaveTag && w[12..16] == FmtTag && w[36..40] == DataTag
    requires ReadUint16Le(w, 20) == 1 && ReadUint16Le(w, 22) == 1 && ReadUint16Le(w, 34) == 16
    requires ReadUint32Le(w, 24) == sampleRate && ReadUint32Le(w, 40) == 2 * n
    ensures ParseWav(w) == Some(Format(sampleRate, n))
  {
  }

  /** ToUint32 leaves values already in [0, 2^32) unchanged. */
  lemma ReduceUint32(x: int)
    requires 0 <= x < 0x1_0000_0000
    ensures x % 0x1_0000_0000 == x
  {
  }

  /** Decoding the header of an encoded buffer recovers the sample rate and the sample count exactly. */
  lemma WavHeaderRoundTrip(samples: seq<real>, sampleRate: int)
    requires 0 <= sampleRate < 0x1_0000_0000
    requires 36 + 2 * |samples| < 0x1_0000_0000
    ensures ParseWav(WavImage(samples, sampleRate)) == Some(Format(sampleRate, |samples|))
  {
    var w := WavImage(samples, sampleRate);
    WavLength(samples, sampleRate);
    WavTags(samples, sampleRate);
    WavFields(samples, sampleRate);
    ReduceUint32(sampleRate);
    ReduceUint32(2 * |samples|);
    ParseWavAccepts(w, sampleRate, |samples|);
  }

  /** Decoding the payload of an encoded buffer recovers every quantized sample, in order. */
  lemma WavSamplesRoundTrip(samples: seq<real>, sampleRate: int)
    ensures ReadSamples(WavImage(samples, sampleRate), |samples|)
         == seq(|samples|, i requires 0 <= i < |samples| => Quantize(samples[i]))
  {
    var w := WavImage(samples, sampleRate);
    forall i | 0 <= i < |samples|
      ensures ReadSamples(w, |samples|)[i] == Quantize(samples[i])
    {
      WavSampleAt(samples, sampleRate, i);
    }
  }

  /* ---------- the encoder ---------- */

  /** `writeStr`: writes one byte per character starting at `off`; no other byte changes. */
  method WriteStr(buf: array<byte>, off: nat, s: string)
    requires off + |s| <= buf.Length
    modifies buf
    ensures buf[..off + |s|] == old(buf[..off]) + AsciiBytes(s)
    ensures forall k :: off + |s| <= k < buf.Length ==> buf[k] == old(buf[k])
  {
    for i := 0 to |s|
      invariant buf[..off + i] == old(buf[..off]) + AsciiBytes(s)[..i]
      invariant forall k :: off + i <= k < buf.Length ==> buf[k] == old(buf[k])
    {
      buf[off + i] := (s[i] as int) % 256;
      assert buf[..off + i + 1] == buf[..off + i] + [buf[off + i]];
    }
  }

  /** A DataView setter: stores `b` at `off`; no other byte changes. */
  method SetBytes(buf: array<byte>, off: nat, b: seq<byte>)
    requires off + |b| <= buf.Length
    modifies buf
    ensures buf[..off + |b|] == old(buf[..off]) + b
    ensures forall k :: off + |b| <= k < buf.Length ==> buf[k] == old(buf[k])
  {
    for i := 0 to |b|
      invariant buf[..off + i] == old(buf[..off]) + b[..i]
      invariant forall k :: off + i <= k < buf.Length ==> buf[k] == old(buf[k])
    {
      buf[off + i] := b[i];
      assert buf[..off + i + 1] == buf[..off + i] + [buf[off + i]];
    }
  }

  /** Bytes 0-11 of `encodeWAV`'s header writes: "RIFF", the RIFF size, "WAVE". */
  method WriteRiffDescriptor(buf: array<byte>, dataLength: int)
    requires 12 <= buf.Length
    modifies buf
    ensures buf[..12] == RiffDescriptor(dataLength)
    ensures forall k :: 12 <= k < buf.Length ==> buf[k] == old(buf[k])
  {
    WriteStr(buf, 0, "RIFF");
    SetBytes(buf, 4, Uint32Le(36 + dataLength));
    WriteStr(buf, 8, "WAVE");
  }

  /** Bytes 12-35: the "fmt " sub-chunk; nothing before offset 12 or after offset 35 changes. */
  method WriteFmtChunk(buf: array<byte>, sampleRate: int)
    requires 36 <= buf.Length
    modifies buf
    ensures buf[..36] == old(buf[..12]) + FmtChunk(sampleRate)
    ensures forall k :: 36 <= k < buf.Length ==> buf[k] == old(buf[k])
  {
    var byteRate := sampleRate * NumChannels * (BitsPerSample / 8);
    var blockAlign := NumChannels * (BitsPerSample / 8);
    WriteStr(buf, 12, "fmt ");
    SetBytes(buf, 16, Uint32Le(16));
    SetBytes(buf, 20, Uint16Le(1));
    SetBytes(buf, 22, Uint16Le(NumChannels));
    SetBytes(buf, 24, Uint32Le(sampleRate));
    SetBytes(buf, 28, Uint32Le(byteRate));
    SetBytes(buf, 32, Uint16Le(blockAlign));
    SetBytes(buf, 34, Uint16Le(BitsPerSample));
  }

  /** Bytes 36-43: the "data" sub-chunk header; nothing before offset 36 or after offset 43 changes. */
  method WriteDataChunkHeader(buf: array<byte>, dataLength: int)
    requires 44 <= buf.Length
    modifies buf
    ensures buf[..44] == old(buf[..36]) + DataChunkHeader(dataLength)
    ensures forall k :: 44 <= k < buf.Length ==> buf[k] == old(buf[k])
  {
    WriteStr(buf, 36, "data");
    SetBytes(buf, 40, Uint32Le(dataLength));
  }

  /** The header writes of `encodeWAV`, in the source's order (offsets 0 to 43, left to right). */
  method WriteHeader(buf: array<byte>, n: nat, sampleRate: int)
    requires HeaderSize <= buf.Length
    modifies buf
    ensures buf[..HeaderSize] == Header(n, sampleRate)
    ensures forall k :: HeaderSize <= k < buf.Length ==> buf[k] == old(buf[k])
  {
    var dataLength := n * (BitsPerSample / 8);
    WriteRiffDescriptor(buf, dataLength);
    WriteFmtChunk(buf, sampleRate);
    WriteDataChunkHeader(buf, dataLength);
  }

  /** One iteration of the sample loop: clamp, scale by 0x8000 or 0x7fff, `setInt16` at `off`. */
  method WriteSample(buf: array<byte>, off: nat, x: real)
    requires off + 2 <= buf.Length
    modifies buf
    ensures buf[..off + 2] == old(buf[..off]) + Uint16Le(Quantize(x))
    ensures forall k :: off + 2 <= k < buf.Length ==> buf[k] == old(buf[k])
  {
    var s := Clamp(x);
    SetBytes(buf, off, Uint16Le(TruncToZero(s * Scale(s))));
  }

  /** `encodeWAV`: a fresh buffer of 44 + 2n bytes, the header, then one Int16 per sample. */
  method EncodeWav(samples: seq<real>, sampleRate: int := DefaultSampleRate) returns (buf: array<byte>)
    ensures buf[..] == WavImage(samples, sampleRate)
  {
    var dataLength := |samples| * (BitsPerSample / 8);
    buf := new byte[HeaderSize + dataLength];
    WriteHeader(buf, |samples|, sampleRate);

    ghost var header := Header(|samples|, sampleRate);
    var offset := HeaderSize;
    for i := 0 to |samples|
      invariant offset == HeaderSize + 2 * i
      invariant buf[..offset] == header + Pcm(samples[..i])
    {
      WriteSample(buf, offset, samples[i]);
      PcmSnoc(samples, i);
      offset := offset + 2;
    }
    assert samples[..|samples|] == samples;
    assert buf[..] == buf[..offset];
  }

  lemma {:induction false} PcmSnoc(samples: seq<real>, i: nat)
    requires i < |samples|
    ensures Pcm(samples[..i + 1]) == Pcm(samples[..i]) + Uint16Le(Quantize(samples[i]))
  {
    PcmAppend(samples[..i], [samples[i]]);
    assert samples[..i] + [samples[i]] == samples[..i + 1];
    assert Pcm([samples[i]]) == Uint16Le(Quantize(samples[i])) + Pcm([]);
  }

  lemma {:induction false} PcmAppend(a: seq<real>, b: seq<real>)
    ensures Pcm(a + b) == Pcm(a) + Pcm(b)
  {
    if a != [] {
      PcmAppend(a[1..], b);
      assert (a + b)[1..] == a[1..] + b;
    } else {
      assert a + b == b;
    }
  }
}
