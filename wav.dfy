/** The recording back end of the voice-painting app ("Sesini Ressam Yap"): PCM chunks
    captured from the microphone are merged, converted from floats to signed 16-bit
    samples, and written into a RIFF WAVE file (mono, 16 bits per sample); the finished
    pictures are kept in a short gallery. */
module WavEncoding {
  import opened Wrappers
  import opened Json

  type byte = x: int | 0 <= x < 256
  type int16 = x: int | -32768 <= x < 32768

  const Two16: int := 0x1_0000
  const Two32: int := 0x1_0000_0000

  // ---------------------------------------------------------------------------
  // Float samples to 16-bit PCM
  // ---------------------------------------------------------------------------

  /** One float sample as a 16-bit sample: clamped to [-1, 1], then scaled by 0x8000
      below zero and by 0x7fff from zero up, and truncated toward zero as a store into an
      Int16Array does. */
  function Pcm(x: real): (r: int16)
    ensures x >= 1.0 ==> r == 32767
    ensures x <= -1.0 ==> r == -32768
    ensures x == 0.0 ==> r == 0
    ensures (x < 0.0 <==> r < 0) || (x < 0.0 && x > -1.0 / 32768.0 && r == 0)
  {
    var s := if x < -1.0 then -1.0 else if x > 1.0 then 1.0 else x;
    var v := if s < 0.0 then s * 32768.0 else s * 32767.0;
    var t := Trunc(v);
    assert -32768 <= t <= 32767 by {
      if s < 0.0 {
        assert -32768.0 <= v < 0.0;
        assert (-v).Floor <= 32768;
      } else {
        assert 0.0 <= v <= 32767.0;
      }
    }
    t
  }

  /** Louder input never gives a smaller sample. */
  lemma PcmMonotonic(x: real, y: real)
    requires x <= y
    ensures Pcm(x) <= Pcm(y)
  {
    var sx := if x < -1.0 then -1.0 else if x > 1.0 then 1.0 else x;
    var sy := if y < -1.0 then -1.0 else if y > 1.0 then 1.0 else y;
    assert sx <= sy;
    if sx < 0.0 && sy < 0.0 {
      assert (-(sy * 32768.0)).Floor <= (-(sx * 32768.0)).Floor;
    } else if sx >= 0.0 && sy >= 0.0 {
      assert (sx * 32767.0).Floor <= (sy * 32767.0).Floor;
    }
  }

  /** floatTo16BitPCM: a new sample array of the same length, element by element. */
  method FloatTo16BitPCM(input: array<real>) returns (output: array<int16>)
    ensures fresh(output) && output.Length == input.Length
    ensures forall i :: 0 <= i < input.Length ==> output[i] == Pcm(input[i])
  {
    output := new int16[input.Length];
    var i := 0;
    while i < input.Length
      invariant 0 <= i <= input.Length
      invariant forall j :: 0 <= j < i ==> output[j] == Pcm(input[j])
    {
      output[i] := Pcm(input[i]);
      i := i + 1;
    }
  }

  // ---------------------------------------------------------------------------
  // Byte layout
  // ---------------------------------------------------------------------------

  /** DataView.setUint16(offset, v, true) and setInt16: the low 16 bits, low byte first
      (Dafny's % and / round toward negative infinity, so a negative v gives its two's
      complement). */
  function U16LE(v: int): (r: seq<byte>)
    ensures |r| == 2
  {
    [v % 256, (v / 256) % 256]
  }

  /** DataView.setUint32(offset, v, true): the low 32 bits, low byte first. */
  function U32LE(v: int): (r: seq<byte>)
    ensures |r| == 4
  {
    [v % 256, (v / 256) % 256, (v / 0x1_0000) % 256, (v / 0x100_0000) % 256]
  }

  /** The characters of an ASCII tag, one byte each (setUint8 of charCodeAt). */
  function Tag(s: string): (r: seq<byte>)
    requires forall i :: 0 <= i < |s| ==> s[i] as int < 256
    ensures |r| == |s| && forall i :: 0 <= i < |s| ==> r[i] == s[i] as int
  {
    if s == [] then [] else [s[0] as int] + Tag(s[1..])
  }

  /** Reading a little-endian unsigned 16-bit field. */
  function ReadU16(b: seq<byte>, at: nat): nat
    requires at + 2 <= |b|
  {
    var lo: int := b[at];
    var hi: int := b[at + 1];
    lo + 256 * hi
  }

  /** Reading a little-endian unsigned 32-bit field. */
  function ReadU32(b: seq<byte>, at: nat): nat
    requires at + 4 <= |b|
  {
    var b0: int := b[at];
    var b1: int := b[at + 1];
    var b2: int := b[at + 2];
    var b3: int := b[at + 3];
    b0 + 256 * b1 + 0x1_0000 * b2 + 0x100_0000 * b3
  }

  /** Reading a little-endian two's-complement 16-bit sample. */
  function ReadI16(b: seq<byte>, at: nat): int16
    requires at + 2 <= |b|
  {
    var u := ReadU16(b, at);
    if u >= 32768 then u - Two16 else u
  }

  lemma U16RoundTrip(v: int)
    requires 0 <= v < Two16
    ensures ReadU16(U16LE(v), 0) == v
  {
  }

  lemma I16RoundTrip(v: int16)
    ensures ReadI16(U16LE(v), 0) == v
  {
    if v < 0 {
      assert v % 256 == (v + Two16) % 256;
      assert (v / 256) % 256 == ((v + Two16) / 256) % 256;
    }
  }

  lemma {:induction false} U32RoundTrip(v: int)
    ensures ReadU32(U32LE(v), 0) == v % Two32
  {
    var b := U32LE(v);
    var q1 := v / 256;
    var q2 := v / 0x1_0000;
    var q3 := v / 0x100_0000;
    assert q2 == q1 / 256;
    assert q3 == q2 / 256;
    assert v == 256 * q1 + b[0];
    assert q1 == 256 * q2 + b[1];
    assert q2 == 256 * q3 + b[2];
    assert q3 % 256 == b[3];
    assert v % Two32 == b[0] + 256 * b[1] + 0x1_0000 * b[2] + 0x100_0000 * (q3 % 256);
  }

  // ---------------------------------------------------------------------------
  // The WAVE file
  // ---------------------------------------------------------------------------

  /** The 44-byte header encodeWav writes for n samples at the given rate. */
  function WavHeader(n: nat, sampleRate: int): (r: seq<byte>)
    ensures |r| == 44
  {
    RiffHeader(n) + FormatChunk(sampleRate) + DataHeader(n)
  }

  /** "RIFF", the size of the rest of the file, "WAVE". */
  function RiffHeader(n: nat): (r: seq<byte>)
    ensures |r| == 12
  {
    Tag("RIFF") + U32LE(36 + 2 * n) + Tag("WAVE")
  }

  /** The "fmt " chunk: size 16, PCM format 1, one channel, the rate, the byte rate
      (rate * 2), block alignment 2, 16 bits per sample. */
  function FormatChunk(sampleRate: int): (r: seq<byte>)
    ensures |r| == 24
  {
    Tag("fmt ") + U32LE(16) + U16LE(1) + U16LE(1) + U32LE(sampleRate) + U32LE(sampleRate * 2)
    + U16LE(2) + U16LE(16)
  }

  /** "data" and the size of the samples in bytes. */
  function DataHeader(n: nat): (r: seq<byte>)
    ensures |r| == 8
  {
    Tag("data") + U32LE(2 * n)
  }

  /** The sample bytes: sample i at offsets 2i and 2i + 1. */
  function PcmBytes(samples: seq<int16>): (r: seq<byte>)
    ensures |r| == 2 * |samples|
  {
    seq(2 * |samples|, k requires 0 <= k < 2 * |samples| =>
      if k % 2 == 0 then U16LE(samples[k / 2])[0] else U16LE(samples[k / 2])[1])
  }

  /** A sample added at the end adds its two bytes at the end. */
  lemma PcmBytesAppend(s: seq<int16>, x: int16)
    ensures PcmBytes(s + [x]) == PcmBytes(s) + U16LE(x)
  {
    var l, r := PcmBytes(s + [x]), PcmBytes(s) + U16LE(x);
    forall k | 0 <= k < |l| ensures l[k] == r[k] {
      if k < 2 * |s| {
        assert (s + [x])[k / 2] == s[k / 2];
      }
    }
  }

  /** The whole file. */
  function WavBytes(samples: seq<int16>, sampleRate: int): (r: seq<byte>)
    ensures |r| == 44 + 2 * |samples|
  {
    WavHeader(|samples|, sampleRate) + PcmBytes(samples)
  }

  /** What a reader of the file finds in its fixed fields. */
  datatype WavInfo = WavInfo(riffSize: nat, fmtSize: nat, format: nat, channels: nat,
                             sampleRate: nat, byteRate: nat, blockAlign: nat,
                             bitsPerSample: nat, dataSize: nat)

  function ReadInfo(b: seq<byte>): WavInfo
    requires |b| >= 44
  {
    WavInfo(ReadU32(b, 4), ReadU32(b, 16), ReadU16(b, 20), ReadU16(b, 22), ReadU32(b, 24),
            ReadU32(b, 28), ReadU16(b, 32), ReadU16(b, 34), ReadU32(b, 40))
  }

  /** The header holds the four chunk tags and the mono 16-bit PCM format fields; both
      size fields are taken modulo 2^32, as setUint32 stores them, and equal 36 + 2n and
      2n whenever those fit. */
  lemma WavHeaderLayout(samples: seq<int16>, sampleRate: int)
    ensures var b := WavBytes(samples, sampleRate);
      b[0..4] == Tag("RIFF") && b[8..12] == Tag("WAVE") && b[12..16] == Tag("fmt ")
      && b[36..40] == Tag("data")
      && ReadInfo(b) == WavInfo((36 + 2 * |samples|) % Two32, 16, 1, 1, sampleRate % Two32,
                                (sampleRate * 2) % Two32, 2, 16, (2 * |samples|) % Two32)
  {
    RiffFields(samples, sampleRate);
    FormatFields(samples, sampleRate);
    DataFields(samples, sampleRate);
  }

  lemma WavChunks(samples: seq<int16>, sampleRate: int)
    ensures var b := WavBytes(samples, sampleRate);
      b[..12] == RiffHeader(|samples|) && b[12..36] == FormatChunk(sampleRate)
      && b[36..44] == DataHeader(|samples|)
  {
    SlicesOfFour(RiffHeader(|samples|), FormatChunk(sampleRate), DataHeader(|samples|), PcmBytes(samples));
  }

  /** The pieces of a concatenation are its slices at the running lengths. */
  lemma SlicesOfFour<T>(a: seq<T>, b: seq<T>, c: seq<T>, d: seq<T>)
    ensures var s := a + b + c + d;
      s[..|a|] == a && s[|a|..|a| + |b|] == b && s[|a| + |b|..|a| + |b| + |c|] == c
  {
  }

  lemma RiffFields(samples: seq<int16>, sampleRate: int)
    ensures var b := WavBytes(samples, sampleRate);
      b[0..4] == Tag("RIFF") && b[8..12] == Tag("WAVE")
      && ReadU32(b, 4) == (36 + 2 * |samples|) % Two32
  {
    var b, r := WavBytes(samples, sampleRate), RiffHeader(|samples|);
    WavChunks(samples, sampleRate);
    RiffLayout(|samples|);
    assert b[0..4] == r[0..4] && b[4..8] == r[4..8] && b[8..12] == r[8..12];
    ReadU32At(b, 4, 36 + 2 * |samples|);
  }

  lemma FormatFields(samples: seq<int16>, sampleRate: int)
    ensures var b := WavBytes(samples, sampleRate);
      b[12..16] == Tag("fmt ") && ReadU32(b, 16) == 16 && ReadU16(b, 20) == 1
      && ReadU16(b, 22) == 1 && ReadU32(b, 24) == sampleRate % Two32
      && ReadU32(b, 28) == (sampleRate * 2) % Two32 && ReadU16(b, 32) == 2
      && ReadU16(b, 34) == 16
  {
    var b, f := WavBytes(samples, sampleRate), FormatChunk(sampleRate);
    WavChunks(samples, sampleRate);
    FormatLayout(sampleRate);
    assert b[12..16] == f[0..4] && b[16..20] == f[4..8] && b[20..22] == f[8..10];
    assert b[22..24] == f[10..12] && b[24..28] == f[12..16] && b[28..32] == f[16..20];
    assert b[32..34] == f[20..22] && b[34..36] == f[22..24];
    ReadU32At(b, 16, 16);
    ReadU16At(b, 20, 1);
    ReadU16At(b, 22, 1);
    ReadU32At(b, 24, sampleRate);
    ReadU32At(b, 28, sampleRate * 2);
    ReadU16At(b, 32, 2);
    ReadU16At(b, 34, 16);
  }

  lemma DataFields(samples: seq<int16>, sampleRate: int)
    ensures var b := WavBytes(samples, sampleRate);
      b[36..40] == Tag("data") && ReadU32(b, 40) == (2 * |samples|) % Two32
  {
    var b, d := WavBytes(samples, sampleRate), DataHeader(|samples|);
    WavChunks(samples, sampleRate);
    assert b[36..40] == d[0..4] && b[40..44] == d[4..8];
    ReadU32At(b, 40, 2 * |samples|);
  }

  lemma RiffLayout(n: nat)
    ensures var r := RiffHeader(n);
      r[0..4] == Tag("RIFF") && r[4..8] == U32LE(36 + 2 * n) && r[8..12] == Tag("WAVE")
  {
  }

  lemma FormatLayout(sampleRate: int)
    ensures var f := FormatChunk(sampleRate);
      f[0..4] == Tag("fmt ") && f[4..8] == U32LE(16) && f[8..10] == U16LE(1)
      && f[10..12] == U16LE(1) && f[12..16] == U32LE(sampleRate)
      && f[16..20] == U32LE(sampleRate * 2) && f[20..22] == U16LE(2) && f[22..24] == U16LE(16)
  {
  }

  /** A 32-bit field written with setUint32 reads back modulo 2^32. */
  lemma ReadU32At(b: seq<byte>, at: nat, v: int)
    requires at + 4 <= |b| && b[at..at + 4] == U32LE(v)
    ensures ReadU32(b, at) == v % Two32
  {
    U32RoundTrip(v);
    assert b[at] == U32LE(v)[0] && b[at + 1] == U32LE(v)[1];
    assert b[at + 2] == U32LE(v)[2] && b[at + 3] == U32LE(v)[3];
  }

  /** A 16-bit field written with setUint16 reads back as itself. */
  lemma ReadU16At(b: seq<byte>, at: nat, v: int)
    requires 0 <= v < Two16
    requires at + 2 <= |b| && b[at..at + 2] == U16LE(v)
    ensures ReadU16(b, at) == v
  {
    U16RoundTrip(v);
    assert b[at] == U16LE(v)[0] && b[at + 1] == U16LE(v)[1];
  }

  /** Sample i sits at offset 44 + 2i and reads back as itself. */
  lemma WavSamplesRoundTrip(samples: seq<int16>, sampleRate: int, i: nat)
    requires i < |samples|
    ensures ReadI16(WavBytes(samples, sampleRate), 44 + 2 * i) == samples[i]
  {
    var b := WavBytes(samples, sampleRate);
    var p := PcmBytes(samples);
    assert b[44 + 2 * i] == p[2 * i] && b[45 + 2 * i] == p[2 * i + 1];
    assert (2 * i) / 2 == i && (2 * i + 1) / 2 == i;
    I16RoundTrip(samples[i]);
  }

  /** The samples a reader recovers from the data chunk of a file (an odd trailing byte
      is ignored). */
  function DecodeSamples(b: seq<byte>): (r: seq<int16>)
    requires |b| >= 44
    ensures |r| == (|b| - 44) / 2
  {
    seq((|b| - 44) / 2, i requires 0 <= i < (|b| - 44) / 2 => ReadI16(b, 44 + 2 * i))
  }

  /** Decoding the data chunk of an encoded file gives back exactly the samples. */
  lemma WavRoundTrip(samples: seq<int16>, sampleRate: int)
    ensures DecodeSamples(WavBytes(samples, sampleRate)) == samples
  {
    var b := WavBytes(samples, sampleRate);
    assert (|b| - 44) / 2 == |samples|;
    var d := DecodeSamples(b);
    forall i | 0 <= i < |samples| ensures d[i] == samples[i] {
      assert d[i] == ReadI16(b, 44 + 2 * i);
      WavSamplesRoundTrip(samples, sampleRate, i);
    }
  }

  /** Writes `bytes` into `buf` from `offset` on, one element at a time; everything else
      stays as it was. With bytes this is view.setUint8 / setUint16 / setInt16 / setUint32
      (little-endian); with samples it is TypedArray.set(arr, offset). */
  method WriteAt<T>(buf: array<T>, offset: nat, bytes: seq<T>)
    requires offset + |bytes| <= buf.Length
    modifies buf
    ensures buf[..offset + |bytes|] == old(buf[..offset]) + bytes
    ensures forall k :: offset + |bytes| <= k < buf.Length ==> buf[k] == old(buf[k])
  {
    var i := 0;
    while i < |bytes|
      invariant 0 <= i <= |bytes|
      invariant buf[..offset + i] == old(buf[..offset]) + bytes[..i]
      invariant forall k :: offset + i <= k < buf.Length ==> buf[k] == old(buf[k])
    {
      buf[offset + i] := bytes[i];
      assert buf[..offset + i + 1] == buf[..offset + i] + [bytes[i]];
      assert bytes[..i + 1] == bytes[..i] + [bytes[i]];
      i := i + 1;
    }
    assert bytes[..i] == bytes;
  }

  /** writeString: each character of an ASCII tag as one byte. */
  method WriteString(buf: array<byte>, offset: nat, s: string)
    requires forall i :: 0 <= i < |s| ==> s[i] as int < 256
    requires offset + |s| <= buf.Length
    modifies buf
    ensures buf[..offset + |s|] == old(buf[..offset]) + Tag(s)
    ensures forall k :: offset + |s| <= k < buf.Length ==> buf[k] == old(buf[k])
  {
    WriteAt(buf, offset, Tag(s));
  }

  /** The RIFF chunk header: "RIFF", the size of the rest, "WAVE". */
  method WriteRiffHeader(buf: array<byte>, n: nat)
    requires buf.Length >= 12
    modifies buf
    ensures buf[..12] == RiffHeader(n)
    ensures forall k :: 12 <= k < buf.Length ==> buf[k] == old(buf[k])
  {
    WriteString(buf, 0, "RIFF");
    assert buf[..4] == Tag("RIFF");
    WriteAt(buf, 4, U32LE(36 + 2 * n));
    WriteString(buf, 8, "WAVE");
  }

  /** The format chunk, field by field from offset 12. */
  method WriteFormatChunk(buf: array<byte>, sampleRate: int)
    requires buf.Length >= 36
    modifies buf
    ensures buf[..36] == old(buf[..12]) + FormatChunk(sampleRate)
    ensures forall k :: 36 <= k < buf.Length ==> buf[k] == old(buf[k])
  {
    ghost var p := buf[..12];
    ghost var h := Tag("fmt ");
    WriteString(buf, 12, "fmt ");
    WriteAt(buf, 16, U32LE(16));
    h := h + U32LE(16);
    assert buf[..20] == p + h;
    WriteAt(buf, 20, U16LE(1));
    h := h + U16LE(1);
    assert buf[..22] == p + h;
    WriteAt(buf, 22, U16LE(1));
    h := h + U16LE(1);
    assert buf[..24] == p + h;
    WriteAt(buf, 24, U32LE(sampleRate));
    h := h + U32LE(sampleRate);
    assert buf[..28] == p + h;
    WriteAt(buf, 28, U32LE(sampleRate * 2));
    h := h + U32LE(sampleRate * 2);
    assert buf[..32] == p + h;
    WriteAt(buf, 32, U16LE(2));
    h := h + U16LE(2);
    assert buf[..34] == p + h;
    WriteAt(buf, 34, U16LE(16));
    h := h + U16LE(16);
    assert h == FormatChunk(sampleRate);
  }

  /** The header part of encodeWav: RIFF header, format chunk, data chunk header. */
  method WriteHeader(buf: array<byte>, n: nat, sampleRate: int)
    requires buf.Length == 44 + 2 * n
    modifies buf
    ensures buf[..44] == WavHeader(n, sampleRate)
  {
    WriteRiffHeader(buf, n);
    WriteFormatChunk(buf, sampleRate);
    WriteString(buf, 36, "data");
    assert buf[..40] == RiffHeader(n) + FormatChunk(sampleRate) + Tag("data");
    WriteAt(buf, 40, U32LE(2 * n));
  }

  /** encodeWav: a buffer of 44 + 2n bytes, the header fields written one by one, then the
      samples written at 44, 46, 48, ... */
  method EncodeWav(samples: array<int16>, sampleRate: int) returns (buf: array<byte>)
    ensures fresh(buf)
    ensures buf[..] == WavBytes(samples[..], sampleRate)
  {
    var n := samples.Length;
    buf := new byte[44 + 2 * n];
    WriteHeader(buf, n, sampleRate);
    WriteSamples(buf, samples);
  }

  /** The sample loop of encodeWav: sample i as two little-endian bytes at 44 + 2i,
      after a header that is left as it is. */
  method WriteSamples(buf: array<byte>, samples: array<int16>)
    requires buf.Length == 44 + 2 * samples.Length
    modifies buf
    ensures buf[..] == old(buf[..44]) + PcmBytes(samples[..])
  {
    ghost var header := buf[..44];
    var offset := 44;
    var i := 0;
    while i < samples.Length
      invariant 0 <= i <= samples.Length && offset == 44 + 2 * i
      invariant buf[..offset] == header + PcmBytes(samples[..i])
    {
      WriteAt(buf, offset, U16LE(samples[i]));
      PcmStep(header, samples[..], i);
      assert samples[..][..i] == samples[..i] && samples[..][..i + 1] == samples[..i + 1];
      offset := offset + 2;
      i := i + 1;
    }
    assert samples[..i] == samples[..];
    assert buf[..offset] == buf[..];
  }

  lemma PcmStep(prefix: seq<byte>, s: seq<int16>, i: nat)
    requires i < |s|
    ensures prefix + PcmBytes(s[..i]) + U16LE(s[i]) == prefix + PcmBytes(s[..i + 1])
  {
    assert s[..i + 1] == s[..i] + [s[i]];
    PcmBytesAppend(s[..i], s[i]);
  }

  // ---------------------------------------------------------------------------
  // Merging the captured chunks
  // ---------------------------------------------------------------------------

  /** The chunks one after another. */
  function Flatten(chunks: seq<seq<real>>): (r: seq<real>)
    ensures |r| == TotalLength(chunks)
  {
    if chunks == [] then [] else chunks[0] + Flatten(chunks[1..])
  }

  /** chunks.reduce((acc, arr) => acc + arr.length, 0) */
  function TotalLength(chunks: seq<seq<real>>): nat
  {
    if chunks == [] then 0 else |chunks[0]| + TotalLength(chunks[1..])
  }

  /** A chunk that arrives later lands after everything that arrived before it. */
  lemma {:induction false} FlattenAppend(a: seq<seq<real>>, b: seq<seq<real>>)
    ensures Flatten(a + b) == Flatten(a) + Flatten(b)
  {
    if a == [] {
      assert a + b == b;
    } else {
      assert (a + b)[1..] == a[1..] + b;
      FlattenAppend(a[1..], b);
    }
  }

  /** The merge in recordWithPcmFallback: a buffer of the total length, each chunk
      copied in at the running offset `idx`. */
  method MergeChunks(chunks: seq<seq<real>>) returns (merged: array<real>)
    ensures fresh(merged)
    ensures merged[..] == Flatten(chunks)
  {
    merged := new real[TotalLength(chunks)];
    var idx := 0;
    var c := 0;
    while c < |chunks|
      invariant 0 <= c <= |chunks|
      invariant idx == |Flatten(chunks[..c])|
      invariant idx + TotalLength(chunks[c..]) == merged.Length
      invariant merged[..idx] == Flatten(chunks[..c])
    {
      var arr := chunks[c];
      FlattenAppend(chunks[..c], [arr]);
      assert chunks[..c + 1] == chunks[..c] + [arr];
      assert chunks[c..] == [arr] + chunks[c + 1..];
      WriteAt(merged, idx, arr);
      assert Flatten([arr]) == arr + Flatten([]);
      idx := idx + |arr|;
      c := c + 1;
    }
    assert chunks[..c] == chunks;
    assert merged[..idx] == merged[..];
  }

  /** The fallback recording path after capture: merge, convert, encode. */
  method RecordingToWav(chunks: seq<seq<real>>, sampleRate: int) returns (file: array<byte>)
    ensures fresh(file)
    ensures |file[..]| == 44 + 2 * TotalLength(chunks)
    ensures DecodeSamples(file[..]) == seq(TotalLength(chunks), i requires 0 <= i < TotalLength(chunks) => Pcm(Flatten(chunks)[i]))
  {
    var merged := MergeChunks(chunks);
    var pcm := FloatTo16BitPCM(merged);
    file := EncodeWav(pcm, sampleRate);
    WavRoundTrip(pcm[..], sampleRate);
  }

  // ---------------------------------------------------------------------------
  // The gallery
  // ---------------------------------------------------------------------------

  datatype GalleryItem = GalleryItem(image: string, title: string, createdAt: string)

  const GalleryLimit: nat := 18

  /** The saved gallery, newest first. */
  class Gallery {
    var items: seq<GalleryItem>

    constructor()
      ensures items == []
    {
      items := [];
    }

    /** saveToGallery: the new item goes first and only the first 18 are kept. */
    method Save(image: string, title: string, createdAt: string)
      modifies this`items
      ensures items == ([GalleryItem(image, title, createdAt)] + old(items))[..if |old(items)| + 1 < GalleryLimit then |old(items)| + 1 else GalleryLimit]
    {
      var current := [GalleryItem(image, title, createdAt)] + items;
      items := if |current| < GalleryLimit then current else current[..GalleryLimit];
    }
  }

  /** What a save leaves: at most 18 items, the new one first, then the most recent of
      the older ones in their order. */
  lemma GallerySaveShape(old_items: seq<GalleryItem>, item: GalleryItem)
    ensures var current := [item] + old_items;
      var kept := current[..if |current| < GalleryLimit then |current| else GalleryLimit];
      1 <= |kept| <= GalleryLimit && kept[0] == item && kept[1..] <= old_items
  {
  }
}
