/** WAV (src/util/audio/WAV.cs): the RIFF parser that walks the chunks to
    "data" and reads 16-bit samples, and the mono header SaveWav writes.
    Samples are kept as the 16-bit values; the float conversions (÷32768
    when reading, ×32767 when writing) are not modelled. */
module Wav {
  import opened Wrappers
  import opened Bytes

  /** "RIFF" and "data" read as little-endian unsigned 32-bit values. */
  const RiffMagic: int := 0x46464952
  const DataMagic: int := 0x61746164

  /** .NET arrays hold fewer than 2^31 elements. */
  predicate IsArrayLength(n: int) { n < 0x8000_0000 }

  datatype WavError =
    | InvalidWav          // the file does not start with "RIFF"
    | OutOfRange          // a read past either end of the buffer
    | NegativeChunkSize   // a chunk size of 2^31 or more, read as RIFF's unsigned field
    | NegativeLength      // the sample count came out negative
    | EndlessLoop         // the chunk walk came back to an offset: the constructor never returns

  /** The parsed file: LeftChannel (as 16-bit values; SampleCount is its
      length) and Frequency. */
  datatype WavData = WavData(samples: seq<int>, frequency: int)

  /** C# integer division by two, which truncates toward zero. */
  function Half(x: int): (r: int)
    ensures x >= 0 ==> r == x / 2
    ensures x < 0 ==> r == -((-x) / 2)
  {
    if x >= 0 then x / 2 else -((-x) / 2)
  }

  /** One turn of the chunk walk as written: skip the tag, read the size
      as a signed int, skip the size field and the payload, in 32-bit
      arithmetic. */
  function WalkStep(wav: seq<byte>, d: nat): (r: int)
    requires d + 8 <= |wav|
    ensures IsInt32(r)
  {
    Wrap32(d + 8 + ReadI32(wav, d + 4))
  }

  /** `seen` holds only offsets a read can start at. */
  ghost predicate Offsets(seen: set<int>, n: nat) {
    forall x :: x in seen ==> 0 <= x < n
  }

  /** There are at most `n` of them. */
  lemma {:induction false} OffsetsBound(seen: set<int>, n: nat)
    requires Offsets(seen, n)
    ensures |seen| <= n
  {
    if n > 0 {
      OffsetsBound(seen - {n - 1}, n - 1);
    } else {
      assert seen == {} by {
        forall x | x in seen ensures false { }
      }
    }
  }

  /** The walk of the `while` loop as written, from offset `d`, having
      already left the offsets in `seen`. A read outside the buffer throws;
      the walk is deterministic, so coming back to an offset already left
      means the loop never ends. */
  function WalkFrom(wav: seq<byte>, d: int, seen: set<int>): (r: Result<nat, WavError>)
    requires IsArrayLength(|wav|) && Offsets(seen, |wav|)
    ensures r.Success? ==> r.value + 4 <= |wav| && ReadU32(wav, r.value) == DataMagic
    ensures r.Failure? ==> r.error == OutOfRange || r.error == EndlessLoop
    decreases |wav| - |seen|
  {
    if d < 0 || d + 4 > |wav| then Failure(OutOfRange)
    else if ReadU32(wav, d) == DataMagic then Success(d)
    else if d in seen then Failure(EndlessLoop)
    else if d + 8 > |wav| then Failure(OutOfRange)
    else
      OffsetsBound(seen + {d}, |wav|);
      WalkFrom(wav, WalkStep(wav, d), seen + {d})
  }

  /** The offset of the "data" tag as intended: RIFF declares chunk sizes
      unsigned, so a size the source reads as negative is 2^31 or more and
      reaches past the end of any .NET array (NegativeSizeIsPastEnd); the
      walk stops there instead of stepping back. */
  function FindData(wav: seq<byte>, d: int): (r: Result<nat, WavError>)
    requires IsArrayLength(|wav|)
    ensures r.Success? ==> d <= r.value && r.value + 4 <= |wav| && ReadU32(wav, r.value) == DataMagic
    ensures r.Failure? ==> r.error == OutOfRange || r.error == NegativeChunkSize
    decreases |wav| - d
  {
    if d < 0 || d + 4 > |wav| then Failure(OutOfRange)
    else if ReadU32(wav, d) == DataMagic then Success(d)
    else if d + 8 > |wav| then Failure(OutOfRange)
    else if ReadI32(wav, d + 4) < 0 then Failure(NegativeChunkSize)
    else
      var next := WalkStep(wav, d);
      if next < 0 then Failure(OutOfRange) else FindData(wav, next)
  }

  /** A size the source reads as negative, read as the unsigned field it
      is, ends the chunk beyond the buffer. */
  lemma NegativeSizeIsPastEnd(wav: seq<byte>, d: nat)
    requires IsArrayLength(|wav|) && d + 8 <= |wav| && ReadI32(wav, d + 4) < 0
    ensures d + 8 + ReadU32(wav, d + 4) > |wav|
  {
  }

  /** Where the intended walk finds "data", the walk as written finds the
      same offset, provided it has only left offsets before `d`. */
  lemma {:induction false} WalkAgrees(wav: seq<byte>, d: int, seen: set<int>)
    requires IsArrayLength(|wav|) && Offsets(seen, |wav|)
    requires forall x :: x in seen ==> x < d
    requires FindData(wav, d).Success?
    ensures WalkFrom(wav, d, seen) == FindData(wav, d)
    decreases |wav| - d
  {
    if ReadU32(wav, d) != DataMagic {
      assert d !in seen;
      FindDataStep(wav, d);
      WalkAgrees(wav, WalkStep(wav, d), seen + {d});
    }
  }

  /** The samples from `start` to the end of the buffer. */
  function SamplesFrom(wav: seq<byte>, start: nat): (r: seq<int>)
    ensures start <= |wav| ==> r == Samples16(wav[start..])
    ensures start >= |wav| ==> r == []
  {
    if start <= |wav| then Samples16(wav[start..]) else []
  }

  /** What the constructor does with `wav`, chunk walk as written: the
      magic, the frequency at offset 24, the walk from offset 12, then
      SampleCount shorts after the "data" header. */
  function Parse(wav: seq<byte>): (r: Result<WavData, WavError>)
    requires IsArrayLength(|wav|)
    ensures |wav| >= 4 && ReadU32(wav, 0) != RiffMagic ==> r == Failure(InvalidWav)
    ensures r.Success? ==>
      && |wav| >= 28 && ReadU32(wav, 0) == RiffMagic
      && r.value.frequency == ReadI32(wav, 24)
      && WalkFrom(wav, 12, {}).Success?
      && r.value.samples == SamplesFrom(wav, WalkFrom(wav, 12, {}).value + 8)
    ensures r == Failure(EndlessLoop) <==>
      |wav| >= 28 && ReadU32(wav, 0) == RiffMagic && WalkFrom(wav, 12, {}) == Failure(EndlessLoop)
  {
    if |wav| < 4 then Failure(OutOfRange)
    else if ReadU32(wav, 0) != RiffMagic then Failure(InvalidWav)
    else if |wav| < 28 then Failure(OutOfRange)
    else
      match WalkFrom(wav, 12, {})
      case Failure(e) => Failure(e)
      case Success(d) => ReadData(wav, d)
  }

  /** The constructor with the intended walk. */
  function ParseFixed(wav: seq<byte>): (r: Result<WavData, WavError>)
    requires IsArrayLength(|wav|)
    ensures |wav| >= 4 && ReadU32(wav, 0) != RiffMagic ==> r == Failure(InvalidWav)
    ensures r.Success? ==>
      && |wav| >= 28 && ReadU32(wav, 0) == RiffMagic
      && r.value.frequency == ReadI32(wav, 24)
      && FindData(wav, 12).Success?
      && r.value.samples == SamplesFrom(wav, FindData(wav, 12).value + 8)
    ensures r != Failure(EndlessLoop)
  {
    if |wav| < 4 then Failure(OutOfRange)
    else if ReadU32(wav, 0) != RiffMagic then Failure(InvalidWav)
    else if |wav| < 28 then Failure(OutOfRange)
    else
      match FindData(wav, 12)
      case Failure(e) => Failure(e)
      case Success(d) => ReadData(wav, d)
  }

  /** After the walk stopped at the "data" tag at `d`: SampleCount is half
      of what follows the 8-byte chunk header, truncated toward zero; a
      negative count makes `new short[SampleCount]` throw. */
  function ReadData(wav: seq<byte>, d: nat): (r: Result<WavData, WavError>)
    requires |wav| >= 28
    ensures r.Success? <==> Half(|wav| - (d + 8)) >= 0
    ensures r.Success? ==> r.value == WavData(SamplesFrom(wav, d + 8), ReadI32(wav, 24))
    ensures r.Failure? ==> r.error == NegativeLength
  {
    var count := Half(|wav| - (d + 8));
    if count < 0 then Failure(NegativeLength)
    else Success(WavData(SamplesFrom(wav, d + 8), ReadI32(wav, 24)))
  }

  /** Every file the intended constructor reads, the constructor as
      written reads the same way. */
  lemma ParseAgrees(wav: seq<byte>)
    requires IsArrayLength(|wav|) && ParseFixed(wav).Success?
    ensures Parse(wav) == ParseFixed(wav)
  {
    WalkAgrees(wav, 12, {});
  }

  /** The constructor: check the magic, read the frequency, walk the
      chunks, then read SampleCount samples after the "data" header. */
  method ParseWav(wav: seq<byte>) returns (r: Result<WavData, WavError>)
    requires IsArrayLength(|wav|)
    ensures r == Parse(wav)
  {
    if |wav| < 4 {
      return Failure(OutOfRange);
    }
    if ReadU32(wav, 0) != RiffMagic {
      return Failure(InvalidWav);
    }
    if |wav| < 28 {
      return Failure(OutOfRange);
    }
    var frequency := ReadI32(wav, 24);
    var found := WalkChunks(wav);
    if found.Failure? {
      return Failure(found.error);
    }
    var dataIndex := found.value + 8;
    var sampleCount := Half(|wav| - dataIndex);
    if sampleCount < 0 {
      return Failure(NegativeLength);
    }
    var samples := ReadSamples(wav, dataIndex, sampleCount);
    return Success(WavData(samples, frequency));
  }

  lemma FindDataStep(wav: seq<byte>, d: nat)
    requires IsArrayLength(|wav|) && d + 8 <= |wav|
    requires ReadU32(wav, d) != DataMagic && ReadI32(wav, d + 4) >= 0 && WalkStep(wav, d) >= 0
    ensures WalkStep(wav, d) > d
    ensures FindData(wav, d) == FindData(wav, WalkStep(wav, d))
  {
    Wrap32NonNegative(d + 8 + ReadI32(wav, d + 4));
  }

  /** A wrapped value of a non-negative 32-bit unsigned quantity that is
      non-negative is the value itself. */
  lemma Wrap32NonNegative(x: int)
    requires 0 <= x < TWO32
    ensures Wrap32(x) >= 0 ==> Wrap32(x) == x
  {
    assert x % TWO32 == x;
  }

  /** The `while` loop that advances `dataIndex` chunk by chunk, exactly
      as written. `visited`, which the source does not keep, records the
      offsets left so far: meeting one again is where the source would
      loop for ever, and the model stops with EndlessLoop. */
  method WalkChunks(wav: seq<byte>) returns (r: Result<nat, WavError>)
    requires IsArrayLength(|wav|)
    ensures r == WalkFrom(wav, 12, {})
  {
    var dataIndex: int := 12;
    var visited: set<int> := {};
    while true
      invariant Offsets(visited, |wav|)
      invariant WalkFrom(wav, dataIndex, visited) == WalkFrom(wav, 12, {})
      decreases |wav| - |visited|
    {
      if dataIndex < 0 || dataIndex + 4 > |wav| {
        return Failure(OutOfRange);
      }
      if ReadU32(wav, dataIndex) == DataMagic {
        return Success(dataIndex);
      }
      if dataIndex in visited {
        return Failure(EndlessLoop);
      }
      if dataIndex + 8 > |wav| {
        return Failure(OutOfRange);
      }
      OffsetsBound(visited + {dataIndex}, |wav|);
      visited := visited + {dataIndex};
      var chunkSize := ReadI32(wav, dataIndex + 4);
      dataIndex := Wrap32(dataIndex + 8 + chunkSize);
    }
  }

  /** Sample k after `start` is the short at start + 2k. */
  lemma SamplesFromAt(wav: seq<byte>, start: nat, count: nat)
    requires count == Half(|wav| - start)
    ensures |SamplesFrom(wav, start)| == count
    ensures forall k :: 0 <= k < count ==> start + 2 * k + 2 <= |wav|
    ensures forall k :: 0 <= k < count ==> SamplesFrom(wav, start)[k] == ReadI16(wav, start + 2 * k)
  {
    if start <= |wav| {
      var tail := wav[start..];
      forall k | 0 <= k < count ensures tail[2 * k] == wav[start + 2 * k] && tail[2 * k + 1] == wav[start + 2 * k + 1] {
      }
    }
  }

  /** The `for` loop that reads `count` little-endian shorts from `start`. */
  method ReadSamples(wav: seq<byte>, start: nat, count: nat) returns (samples: seq<int>)
    requires count == Half(|wav| - start)
    ensures samples == SamplesFrom(wav, start)
  {
    SamplesFromAt(wav, start, count);
    samples := [];
    for i := 0 to count
      invariant |samples| == i
      invariant forall k :: 0 <= k < i ==> samples[k] == ReadI16(wav, start + 2 * k)
    {
      samples := samples + [ReadI16(wav, start + i * 2)];
    }
  }

  /** The walk as written, on a file whose first chunk after "WAVE" declares
      size -8: it lands on offset 12 again, which is still not "data", so
      the constructor never returns; the intended walk stops at the size. */
  lemma WalkAsWrittenRepeats()
    ensures var wav := RiffTag + LE32(0) + WaveTag + FmtTag + LE32(-8) + LE32(0) + LE32(0);
      && |wav| == 28 && ReadU32(wav, 0) == RiffMagic
      && ReadU32(wav, 12) != DataMagic
      && WalkStep(wav, 12) == 12
      && Parse(wav) == Failure(EndlessLoop)
      && ParseFixed(wav) == Failure(NegativeChunkSize)
  {
    var wav := RiffTag + LE32(0) + WaveTag + FmtTag + LE32(-8) + LE32(0) + LE32(0);
    ReadI32OfLE32(-8, RiffTag + LE32(0) + WaveTag + FmtTag, LE32(0) + LE32(0));
    assert wav == RiffTag + LE32(0) + WaveTag + FmtTag + LE32(-8) + (LE32(0) + LE32(0));
    assert wav[0..4] == RiffTag && wav[12..16] == FmtTag;
    assert WalkFrom(wav, 12, {12}) == Failure(EndlessLoop);
    assert {} + {12} == {12};
    assert WalkFrom(wav, 12, {}) == WalkFrom(wav, WalkStep(wav, 12), {} + {12});
  }

  /** A size from -7 to -1 moves the walk as written forward into the
      chunk's own size field, from where it can go on to "data": here size
      -4 at offset 16 sends it to 16, whose bytes declare size 4, and so to
      "data" at 28. The intended walk refuses the file. */
  lemma SmallNegativeSizeWalksOn(pcm: seq<byte>)
    requires IsArrayLength(36 + |pcm|)
    ensures var wav := RiffTag + LE32(0) + WaveTag + LE32(0) + LE32(-4) + LE32(4) + LE32(0) + DataTag + LE32(|pcm|) + pcm;
      && Parse(wav) == Success(WavData(Samples16(pcm), 0))
      && ParseFixed(wav) == Failure(NegativeChunkSize)
  {
    var wav := RiffTag + LE32(0) + WaveTag + LE32(0) + LE32(-4) + LE32(4) + LE32(0) + DataTag + LE32(|pcm|) + pcm;
    SmallNegativeFields(pcm);
    assert WalkStep(wav, 12) == 16;
    assert WalkStep(wav, 16) == 28;
    assert WalkFrom(wav, 28, {12, 16}) == Success(28);
    assert {12} + {16} == {12, 16};
    assert WalkFrom(wav, 16, {12}) == WalkFrom(wav, WalkStep(wav, 16), {12} + {16});
    assert {} + {12} == {12};
    assert WalkFrom(wav, 12, {}) == WalkFrom(wav, WalkStep(wav, 12), {} + {12});
    assert FindData(wav, 12) == Failure(NegativeChunkSize);
    assert wav[36..] == pcm;
  }

  /** The fields of the file above that the two walks read. */
  lemma SmallNegativeFields(pcm: seq<byte>)
    requires IsArrayLength(36 + |pcm|)
    ensures var wav := RiffTag + LE32(0) + WaveTag + LE32(0) + LE32(-4) + LE32(4) + LE32(0) + DataTag + LE32(|pcm|) + pcm;
      && |wav| == 36 + |pcm| && wav[36..] == pcm
      && ReadU32(wav, 0) == RiffMagic && ReadU32(wav, 12) == 0 && ReadU32(wav, 16) != DataMagic
      && ReadI32(wav, 16) == -4 && ReadI32(wav, 20) == 4 && ReadI32(wav, 24) == 0
      && ReadU32(wav, 28) == DataMagic
  {
    var h := RiffTag + LE32(0) + WaveTag + LE32(0) + LE32(-4) + LE32(4) + LE32(0) + DataTag + LE32(|pcm|);
    var wav := h + pcm;
    assert |h| == 36;
    assert wav == RiffTag + LE32(0) + WaveTag + LE32(0) + LE32(-4) + LE32(4) + LE32(0) + DataTag + LE32(|pcm|) + pcm;
    assert wav[..36] == h && wav[36..] == pcm;
    ReadU32At(wav, 0, RiffTag);
    assert h[16..20] == LE32(-4) && h[20..24] == LE32(4) && h[24..28] == LE32(0) && h[28..32] == DataTag;
    ReadI32At(wav, 16, -4);
    ReadI32At(wav, 20, 4);
    ReadI32At(wav, 24, 0);
    ReadU32At(wav, 28, DataTag);
    assert ReadU32(wav, 12) == 0;
  }

  /** The bytes SaveWav writes: a mono 16-bit header for SampleCount
      samples at Frequency, then one short per sample of LeftChannel
      (`written`, the float-to-short conversions of the samples). */
  function SaveWavBytes(w: WavData, written: seq<int>): (b: seq<byte>)
    requires |written| == |w.samples|
    ensures |b| == 44 + 2 * |written|
  {
    WavHeader(|w.samples|, w.frequency) + Pcm16(written)
  }

  /** The 44-byte header SaveWav writes for `n` samples. */
  function WavHeader(n: nat, frequency: int): (h: seq<byte>)
    ensures |h| == 44
  {
    RiffTag + LE32(36 + n * 2) + WaveTag
      + FmtTag + LE32(16) + LE16(1) + LE16(1) + LE32(frequency) + LE32(frequency * 2) + LE16(2) + LE16(16)
      + DataTag + LE32(n * 2)
  }

  /** A 44-byte header laid out as "RIFF" ? "WAVE" "fmt " 16 … "data" ?
      parses to the frequency at offset 24 and the samples after it. */
  lemma CanonicalHeaderParses(h: seq<byte>, pcm: seq<byte>)
    requires |h| == 44 && IsArrayLength(44 + |pcm|)
    requires h[0..4] == RiffTag && h[12..16] == FmtTag && h[16..20] == LE32(16) && h[36..40] == DataTag
    ensures Parse(h + pcm) == Success(WavData(Samples16(pcm), ReadI32(h, 24)))
  {
    var wav := h + pcm;
    assert wav[..44] == h && wav[44..] == pcm;
    ReadU32At(wav, 0, RiffTag);
    ReadU32At(wav, 12, FmtTag);
    ReadI32At(wav, 16, 16);
    ReadU32At(wav, 36, DataTag);
    assert WalkStep(wav, 12) == 36;
    assert FindData(wav, 36) == Success(36);
    assert FindData(wav, 12) == Success(36);
    assert ReadI32(wav, 24) == ReadI32(h, 24);
    assert ParseFixed(wav).Success?;
    ParseAgrees(wav);
  }

  /** A saved file reads back as the written samples at the same frequency
      (wrapped to 32 bits, as Write(int) stores it). */
  lemma SaveWavRoundTrip(w: WavData, written: seq<int>)
    requires |written| == |w.samples| && forall i :: 0 <= i < |written| ==> IsInt16(written[i])
    requires IsArrayLength(44 + 2 * |written|)
    ensures Parse(SaveWavBytes(w, written)) == Success(WavData(written, Wrap32(w.frequency)))
  {
    var h := WavHeader(|w.samples|, w.frequency);
    assert h[0..4] == RiffTag && h[12..16] == FmtTag && h[16..20] == LE32(16) && h[36..40] == DataTag;
    assert h[24..28] == LE32(w.frequency);
    ReadI32At(h, 24, w.frequency);
    CanonicalHeaderParses(h, Pcm16(written));
    Samples16OfPcm16(written);
  }

  /** The header SaveWav writes is mono 16-bit: RIFF size 36 + 2n, one
      channel, byte rate 2·Frequency, block align 2, data size 2n. */
  lemma SaveWavHeaderFields(w: WavData, written: seq<int>)
    requires |written| == |w.samples|
    ensures var b := SaveWavBytes(w, written);
      var n := |w.samples|;
      && ReadI32(b, 4) == Wrap32(36 + 2 * n)
      && ReadI16(b, 20) == 1 && ReadI16(b, 22) == 1
      && ReadI32(b, 24) == Wrap32(w.frequency) && ReadI32(b, 28) == Wrap32(2 * w.frequency)
      && ReadI16(b, 32) == 2 && ReadI16(b, 34) == 16
      && ReadI32(b, 40) == Wrap32(2 * n)
  {
    var b := SaveWavBytes(w, written);
    var h := WavHeader(|w.samples|, w.frequency);
    assert b[..44] == h;
    HeaderSizeFields(|w.samples|, w.frequency);
    HeaderFormatFields(|w.samples|, w.frequency);
    ReadI32Agree(b, h, 4);
    ReadI32Agree(b, h, 24);
    ReadI32Agree(b, h, 28);
    ReadI32Agree(b, h, 40);
    ReadI16Agree(b, h, 20);
    ReadI16Agree(b, h, 22);
    ReadI16Agree(b, h, 32);
    ReadI16Agree(b, h, 34);
  }

  /** The size fields of the header. */
  lemma HeaderSizeFields(n: nat, frequency: int)
    ensures var h := WavHeader(n, frequency);
      && ReadI32(h, 4) == Wrap32(36 + 2 * n) && ReadI32(h, 40) == Wrap32(2 * n)
      && ReadI32(h, 24) == Wrap32(frequency) && ReadI32(h, 28) == Wrap32(2 * frequency)
  {
    var h := WavHeader(n, frequency);
    assert h[4..8] == LE32(36 + n * 2) && h[40..44] == LE32(n * 2);
    ReadI32At(h, 4, 36 + n * 2);
    ReadI32At(h, 40, n * 2);
    assert h[24..28] == LE32(frequency) && h[28..32] == LE32(frequency * 2);
    ReadI32At(h, 24, frequency);
    ReadI32At(h, 28, frequency * 2);
  }

  /** The 16-bit format fields of the header. */
  lemma HeaderFormatFields(n: nat, frequency: int)
    ensures var h := WavHeader(n, frequency);
      && ReadI16(h, 20) == 1 && ReadI16(h, 22) == 1 && ReadI16(h, 32) == 2 && ReadI16(h, 34) == 16
  {
    var h := WavHeader(n, frequency);
    assert h[20..22] == LE16(1) && h[22..24] == LE16(1);
    ReadI16At(h, 20, 1);
    ReadI16At(h, 22, 1);
    assert h[32..34] == LE16(2) && h[34..36] == LE16(16);
    ReadI16At(h, 32, 2);
    ReadI16At(h, 34, 16);
  }

  /** A field read inside a prefix reads the same in the whole. */
  lemma ReadI32Agree(a: seq<byte>, b: seq<byte>, off: nat)
    requires off + 4 <= |b| <= |a| && a[..|b|] == b
    ensures ReadI32(a, off) == ReadI32(b, off)
  {
    assert a[off] == b[off] && a[off + 1] == b[off + 1] && a[off + 2] == b[off + 2] && a[off + 3] == b[off + 3];
  }

  lemma ReadI16Agree(a: seq<byte>, b: seq<byte>, off: nat)
    requires off + 2 <= |b| <= |a| && a[..|b|] == b
    ensures ReadI16(a, off) == ReadI16(b, off)
  {
    assert a[off] == b[off] && a[off + 1] == b[off + 1];
  }
}
