/** Little-endian fixed-width integers as read by BitConverter and written
    by BinaryWriter, with the two's-complement wrap-around of C# `int` and
    `short` written out. */
module Bytes {

  type byte = x: int | 0 <= x < 256

  const TWO16: int := 0x1_0000
  const TWO32: int := 0x1_0000_0000

  predicate IsInt16(x: int) { -0x8000 <= x < 0x8000 }
  predicate IsInt32(x: int) { -0x8000_0000 <= x < 0x8000_0000 }

  /** The C# `(short)x` cast: keep the low 16 bits, read them as signed. */
  function Wrap16(x: int): (r: int)
    ensures IsInt16(r)
    ensures IsInt16(x) ==> r == x
    ensures (r - x) % TWO16 == 0
  {
    var m := x % TWO16;
    if m < 0x8000 then m else m - TWO16
  }

  /** Unchecked 32-bit `int` arithmetic: keep the low 32 bits, read them as signed. */
  function Wrap32(x: int): (r: int)
    ensures IsInt32(r)
    ensures IsInt32(x) ==> r == x
    ensures (r - x) % TWO32 == 0
  {
    var m := x % TWO32;
    if m < 0x8000_0000 then m else m - TWO32
  }

  /** BinaryWriter.Write(short): two bytes, low byte first. */
  function LE16(x: int): (r: seq<byte>)
    ensures |r| == 2
  {
    var m := x % TWO16;
    [m % 256, m / 256]
  }

  /** BinaryWriter.Write(int): four bytes, low byte first. */
  function LE32(x: int): (r: seq<byte>)
    ensures |r| == 4
  {
    var m := x % TWO32;
    [m % 256, (m / 256) % 256, (m / 0x1_0000) % 256, m / 0x100_0000]
  }

  /** BitConverter.ToUInt16 / ToInt16 at offset `off`. */
  function ReadU16(s: seq<byte>, off: nat): (r: int)
    requires off + 2 <= |s|
    ensures 0 <= r < TWO16
  {
    s[off] as int + 256 * (s[off + 1] as int)
  }

  function ReadI16(s: seq<byte>, off: nat): (r: int)
    requires off + 2 <= |s|
    ensures IsInt16(r)
  {
    var u := ReadU16(s, off);
    if u < 0x8000 then u else u - TWO16
  }

  /** BitConverter.ToUInt32 / ToInt32 at offset `off`. */
  function ReadU32(s: seq<byte>, off: nat): (r: int)
    requires off + 4 <= |s|
    ensures 0 <= r < TWO32
  {
    s[off] as int + 256 * (s[off + 1] as int) + 0x1_0000 * (s[off + 2] as int) + 0x100_0000 * (s[off + 3] as int)
  }

  function ReadI32(s: seq<byte>, off: nat): (r: int)
    requires off + 4 <= |s|
    ensures IsInt32(r)
  {
    var u := ReadU32(s, off);
    if u < 0x8000_0000 then u else u - TWO32
  }

  /** The ASCII chunk tags of the RIFF/WAVE format. */
  const RiffTag: seq<byte> := [0x52, 0x49, 0x46, 0x46]   // "RIFF"
  const WaveTag: seq<byte> := [0x57, 0x41, 0x56, 0x45]   // "WAVE"
  const FmtTag: seq<byte> := [0x66, 0x6D, 0x74, 0x20]    // "fmt "
  const DataTag: seq<byte> := [0x64, 0x61, 0x74, 0x61]   // "data"

  lemma {:induction false} ReadU16OfLE16(x: int, pre: seq<byte>, post: seq<byte>)
    ensures ReadU16(pre + LE16(x) + post, |pre|) == x % TWO16
  {
    var s := pre + LE16(x) + post;
    var m := x % TWO16;
    assert s[|pre|] == m % 256 && s[|pre| + 1] == m / 256;
  }

  /** Writing a short and reading it back yields the wrapped value. */
  lemma {:induction false} ReadI16OfLE16(x: int, pre: seq<byte>, post: seq<byte>)
    ensures ReadI16(pre + LE16(x) + post, |pre|) == Wrap16(x)
  {
    ReadU16OfLE16(x, pre, post);
  }

  lemma {:induction false} ReadU32OfLE32(x: int, pre: seq<byte>, post: seq<byte>)
    ensures ReadU32(pre + LE32(x) + post, |pre|) == x % TWO32
  {
    var s := pre + LE32(x) + post;
    var m := x % TWO32;
    var b0, b1, b2, b3 := m % 256, (m / 256) % 256, (m / 0x1_0000) % 256, m / 0x100_0000;
    assert s[|pre|] == b0 && s[|pre| + 1] == b1 && s[|pre| + 2] == b2 && s[|pre| + 3] == b3;
    assert m == b0 + 256 * (m / 256);
    assert m / 256 == b1 + 256 * (m / 0x1_0000);
    assert m / 0x1_0000 == b2 + 256 * b3;
  }

  /** Writing an int and reading it back yields the wrapped value. */
  lemma {:induction false} ReadI32OfLE32(x: int, pre: seq<byte>, post: seq<byte>)
    ensures ReadI32(pre + LE32(x) + post, |pre|) == Wrap32(x)
  {
    ReadU32OfLE32(x, pre, post);
  }

  /** 16-bit little-endian samples: sample i is the signed value of bytes
      2i (low) and 2i+1 (high); an odd trailing byte is ignored. */
  function Samples16(b: seq<byte>): (r: seq<int>)
    ensures |r| == |b| / 2
    ensures forall i :: 0 <= i < |r| ==> r[i] == ReadI16(b, 2 * i)
  {
    seq(|b| / 2, i requires 0 <= i < |b| / 2 => ReadI16(b, 2 * i))
  }

  /** The bytes BinaryWriter writes for a run of shorts. */
  function Pcm16(xs: seq<int>): (r: seq<byte>)
    ensures |r| == 2 * |xs|
  {
    if xs == [] then [] else LE16(xs[0]) + Pcm16(xs[1..])
  }

  lemma {:induction false} Pcm16Split(xs: seq<int>, i: nat)
    requires i < |xs|
    ensures Pcm16(xs) == Pcm16(xs[..i]) + LE16(xs[i]) + Pcm16(xs[i + 1..])
  {
    if i > 0 {
      Pcm16Split(xs[1..], i - 1);
      assert xs[1..][..i - 1] == xs[1..i];
      assert xs[1..][i - 1] == xs[i] && xs[1..][i..] == xs[i + 1..];
      assert xs[..i] == [xs[0]] + xs[1..i];
      assert Pcm16(xs[..i]) == LE16(xs[0]) + Pcm16(xs[1..i]);
    } else {
      assert xs[..0] == [] && xs[1..] == xs[i + 1..];
    }
  }

  /** Samples written as shorts are read back unchanged. */
  lemma Samples16OfPcm16(xs: seq<int>)
    requires forall i :: 0 <= i < |xs| ==> IsInt16(xs[i])
    ensures Samples16(Pcm16(xs)) == xs
  {
    var b := Pcm16(xs);
    forall i | 0 <= i < |xs| ensures ReadI16(b, 2 * i) == xs[i] {
      Pcm16Split(xs, i);
      ReadI16OfLE16(xs[i], Pcm16(xs[..i]), Pcm16(xs[i + 1..]));
    }
  }

  /** Reading a field at the place where it was written. */
  lemma ReadI32At(s: seq<byte>, off: nat, x: int)
    requires off + 4 <= |s| && s[off..off + 4] == LE32(x)
    ensures ReadI32(s, off) == Wrap32(x)
  {
    assert s == s[..off] + LE32(x) + s[off + 4..];
    ReadI32OfLE32(x, s[..off], s[off + 4..]);
  }

  lemma ReadI16At(s: seq<byte>, off: nat, x: int)
    requires off + 2 <= |s| && s[off..off + 2] == LE16(x)
    ensures ReadI16(s, off) == Wrap16(x)
  {
    assert s == s[..off] + LE16(x) + s[off + 2..];
    ReadI16OfLE16(x, s[..off], s[off + 2..]);
  }

  lemma ReadU32At(s: seq<byte>, off: nat, t: seq<byte>)
    requires off + 4 <= |s| && |t| == 4 && s[off..off + 4] == t
    ensures ReadU32(s, off) == ReadU32(t, 0)
  {
    assert s[off] == t[0] && s[off + 1] == t[1] && s[off + 2] == t[2] && s[off + 3] == t[3];
  }
}
