/** AudioStreamPlayer (src/util/audio/AudioStreamPlayer.cs): a bounded FIFO
    of 16-bit samples fed by EnqueueChunk and drained by Unity's audio
    callback. Samples are kept as the signed 16-bit values; the float
    scaling by 1/32768 is not modelled. */
module AudioStreamPlayer {
  import opened Wrappers
  import opened Bytes

  /** MAX_BUFFER_SAMPLES: four seconds at 48 kHz, mono. */
  const MaxBufferSamples: nat := 48000 * 4

  /** The queue after dropping the oldest samples beyond the bound. */
  function Trimmed(q: seq<int>): (r: seq<int>)
    ensures |r| == if |q| > MaxBufferSamples then MaxBufferSamples else |q|
    ensures r == q[|q| - |r|..]
  {
    if |q| > MaxBufferSamples then q[|q| - MaxBufferSamples..] else q
  }

  class AudioStreamPlayer {
    var queue: seq<int>
    var sampleRate: int
    var channels: int
    var isPlaying: bool
    /** `_source` has been created (by Initialize). */
    var hasSource: bool
    /** The AudioSource is playing. */
    var sourcePlaying: bool

    predicate Valid()
      reads this
    {
      && |queue| <= MaxBufferSamples
      && (forall i :: 0 <= i < |queue| ==> IsInt16(queue[i]))
      && (sourcePlaying ==> hasSource)
    }

    constructor ()
      ensures Valid()
      ensures queue == [] && sampleRate == 48000 && channels == 1
      ensures !isPlaying && !hasSource && !sourcePlaying
    {
      queue := [];
      sampleRate := 48000;
      channels := 1;
      isPlaying := false;
      hasSource := false;
      sourcePlaying := false;
    }

    /** Records the format, creates the AudioSource (stopped) and clears
        the playing flag; queued samples stay. */
    method Initialize(sampleRate: int, channels: int)
      modifies this
      requires Valid()
      ensures Valid()
      ensures this.sampleRate == sampleRate && this.channels == channels
      ensures hasSource && !sourcePlaying && !isPlaying && queue == old(queue)
    {
      this.sampleRate := sampleRate;
      this.channels := channels;
      hasSource := true;
      sourcePlaying := false;
      isPlaying := false;
    }

    /** Decodes floor(|chunk|/2) samples onto the queue, drops the oldest
        beyond the bound and starts playback. Starting playback before
        Initialize dereferences the missing AudioSource: `ok` is false
        then, after the samples were queued and the flag was set. */
    method EnqueueChunk(chunk: Option<seq<byte>>) returns (ok: bool)
      modifies this
      requires Valid()
      ensures Valid()
      ensures sampleRate == old(sampleRate) && channels == old(channels) && hasSource == old(hasSource)
      ensures chunk.None? || |chunk.value| == 0 ==>
        ok && queue == old(queue) && isPlaying == old(isPlaying) && sourcePlaying == old(sourcePlaying)
      ensures chunk.Some? && |chunk.value| > 0 ==>
        && queue == Trimmed(old(queue) + Samples16(chunk.value))
        && isPlaying
        && ok == (old(isPlaying) || hasSource)
        && sourcePlaying == (if old(isPlaying) then old(sourcePlaying) else hasSource)
    {
      if chunk.None? || |chunk.value| == 0 {
        return true;
      }
      var data := chunk.value;
      var sampleCount := |data| / 2;
      var q := queue;
      var i := 0;
      while i < sampleCount
        invariant 0 <= i <= sampleCount
        invariant q == old(queue) + Samples16(data)[..i]
      {
        q := q + [Wrap16((data[i * 2 + 1] as int) * 256 + data[i * 2] as int)];
        i := i + 1;
      }
      assert Samples16(data)[..i] == Samples16(data);
      ghost var full := q;
      while |q| > MaxBufferSamples
        invariant |q| <= |full| && q == full[|full| - |q|..]
        invariant |full| > MaxBufferSamples ==> |q| >= MaxBufferSamples
        invariant |full| <= MaxBufferSamples ==> q == full
      {
        q := q[1..];
      }
      queue := q;
      ok := true;
      if !isPlaying {
        isPlaying := true;
        if !hasSource {
          return false;
        }
        sourcePlaying := true;
      }
    }

    /** Stops the source if it plays, clears the flag and the queue. */
    method Stop()
      modifies this
      requires Valid()
      ensures Valid()
      ensures queue == [] && !isPlaying && !sourcePlaying
      ensures sampleRate == old(sampleRate) && channels == old(channels) && hasSource == old(hasSource)
    {
      if hasSource && sourcePlaying {
        sourcePlaying := false;
      }
      isPlaying := false;
      queue := [];
    }

    /** The audio callback: silence when stopped or starved; otherwise the
        oldest samples in order, padded with silence, and exactly the
        samples written are removed. */
    method OnAudioFilterRead(data: array<int>)
      modifies this, data
      requires Valid()
      ensures Valid()
      ensures !old(isPlaying) || |old(queue)| == 0 ==>
        queue == old(queue) && forall i :: 0 <= i < data.Length ==> data[i] == 0
      ensures old(isPlaying) && |old(queue)| > 0 ==>
        var n := if data.Length < |old(queue)| then data.Length else |old(queue)|;
        && queue == old(queue)[n..]
        && (forall i :: 0 <= i < n ==> data[i] == old(queue)[i])
        && (forall i :: n <= i < data.Length ==> data[i] == 0)
      ensures isPlaying == old(isPlaying) && sourcePlaying == old(sourcePlaying) && hasSource == old(hasSource)
      ensures sampleRate == old(sampleRate) && channels == old(channels)
    {
      if !isPlaying || |queue| == 0 {
        for i := 0 to data.Length
          modifies data
          invariant forall k :: 0 <= k < i ==> data[k] == 0
        {
          data[i] := 0;
        }
        return;
      }
      var q := queue;
      var needed := data.Length;
      for i := 0 to needed
        modifies data
        invariant |old(queue)| >= |q| && q == old(queue)[|old(queue)| - |q|..]
        invariant |old(queue)| - |q| == if i < |old(queue)| then i else |old(queue)|
        invariant forall k :: 0 <= k < i && k < |old(queue)| ==> data[k] == old(queue)[k]
        invariant forall k :: |old(queue)| <= k < i ==> data[k] == 0
      {
        if |q| > 0 {
          data[i] := q[0];
          q := q[1..];
        } else {
          data[i] := 0;
        }
      }
      queue := q;
    }
  }

  /** Whatever is enqueued, the queue never exceeds the bound, and what it
      holds is the newest part of old queue plus new samples. */
  lemma EnqueueKeepsNewest(q: seq<int>, chunk: seq<byte>)
    ensures var r := Trimmed(q + Samples16(chunk));
      && |r| <= MaxBufferSamples
      && (|q| + |chunk| / 2 <= MaxBufferSamples ==> r == q + Samples16(chunk))
      && (|chunk| / 2 >= MaxBufferSamples ==> r == Samples16(chunk)[|chunk| / 2 - MaxBufferSamples..])
  {
  }
}
