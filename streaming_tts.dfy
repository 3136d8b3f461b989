/** StreamingTTSEngine (src/util/audio/StreamingTTSEngine.cs): a streamed
    WAV response is split into its 44-byte header, which gives the sample
    rate and channel count, and the PCM that follows, which is both kept for
    the final file and pushed to the stream player as it arrives. */
module StreamingTts {
  import opened Wrappers
  import opened Bytes
  import Wav
  import opened TtsRequest
  import opened TtsEngine
  import opened AudioStreamPlayer

  /** The size of the canonical RIFF/WAVE PCM header. */
  const HeaderSize: nat := 44

  const NoAudioMessage: string := "[No Audio Data / Streaming Failed]"
  const ShortHeaderMessage: string := "Invalid WAV header. Must be at least 44 bytes."

  /** ParseWavHeader: (sample rate, channels) from a buffer of at least 44
      bytes: the int32 at offset 24 and the int16 at offset 22. */
  function ParseWavHeader(header: seq<byte>): (r: Result<(int, int), string>)
    ensures r.Success? <==> |header| >= HeaderSize
    ensures r.Failure? ==> r.error == ShortHeaderMessage
    ensures r.Success? ==> IsInt32(r.value.0) && IsInt16(r.value.1)
  {
    if |header| < HeaderSize then Failure(ShortHeaderMessage)
    else Success((ReadI32(header, 24), ReadI16(header, 22)))
  }

  /** BuildWaveBytes: the canonical 44-byte header for 16-bit PCM, then the
      PCM bytes. */
  function WaveBytes(pcm: seq<byte>, sampleRate: int, channels: int): (b: seq<byte>)
    ensures |b| == HeaderSize + |pcm|
    ensures b[HeaderSize..] == pcm
  {
    var h := WaveHeader(|pcm|, sampleRate, channels);
    assert (h + pcm)[HeaderSize..] == pcm;
    h + pcm
  }

  function WaveHeader(pcmLength: int, sampleRate: int, channels: int): (h: seq<byte>)
    ensures |h| == HeaderSize
  {
    RiffTag + LE32(36 + pcmLength) + WaveTag
      + FmtTag + LE32(16) + LE16(1) + LE16(channels) + LE32(sampleRate)
      + LE32(sampleRate * channels * 2) + LE16(channels * 2) + LE16(16)
      + DataTag + LE32(pcmLength)
  }

  /** Every field of the header reads back as written (in the width
      BinaryWriter stores it). */
  lemma WaveHeaderFields(pcm: seq<byte>, sampleRate: int, channels: int)
    ensures var b := WaveBytes(pcm, sampleRate, channels);
      && b[0..4] == RiffTag && b[8..12] == WaveTag && b[12..16] == FmtTag && b[36..40] == DataTag
      && ReadI32(b, 4) == Wrap32(36 + |pcm|) && ReadI32(b, 16) == 16 && ReadI16(b, 20) == 1
      && ReadI16(b, 22) == Wrap16(channels) && ReadI32(b, 24) == Wrap32(sampleRate)
      && ReadI32(b, 28) == Wrap32(sampleRate * channels * 2)
      && ReadI16(b, 32) == Wrap16(channels * 2) && ReadI16(b, 34) == 16
      && ReadI32(b, 40) == Wrap32(|pcm|)
  {
    var b := WaveBytes(pcm, sampleRate, channels);
    var h := WaveHeader(|pcm|, sampleRate, channels);
    assert b[..HeaderSize] == h;
    assert b[0..4] == RiffTag && b[8..12] == WaveTag && b[12..16] == FmtTag && b[36..40] == DataTag;
    assert b[4..8] == LE32(36 + |pcm|);
    ReadI32At(b, 4, 36 + |pcm|);
    assert b[16..20] == LE32(16) && b[20..22] == LE16(1) && b[22..24] == LE16(channels);
    ReadI32At(b, 16, 16);
    ReadI16At(b, 20, 1);
    ReadI16At(b, 22, channels);
    assert b[24..28] == LE32(sampleRate) && b[28..32] == LE32(sampleRate * channels * 2);
    ReadI32At(b, 24, sampleRate);
    ReadI32At(b, 28, sampleRate * channels * 2);
    assert b[32..34] == LE16(channels * 2) && b[34..36] == LE16(16) && b[40..44] == LE32(|pcm|);
    ReadI16At(b, 32, channels * 2);
    ReadI16At(b, 34, 16);
    ReadI32At(b, 40, |pcm|);
  }

  /** ParseWavHeader recovers the rate and channel count a saved file was
      built with, when they fit the fields (as values read by
      ParseWavHeader always do). */
  lemma WaveBytesParseHeader(pcm: seq<byte>, sampleRate: int, channels: int)
    requires IsInt32(sampleRate) && IsInt16(channels)
    ensures ParseWavHeader(WaveBytes(pcm, sampleRate, channels)) == Success((sampleRate, channels))
  {
    WaveHeaderFields(pcm, sampleRate, channels);
  }

  /** The saved file is a WAV file the WAV reader accepts: it reads back
      the PCM as samples at the same rate. */
  lemma WaveBytesIsWav(pcm: seq<byte>, sampleRate: int, channels: int)
    requires Wav.IsArrayLength(HeaderSize + |pcm|)
    ensures Wav.Parse(WaveBytes(pcm, sampleRate, channels))
      == Success(Wav.WavData(Samples16(pcm), Wrap32(sampleRate)))
  {
    var h := WaveHeader(|pcm|, sampleRate, channels);
    assert h[0..4] == RiffTag && h[12..16] == FmtTag && h[16..20] == LE32(16) && h[36..40] == DataTag;
    assert h[24..28] == LE32(sampleRate);
    ReadI32At(h, 24, sampleRate);
    Wav.CanonicalHeaderParses(h, pcm);
  }

  /** The streaming state: `_isInitialized`, the header buffer, the full
      PCM buffer, the parsed format, and whether the player has been
      initialised (its AudioSource exists). */
  datatype Stream = Stream(initialized: bool, header: seq<byte>, full: seq<byte>,
                           sampleRate: int, channels: int, playerReady: bool)

  /** The state CleanupResources leaves: buffers empty, not initialised;
      the format fields and the player's source are kept. */
  function Cleared(s: Stream): (r: Stream)
    ensures !r.initialized && r.header == [] && r.full == []
    ensures r.sampleRate == s.sampleRate && r.channels == s.channels && r.playerReady == s.playerReady
  {
    s.(initialized := false, header := [], full := [])
  }

  /** Pushing a non-empty chunk to a player whose AudioSource was never
      created throws (the first Play() dereferences it), and the handler
      cancels the stream. That happens for a PCM chunk after a header that
      carried no PCM. */
  predicate Cancels(s: Stream, chunk: seq<byte>) {
    |chunk| > 0 && s.initialized && !s.playerReady
  }

  /** The bytes a chunk sends to the player. */
  function Pushed(s: Stream, chunk: seq<byte>): seq<byte> {
    if |chunk| == 0 then []
    else if s.initialized then chunk
    else
      var h := s.header + chunk;
      if |h| > HeaderSize then h[HeaderSize..] else []
  }

  /** OnDataReceived: an empty chunk changes nothing; before the header is
      complete bytes only accumulate; the chunk that completes it fixes the
      format, keeps what follows the header and initialises the player if
      anything follows; afterwards every chunk is PCM. */
  function Receive(s: Stream, chunk: seq<byte>): (r: Stream)
    ensures |chunk| == 0 ==> r == s
    ensures Cancels(s, chunk) ==> r == Cleared(s)
    ensures !Cancels(s, chunk) ==> r.full == s.full + Pushed(s, chunk)
    ensures r.playerReady == (s.playerReady || (|chunk| > 0 && !s.initialized && |s.header + chunk| > HeaderSize))
  {
    if |chunk| == 0 then s
    else if s.initialized then
      if s.playerReady then s.(full := s.full + chunk) else Cleared(s)
    else
      var h := s.header + chunk;
      if |h| < HeaderSize then s.(header := h)
      else
        assert h[HeaderSize..] == [] || |h| > HeaderSize;
        Stream(true, [], s.full + h[HeaderSize..], ReadI32(h, 24), ReadI16(h, 22),
               s.playerReady || |h| > HeaderSize)
  }

  /** What the state says about all the bytes received since the stream
      (re)started: below 44 bytes they are all in the header buffer; from
      44 on the header buffer is empty, the full buffer is everything after
      byte 44 and the format was read from bytes 22..28. */
  predicate Inv(s: Stream, received: seq<byte>) {
    && (!s.initialized ==> s.header == received && |received| < HeaderSize && s.full == [])
    && (s.initialized ==>
          && s.header == [] && |received| >= HeaderSize && s.full == received[HeaderSize..]
          && s.sampleRate == ReadI32(received, 24) && s.channels == ReadI16(received, 22))
  }

  lemma ReadsInPrefix(a: seq<byte>, b: seq<byte>)
    requires |a| >= HeaderSize
    ensures ReadI32(a + b, 24) == ReadI32(a, 24) && ReadI16(a + b, 22) == ReadI16(a, 22)
  {
    var ab := a + b;
    assert ab[22] == a[22] && ab[23] == a[23];
    assert ab[24] == a[24] && ab[25] == a[25] && ab[26] == a[26] && ab[27] == a[27];
  }

  /** A chunk that does not cancel keeps the invariant for the bytes
      received so far plus the chunk. */
  lemma ReceiveKeepsInv(s: Stream, received: seq<byte>, chunk: seq<byte>)
    requires Inv(s, received) && !Cancels(s, chunk)
    ensures Inv(Receive(s, chunk), received + chunk)
  {
    if |chunk| > 0 && s.initialized {
      ReadsInPrefix(received, chunk);
      assert (received + chunk)[HeaderSize..] == received[HeaderSize..] + chunk;
    } else if |chunk| == 0 {
      assert received + chunk == received;
    }
  }

  function Concat(chunks: seq<seq<byte>>): (all: seq<byte>)
  {
    if chunks == [] then [] else Concat(chunks[..|chunks| - 1]) + chunks[|chunks| - 1]
  }

  /** The chunks delivered one after the other. */
  function ReceiveAll(s: Stream, chunks: seq<seq<byte>>): Stream
  {
    if chunks == [] then s else Receive(ReceiveAll(s, chunks[..|chunks| - 1]), chunks[|chunks| - 1])
  }

  predicate NoCancel(s: Stream, chunks: seq<seq<byte>>) {
    chunks == [] ||
      (NoCancel(s, chunks[..|chunks| - 1])
       && !Cancels(ReceiveAll(s, chunks[..|chunks| - 1]), chunks[|chunks| - 1]))
  }

  /** A fresh stream: nothing received; the format fields hold whatever an
      earlier stream left. */
  function Fresh(sampleRate: int, channels: int, playerReady: bool): (s: Stream)
    ensures Inv(s, [])
  {
    Stream(false, [], [], sampleRate, channels, playerReady)
  }

  /** Unless the stream is cancelled, it reassembles: nothing reaches the
      full buffer before 44 bytes have arrived; after that the header
      buffer is empty, the format is read from the first 44 bytes and the
      full buffer holds every byte after them. */
  lemma {:induction false} StreamReassembles(sampleRate: int, channels: int, playerReady: bool,
                                             chunks: seq<seq<byte>>)
    requires NoCancel(Fresh(sampleRate, channels, playerReady), chunks)
    ensures var s := ReceiveAll(Fresh(sampleRate, channels, playerReady), chunks);
      var all := Concat(chunks);
      && (|all| < HeaderSize ==> !s.initialized && s.header == all && s.full == [])
      && (|all| >= HeaderSize ==>
            && s.initialized && s.header == [] && s.full == all[HeaderSize..]
            && s.sampleRate == ReadI32(all, 24) && s.channels == ReadI16(all, 22))
  {
    StreamInv(Fresh(sampleRate, channels, playerReady), chunks);
  }

  lemma {:induction false} StreamInv(s0: Stream, chunks: seq<seq<byte>>)
    requires Inv(s0, []) && NoCancel(s0, chunks)
    ensures Inv(ReceiveAll(s0, chunks), Concat(chunks))
  {
    if chunks != [] {
      var init := chunks[..|chunks| - 1];
      StreamInv(s0, init);
      ReceiveKeepsInv(ReceiveAll(s0, init), Concat(init), chunks[|chunks| - 1]);
    }
  }

  /** A player that is already initialised never makes a chunk cancel. */
  lemma {:induction false} ReadyPlayerNeverCancels(sampleRate: int, channels: int, chunks: seq<seq<byte>>)
    ensures NoCancel(Fresh(sampleRate, channels, true), chunks)
    ensures ReceiveAll(Fresh(sampleRate, channels, true), chunks).playerReady
  {
    if chunks != [] {
      ReadyPlayerNeverCancels(sampleRate, channels, chunks[..|chunks| - 1]);
    }
  }

  /** A header that arrives on its own, exactly 44 bytes, marks the stream
      initialised without initialising the player, so the first PCM chunk
      after it cancels the stream. */
  lemma HeaderAloneCancels(sampleRate: int, channels: int, header: seq<byte>, pcm: seq<byte>)
    requires |header| == HeaderSize && |pcm| > 0
    ensures var s := Receive(Fresh(sampleRate, channels, false), header);
      && s.initialized && s.full == [] && !s.playerReady
      && Cancels(s, pcm)
      && Receive(s, pcm) == Cleared(s)
  {
    assert [] + header == header;
  }

  /** A 20-byte chunk, then one of 24 header bytes and 100 PCM bytes: the
      second chunk completes the header, initialises the player and leaves
      exactly those 100 bytes in the full buffer. */
  lemma TwoChunkStream(sampleRate: int, channels: int, a: seq<byte>, b: seq<byte>)
    requires |a| == 20 && |b| == 124
    ensures var s1 := Receive(Fresh(sampleRate, channels, false), a);
      var s2 := Receive(s1, b);
      && !s1.initialized && s1.header == a
      && !Cancels(s1, b) && Pushed(s1, b) == b[24..]
      && s2 == Stream(true, [], b[24..], ReadI32(a + b, 24), ReadI16(a + b, 22), true)
  {
    assert [] + a == a;
    assert (a + b)[HeaderSize..] == b[24..];
  }

  /** The parameters CreateStreamingRequest passes to TTSRequestBuilder:
      the configured settings with streaming_mode forced on. */
  function StreamingParameters(text: string, settings: TtsSettings): (p: map<string, Value>)
    ensures p.Keys == set k | k in GptSovitsNames
    ensures "text" in p && p["text"] == Str(text)
    ensures "streaming_mode" in p && p["streaming_mode"] == Bool(true)
  {
    SettingsParameters(text, settings.(streamingMode := true))
  }

  /** For the GPT-SoVITS engine the request always streams. */
  lemma StreamingRequestStreams(engineName: string, text: string, settings: TtsSettings)
    requires Strings.ToLower(engineName) == "gpt-sovits"
    ensures var r := BuildRequest(engineName, StreamingParameters(text, settings));
      && r == Success(SettingsFields(text, settings.(streamingMode := true)))
      && Get(r.value, "streaming_mode") == Some(Bool(true))
      && Get(r.value, "text") == Some(Str(text))
  {
    BuilderAgreesWithSettings(text, settings.(streamingMode := true));
    GetAt(SettingsFields(text, settings.(streamingMode := true)), 8, "streaming_mode");
  }

  /** Path.Combine(dir, file): no separator is added after one already
      there. */
  function Combine(dir: string, file: string, sep: char): (r: string)
    ensures |dir| > 0 && (dir[|dir| - 1] == sep || dir[|dir| - 1] == '/') ==> r == dir + file
    ensures |dir| == 0 ==> r == file
    ensures |dir| > 0 && dir[|dir| - 1] != sep && dir[|dir| - 1] != '/' ==> r == dir + [sep] + file
  {
    if |dir| == 0 then file
    else if dir[|dir| - 1] == sep || dir[|dir| - 1] == '/' then dir + file
    else dir + [sep] + file
  }

  class StreamingTtsEngine {
    const name: string
    const endpoint: string
    const player: AudioStreamPlayer
    /** `_activeRequest` is set. */
    var requestActive: bool
    var isInitialized: bool
    var headerBuffer: seq<byte>
    var fullAudioBuffer: seq<byte>
    var sampleRate: int
    var channels: int
    /** The bytes received since the stream last (re)started. */
    ghost var received: seq<byte>

    function State(): Stream
      reads this, player
    {
      Stream(isInitialized, headerBuffer, fullAudioBuffer, sampleRate, channels, player.hasSource)
    }

    ghost predicate Valid()
      reads this, player
    {
      && player.Valid()
      && (player.isPlaying ==> player.hasSource)
      && Inv(State(), received)
    }

    constructor (name: string, endpoint: string)
      ensures Valid() && fresh(player)
      ensures this.name == name && this.endpoint == endpoint
      ensures State() == Fresh(0, 0, false) && received == [] && !requestActive
      ensures player.queue == [] && !player.isPlaying
    {
      this.name := name;
      this.endpoint := endpoint;
      player := new AudioStreamPlayer();
      requestActive := false;
      isInitialized := false;
      headerBuffer := [];
      fullAudioBuffer := [];
      sampleRate := 0;
      channels := 0;
      received := [];
    }

    /** CleanupResources: drops the request, empties both buffers, stops
        the player and clears the initialised flag. */
    method CleanupResources()
      modifies this, player
      requires player.Valid()
      ensures Valid()
      ensures State() == Cleared(old(State())) && received == [] && !requestActive
      ensures player.queue == [] && !player.isPlaying
    {
      requestActive := false;
      headerBuffer := [];
      fullAudioBuffer := [];
      player.Stop();
      isInitialized := false;
      received := [];
    }

    /** Cancel: aborts the request, stops the player and cleans up. */
    method Cancel()
      modifies this, player
      requires player.Valid()
      ensures Valid()
      ensures State() == Cleared(old(State())) && received == [] && !requestActive
      ensures player.queue == [] && !player.isPlaying
    {
      player.Stop();
      CleanupResources();
    }

    /** OnDataReceived, proved against Receive. A null chunk is an empty
        one. The player is initialised with the parsed format just before
        the first PCM is pushed; every pushed chunk is enqueued. */
    method OnDataReceived(chunk: Option<seq<byte>>)
      modifies this, player
      requires Valid()
      ensures Valid()
      ensures var c := chunk.GetOr([]);
        && State() == Receive(old(State()), c)
        && (Cancels(old(State()), c) ==>
              received == [] && !requestActive && player.queue == [] && !player.isPlaying)
        && (!Cancels(old(State()), c) ==>
              var pushed := Pushed(old(State()), c);
              && received == old(received) + c && requestActive == old(requestActive)
              && (|pushed| == 0 ==> player.queue == old(player.queue) && player.isPlaying == old(player.isPlaying))
              && (|pushed| > 0 ==> player.queue == Trimmed(old(player.queue) + Samples16(pushed)) && player.isPlaying)
              && (!old(isInitialized) && |pushed| > 0 ==>
                    player.sampleRate == sampleRate && player.channels == channels))
    {
      var c := chunk.GetOr([]);
      if |c| == 0 {
        assert old(received) + c == old(received);
        return;
      }
      if !isInitialized {
        ReceiveHeaderBytes(c);
      } else {
        ReceivePcm(c);
      }
    }

    /** The branch of OnDataReceived that is still collecting the header;
        it never cancels. */
    method ReceiveHeaderBytes(c: seq<byte>)
      modifies this, player
      requires Valid() && !isInitialized && |c| > 0
      ensures Valid()
      ensures State() == Receive(old(State()), c)
      ensures received == old(received) + c && requestActive == old(requestActive)
      ensures var pushed := Pushed(old(State()), c);
        && (|pushed| == 0 ==> player.queue == old(player.queue) && player.isPlaying == old(player.isPlaying))
        && (|pushed| > 0 ==>
              && player.queue == Trimmed(old(player.queue) + Samples16(pushed)) && player.isPlaying
              && player.sampleRate == sampleRate && player.channels == channels)
    {
      ghost var s0 := State();
      ReceiveKeepsInv(s0, received, c);
      var h := headerBuffer + c;
      received := received + c;
      if |h| < HeaderSize {
        headerBuffer := h;
      } else {
        CompleteHeader(h);
      }
    }

    /** The chunk that completes the 44-byte header: the format is read
        from it, what follows the header starts the full buffer and, when
        there is any, the player is set to the format and given it. */
    method CompleteHeader(h: seq<byte>)
      modifies this`isInitialized, this`headerBuffer, this`sampleRate, this`channels,
               this`fullAudioBuffer, player
      requires player.Valid() && (player.isPlaying ==> player.hasSource) && |h| >= HeaderSize
      ensures isInitialized && headerBuffer == []
      ensures sampleRate == ReadI32(h, 24) && channels == ReadI16(h, 22)
      ensures fullAudioBuffer == old(fullAudioBuffer) + h[HeaderSize..]
      ensures player.Valid() && (player.isPlaying ==> player.hasSource)
      ensures player.hasSource == (old(player.hasSource) || |h| > HeaderSize)
      ensures |h| == HeaderSize ==> player.queue == old(player.queue) && player.isPlaying == old(player.isPlaying)
      ensures |h| > HeaderSize ==>
        && player.queue == Trimmed(old(player.queue) + Samples16(h[HeaderSize..])) && player.isPlaying
        && player.sampleRate == sampleRate && player.channels == channels
    {
      var format := ParseWavHeader(h);
      sampleRate := format.value.0;
      channels := format.value.1;
      var leftover := |h| - HeaderSize;
      if leftover > 0 {
        var firstPcm := h[HeaderSize..];
        fullAudioBuffer := fullAudioBuffer + firstPcm;
        player.Initialize(sampleRate, channels);
        var ok := player.EnqueueChunk(Some(firstPcm));
      } else {
        assert h[HeaderSize..] == [];
      }
      isInitialized := true;
      headerBuffer := [];
    }

    /** The branch of OnDataReceived that pushes PCM; a player without an
        AudioSource makes it cancel the stream. */
    method ReceivePcm(c: seq<byte>)
      modifies this, player
      requires Valid() && isInitialized && |c| > 0
      ensures Valid()
      ensures State() == Receive(old(State()), c)
      ensures Cancels(old(State()), c) ==>
        received == [] && !requestActive && player.queue == [] && !player.isPlaying
      ensures !Cancels(old(State()), c) ==>
        && received == old(received) + c && requestActive == old(requestActive)
        && player.queue == Trimmed(old(player.queue) + Samples16(c)) && player.isPlaying
    {
      fullAudioBuffer := fullAudioBuffer + c;
      var ok := player.EnqueueChunk(Some(c));
      if !ok {
        Cancel();
      } else {
        ReceiveKeepsInvIfNoCancel(old(State()), received, c);
        received := received + c;
      }
    }

    /** SaveFullWavFile: the guard, then the file BuildWaveBytes assembles,
        saved as UserData/TTS_<AI name>/<stamp>.wav. */
    method SaveFullWavFile(aiName: string, stamp: string, sep: char) returns (result: string, saved: Option<SavedFile>)
      ensures |fullAudioBuffer| == 0 || sampleRate <= 0 || channels <= 0 ==>
        result == NoAudioMessage && saved.None?
      ensures |fullAudioBuffer| > 0 && sampleRate > 0 && channels > 0 ==>
        && result == Combine(OutputDirectory(aiName), stamp + ".wav", sep)
        && saved == Some(SavedFile(result, WaveBytes(fullAudioBuffer, sampleRate, channels)))
    {
      if |fullAudioBuffer| == 0 || sampleRate <= 0 || channels <= 0 {
        return NoAudioMessage, None;
      }
      var completeWav := WaveBytes(fullAudioBuffer, sampleRate, channels);
      result := Combine(OutputDirectory(aiName), stamp + ".wav", sep);
      saved := Some(SavedFile(result, completeWav));
    }

    /** CreateStreamingRequest and the assignment to `_activeRequest`. A
        name the builder rejects throws before the request exists. */
    method StartRequest(text: string, settings: TtsSettings) returns (r: Result<seq<Field>, BuildError>)
      modifies this
      ensures r == BuildRequest(name, StreamingParameters(text, settings))
      ensures requestActive == (old(requestActive) || r.Success?)
      ensures isInitialized == old(isInitialized) && headerBuffer == old(headerBuffer)
      ensures fullAudioBuffer == old(fullAudioBuffer) && received == old(received)
      ensures sampleRate == old(sampleRate) && channels == old(channels)
    {
      r := BuildRequest(name, StreamingParameters(text, settings));
      if r.Success? {
        requestActive := true;
      }
    }

    /** The end of ProcessAudio (the coroutine): a failed request reports
        the error and returns without cleaning up; a finished one saves the
        file, reports its path and cleans up. If the stream was cancelled
        the request is gone, reading its result throws, and the callback
        is never called. */
    method FinishProcessAudio(succeeded: bool, error: string, aiName: string, stamp: string, sep: char)
      returns (callback: Option<(Option<string>, Option<string>)>, saved: Option<SavedFile>)
      modifies this, player
      requires Valid()
      ensures Valid()
      ensures !old(requestActive) ==> callback.None? && saved.None? && State() == old(State())
      ensures old(requestActive) && !succeeded ==>
        callback == Some((None, Some(error))) && saved.None?
        && State() == old(State()) && received == old(received) && requestActive
      ensures old(requestActive) && succeeded ==>
        && callback.Some? && callback.value.1.None? && callback.value.0.Some?
        && (saved.Some? <==> |old(fullAudioBuffer)| > 0 && old(sampleRate) > 0 && old(channels) > 0)
        && (saved.Some? ==>
              callback.value.0 == Some(saved.value.path)
              && saved.value.bytes == WaveBytes(old(fullAudioBuffer), old(sampleRate), old(channels)))
        && (saved.None? ==> callback.value.0 == Some(NoAudioMessage))
        && State() == Cleared(old(State())) && !requestActive && player.queue == []
    {
      if !requestActive {
        return None, None;
      }
      if !succeeded {
        return Some((None, Some(error))), None;
      }
      var finalPath;
      finalPath, saved := SaveFullWavFile(aiName, stamp, sep);
      callback := Some((Some(finalPath), None));
      CleanupResources();
    }

    /** The end of ProcessAudioAsyncCoroutine: like the coroutine, but a
        failed request also cleans up. The returned Task stays pending when the
        stream was cancelled. */
    method FinishProcessAudioAsync(succeeded: bool, error: string, aiName: string, stamp: string, sep: char)
      returns (task: TaskState, saved: Option<SavedFile>)
      modifies this, player
      requires Valid()
      ensures Valid()
      ensures !old(requestActive) ==> task == Pending && saved.None? && State() == old(State())
      ensures old(requestActive) && !succeeded ==>
        task == Faulted(error) && saved.None? && State() == Cleared(old(State())) && !requestActive
      ensures old(requestActive) && succeeded ==>
        && task.Completed?
        && (saved.Some? <==> |old(fullAudioBuffer)| > 0 && old(sampleRate) > 0 && old(channels) > 0)
        && (saved.Some? ==> task.path == saved.value.path)
        && (saved.None? ==> task.path == NoAudioMessage)
        && State() == Cleared(old(State())) && !requestActive
    {
      if !requestActive {
        return Pending, None;
      }
      if !succeeded {
        CleanupResources();
        return Faulted(error), None;
      }
      var finalPath;
      finalPath, saved := SaveFullWavFile(aiName, stamp, sep);
      task := Completed(finalPath);
      CleanupResources();
    }
  }

  lemma ReceiveKeepsInvIfNoCancel(s: Stream, received: seq<byte>, chunk: seq<byte>)
    requires Inv(s, received)
    ensures !Cancels(s, chunk) ==> Inv(Receive(s, chunk), received + chunk)
  {
    if !Cancels(s, chunk) {
      ReceiveKeepsInv(s, received, chunk);
    }
  }
}
