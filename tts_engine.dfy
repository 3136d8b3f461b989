/** TTSEngine (src/util/audio/TTSEngine.cs): a GPT-SoVITS request, the
    downloaded WAV saved under the AI's folder, and the result handed to a
    callback or a task. The HTTP exchange is an input; the clock is the
    `stamp` parameter (DateTime.Now formatted yyyyMMdd_HHmmss). */
module TtsEngine {
  import opened Wrappers
  import opened Strings
  import opened Bytes
  import opened TtsRequest

  /** CreateTTSRequest: the engine's own name, lower-cased, must be
      "gpt-sovits"; the payload is the nine configured fields. */
  function CreateTtsRequest(engineName: string, text: string, settings: TtsSettings): (r: Result<seq<Field>, string>)
    ensures r.Success? <==> ToLower(engineName) == "gpt-sovits"
    ensures r.Success? ==> Names(r.value) == GptSovitsNames && Get(r.value, "text") == Some(Str(text))
    ensures r.Failure? ==> r.error == engineName + " is not supported."
  {
    if ToLower(engineName) == "gpt-sovits" then Success(SettingsFields(text, settings))
    else Failure(engineName + " is not supported.")
  }

  /** The folder and file the audio is saved to. */
  function OutputDirectory(aiName: string): (dir: string)
    ensures StartsWith(dir, "UserData/TTS_")
    ensures dir[|"UserData/TTS_"|..] == aiName
  {
    "UserData/TTS_" + aiName
  }

  function OutputPath(aiName: string, stamp: string): (path: string)
    ensures path == OutputDirectory(aiName) + "/" + stamp + ".wav"
    ensures StartsWith(path, "UserData/TTS_")
  {
    var path := OutputDirectory(aiName) + "/" + stamp + ".wav";
    assert path[..13] == "UserData/TTS_";
    path
  }

  /** How the web request ended. */
  datatype WebResult = WebSuccess(data: seq<byte>) | WebError(error: string)

  /** The state the TaskCompletionSource is left in. A request that cannot
      be built throws inside the coroutine, which ends it before either
      SetResult or SetException runs. */
  datatype TaskState = Pending | Completed(path: string) | Faulted(error: string)

  datatype SavedFile = SavedFile(path: string, bytes: seq<byte>)

  /** One run of ProcessAudioCoroutine: the payload sent (if any), the file
      written (if any) and the returned Task's final state. */
  datatype Run = Run(sent: Option<seq<Field>>, saved: Option<SavedFile>, task: TaskState)

  function ProcessAudioCoroutine(engineName: string, text: string, settings: TtsSettings,
                                 aiName: string, stamp: string, web: WebResult): (r: Run)
    ensures ToLower(engineName) != "gpt-sovits" ==> r == Run(None, None, Pending)
    ensures ToLower(engineName) == "gpt-sovits" ==> r.sent == Some(SettingsFields(text, settings))
    ensures web.WebSuccess? && r.sent.Some? ==>
      r.saved == Some(SavedFile(OutputPath(aiName, stamp), web.data))
      && r.task == Completed(OutputPath(aiName, stamp))
    ensures web.WebError? && r.sent.Some? ==> r.saved.None? && r.task == Faulted(web.error)
  {
    match CreateTtsRequest(engineName, text, settings)
    case Failure(_) => Run(None, None, Pending)
    case Success(payload) =>
      match web
      case WebSuccess(data) =>
        var path := OutputPath(aiName, stamp);
        Run(Some(payload), Some(SavedFile(path, data)), Completed(path))
      case WebError(error) => Run(Some(payload), None, Faulted(error))
  }

  /** Task.Exception is an AggregateException; its Message (.NET Core and
      later) wraps the inner message. */
  function AggregateMessage(inner: string): string {
    "One or more errors occurred. (" + inner + ")"
  }

  /** What ProcessAudio passes to callback(path, error): nothing while the
      task stays pending (the wait loop never ends). */
  function Callback(task: TaskState): (r: Option<(Option<string>, Option<string>)>)
    ensures task.Pending? <==> r.None?
    ensures task.Completed? ==> r == Some((Some(task.path), None))
    ensures task.Faulted? ==> r == Some((None, Some(AggregateMessage(task.error))))
  {
    match task
    case Pending => None
    case Completed(path) => Some((Some(path), None))
    case Faulted(error) => Some((None, Some(AggregateMessage(error))))
  }

  /** Exactly one of the callback's two arguments is set, and the path is
      set exactly when the download succeeded and the file was saved. */
  lemma CallbackOneOf(engineName: string, text: string, settings: TtsSettings,
                      aiName: string, stamp: string, web: WebResult)
    requires ToLower(engineName) == "gpt-sovits"
    ensures var run := ProcessAudioCoroutine(engineName, text, settings, aiName, stamp, web);
      var cb := Callback(run.task);
      && cb.Some?
      && (cb.value.0.Some? <==> cb.value.1.None?)
      && (cb.value.0.Some? <==> run.saved.Some?)
      && (run.saved.Some? ==> cb.value.0 == Some(run.saved.value.path))
  {
  }
}
