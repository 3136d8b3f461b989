/** AudioEngineManager (src/util/audio/AudioEngineManager.cs): the same
    case-insensitive registry for audio engines; the engine's
    ProcessAudioAsync is passed in as `process`. */
module AudioEngineManager {
  import opened Wrappers
  import opened EngineRegistry

  class AudioEngineManager<E> {
    var entries: seq<Entry<E>>
    const defaultEngine: string

    constructor (defaultEngine: string, engines: seq<Entry<E>>)
      ensures this.defaultEngine == defaultEngine
      ensures entries == RegisterAll(engines)
    {
      var registered: seq<Entry<E>> := [];
      var i := 0;
      while i < |engines|
        invariant 0 <= i <= |engines|
        invariant registered == RegisterAll(engines[..i])
      {
        assert engines[..i + 1][..i] == engines[..i];
        registered := Set(registered, engines[i].key, engines[i].engine);
        i := i + 1;
      }
      assert engines[..i] == engines;
      this.defaultEngine := defaultEngine;
      entries := registered;
    }

    /** The resolved engine gets the text unchanged and its result is
        returned. */
    method ProcessAudioAsync<R>(text: string, engineName: Option<string>, process: (E, string) -> R)
      returns (r: Result<R, string>)
      ensures var found := Resolve(entries, defaultEngine, engineName);
        && (found.Failure? ==> r == Failure(found.error))
        && (found.Success? ==> r == Success(process(found.value, text)))
    {
      var found := Resolve(entries, defaultEngine, engineName);
      if found.Failure? {
        return Failure(found.error);
      }
      return Success(process(found.value, text));
    }
  }
}
