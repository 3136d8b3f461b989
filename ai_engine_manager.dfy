/** AIEngineManager (src/util/AIEngineManager.cs): resolves an engine by
    name, ignoring case, and hands the call to it. The engines' own
    behaviour is passed in as functions: `send` for SendRequestAsync,
    `test` for TestConnectionAsync, `isTTS`/`process` for the TTSEngine
    type test and its ProcessAudioAsync. */
module AIEngineManager {
  import opened Wrappers
  import opened EngineRegistry

  class AIEngineManager<E> {
    var entries: seq<Entry<E>>
    const defaultEngine: string

    /** Registers every pair in order with `_engines[name] = engine`. */
    constructor (defaultEngine: string, engines: seq<Entry<E>>)
      ensures this.defaultEngine == defaultEngine
      ensures entries == RegisterAll(engines)
    {
      var registered: seq<Entry<E>> := [];
      var i := 0;
      while i < |engines|
        invariant 0 <= i <= |engines|
        invariant registered == RegisterAll(engines[..i])
      {
        assert engines[..i + 1][..i] == engines[..i];
        registered := Set(registered, engines[i].key, engines[i].engine);
        i := i + 1;
      }
      assert engines[..i] == engines;
      this.defaultEngine := defaultEngine;
      entries := registered;
    }

    /** The resolved engine gets the prompt, model and system prompt
        unchanged and its answer is returned as it is. */
    method SendRequestAsync<R>(prompt: string, engineName: Option<string>, model: Option<string>,
                               systemPrompt: Option<string>,
                               send: (E, string, Option<string>, Option<string>) -> R)
      returns (r: Result<R, string>)
      ensures var found := Resolve(entries, defaultEngine, engineName);
        && (found.Failure? ==> r == Failure(found.error))
        && (found.Success? ==> r == Success(send(found.value, prompt, model, systemPrompt)))
    {
      var found := Resolve(entries, defaultEngine, engineName);
      if found.Failure? {
        return Failure(found.error);
      }
      return Success(send(found.value, prompt, model, systemPrompt));
    }

    /** The resolved engine's TestConnectionAsync verdict, called without a
        model. */
    method TestEngineAsync(engineName: Option<string>, test: E -> bool) returns (r: Result<bool, string>)
      ensures var found := Resolve(entries, defaultEngine, engineName);
        && (found.Failure? ==> r == Failure(found.error))
        && (found.Success? ==> r == Success(test(found.value)))
    {
      var found := Resolve(entries, defaultEngine, engineName);
      if found.Failure? {
        return Failure(found.error);
      }
      return Success(test(found.value));
    }

    /** Only an engine that is a TTSEngine may synthesise audio; any other
        is rejected by name. */
    method ProcessAudioAsync<R>(text: string, engineName: Option<string>, isTTS: E -> bool,
                                process: (E, string) -> R)
      returns (r: Result<R, string>)
      ensures var found := Resolve(entries, defaultEngine, engineName);
        && (found.Failure? ==> r == Failure(found.error))
        && (found.Success? && !isTTS(found.value) ==>
              r == Failure("Engine '" + engineName.GetOr(defaultEngine) + "' is not a valid TTS engine."))
        && (found.Success? && isTTS(found.value) ==> r == Success(process(found.value, text)))
    {
      var name := engineName.GetOr(defaultEngine);
      var found := Resolve(entries, defaultEngine, engineName);
      if found.Failure? {
        return Failure(found.error);
      }
      if !isTTS(found.value) {
        return Failure("Engine '" + name + "' is not a valid TTS engine.");
      }
      return Success(process(found.value, text));
    }
  }
}
