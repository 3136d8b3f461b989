/** JsonRequestBuilder (src/util/JsonRequestBuilder.cs): the request
    payloads chosen by the configured TTS engine and audio-model engine.
    Engine names are matched exactly, case included. */
module JsonRequestBuilder {
  import opened Wrappers
  import opened TtsRequest
  import Strings

  /** CreateTTSRequest: "GPT-SoVITS" sends the nine configured fields,
      "OpenAI" a fixed model and voice; anything else throws. */
  function CreateTtsRequest(ttsEngine: string, text: string, settings: TtsSettings): (r: Result<seq<Field>, string>)
    ensures r.Success? <==> ttsEngine == "GPT-SoVITS" || ttsEngine == "OpenAI"
    ensures r.Failure? ==> r.error == "[TTS] Unsupported TTS engine: " + ttsEngine
    ensures ttsEngine == "GPT-SoVITS" ==> r == Success(SettingsFields(text, settings))
    ensures ttsEngine == "OpenAI" ==>
      r.Success? && Names(r.value) == ["model", "input", "voice"]
      && Get(r.value, "input") == Some(Str(text))
      && Get(r.value, "model") == Some(Str("tts-1")) && Get(r.value, "voice") == Some(Str("alloy"))
  {
    if ttsEngine == "GPT-SoVITS" then Success(SettingsFields(text, settings))
    else if ttsEngine == "OpenAI" then
      var r := [Field("model", Str("tts-1")), Field("input", Str(text)), Field("voice", Str("alloy"))];
      assert Names(r) == ["model", "input", "voice"];
      Success(r)
    else Failure("[TTS] Unsupported TTS engine: " + ttsEngine)
  }

  /** CreateAudioModelRequest: "Omni" sends the text with format "wav",
      "Bark" sends it as the prompt with the neutral voice. */
  function CreateAudioModelRequest(audioModelEngine: string, text: string): (r: Result<seq<Field>, string>)
    ensures r.Success? <==> audioModelEngine == "Omni" || audioModelEngine == "Bark"
    ensures r.Failure? ==> r.error == "[AudioModel] Unsupported Audio Model engine: " + audioModelEngine
    ensures audioModelEngine == "Omni" ==>
      r.Success? && Names(r.value) == ["text", "format"]
      && Get(r.value, "text") == Some(Str(text)) && Get(r.value, "format") == Some(Str("wav"))
    ensures audioModelEngine == "Bark" ==>
      r.Success? && Names(r.value) == ["prompt", "voice"]
      && Get(r.value, "prompt") == Some(Str(text)) && Get(r.value, "voice") == Some(Str("neutral"))
  {
    if audioModelEngine == "Omni" then
      var r := [Field("text", Str(text)), Field("format", Str("wav"))];
      assert Names(r) == ["text", "format"];
      Success(r)
    else if audioModelEngine == "Bark" then
      var r := [Field("prompt", Str(text)), Field("voice", Str("neutral"))];
      assert Names(r) == ["prompt", "voice"];
      Success(r)
    else Failure("[AudioModel] Unsupported Audio Model engine: " + audioModelEngine)
  }

  /** The GPT-SoVITS payload here is the one TTSRequestBuilder produces
      when every setting is passed in as a parameter. */
  lemma GptSovitsMatchesBuilder(text: string, settings: TtsSettings)
    ensures BuildRequest("GPT-SoVITS", SettingsParameters(text, settings))
      == Success(CreateTtsRequest("GPT-SoVITS", text, settings).value)
  {
    BuildRequestMixedCase(SettingsParameters(text, settings));
    BuilderAgreesWithSettings(text, settings);
  }

  /** The exact match is case-sensitive, unlike TTSRequestBuilder. */
  lemma TtsEngineNameIsCaseSensitive(text: string, settings: TtsSettings)
    ensures CreateTtsRequest("gpt-sovits", text, settings).Failure?
    ensures BuildRequest("gpt-sovits", SettingsParameters(text, settings)).Success?
  {
    assert CreateTtsRequest("gpt-sovits", text, settings).Failure? by {
      assert "gpt-sovits"[0] == 'g';
    }
    assert BuildRequest("gpt-sovits", SettingsParameters(text, settings)).Success? by {
      LowerEngineName();
      BuilderAgreesWithSettings(text, settings);
    }
  }
}
