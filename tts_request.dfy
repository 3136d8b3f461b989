/** The GPT-SoVITS request payload built by TTSRequestBuilder
    (src/util/audio/TTSRequestBuilder.cs). A payload is the ordered list of
    fields the JSON object is serialised from; the JSON text itself
    (Newtonsoft's SerializeObject) is not modelled. */
module TtsRequest {
  import opened Wrappers
  import opened Strings

  /** The values the parameter dictionary holds. */
  datatype Value = Str(s: string) | Int(i: int) | Bool(b: bool)

  datatype Field = Field(name: string, value: Value)

  function Names(fields: seq<Field>): (r: seq<string>)
    ensures |r| == |fields|
    ensures forall i :: 0 <= i < |fields| ==> r[i] == fields[i].name
  {
    seq(|fields|, i requires 0 <= i < |fields| => fields[i].name)
  }

  /** The value of the first field called `name`. */
  function Get(fields: seq<Field>, name: string): (r: Option<Value>)
    ensures r.None? <==> name !in Names(fields)
    ensures r.Some? ==> exists i :: 0 <= i < |fields| && fields[i] == Field(name, r.value)
  {
    if fields == [] then None
    else if fields[0].name == name then Some(fields[0].value)
    else
      var r := Get(fields[1..], name);
      assert Names(fields) == [fields[0].name] + Names(fields[1..]);
      if r.Some? then
        var i :| 0 <= i < |fields[1..]| && fields[1..][i] == Field(name, r.value);
        assert fields[i + 1] == Field(name, r.value);
        r
      else r
  }

  /** The nine keys of a GPT-SoVITS request, in the order they are written. */
  const GptSovitsNames: seq<string> :=
    ["text", "text_lang", "ref_audio_path", "prompt_text", "prompt_lang",
     "text_split_method", "batch_size", "media_type", "streaming_mode"]

  /** The default of each of the nine keys, position by position; "text"
      and "ref_audio_path" have none. */
  const Defaults: seq<Option<Value>> :=
    [None, Some(Str("zh")), None, Some(Str("")), Some(Str("zh")),
     Some(Str("cut5")), Some(Int(1)), Some(Str("wav")), Some(Bool(false))]

  /** Dictionary.GetValueOrDefault. */
  function GetValueOrDefault(p: map<string, Value>, key: string, default: Value): (r: Value)
    ensures key in p ==> r == p[key]
    ensures key !in p ==> r == default
  {
    if key in p then p[key] else default
  }

  datatype BuildError =
    | MissingKey(key: string)          // the indexer throws KeyNotFoundException
    | UnsupportedEngine(message: string)

  /** BuildGPTSoVITSRequest: "text" and "ref_audio_path" are read with the
      indexer (in that order), the other seven with their defaults. */
  function BuildGptSovitsRequest(p: map<string, Value>): (r: Result<seq<Field>, BuildError>)
    ensures r.Success? <==> "text" in p && "ref_audio_path" in p
    ensures "text" !in p ==> r == Failure(MissingKey("text"))
    ensures "text" in p && "ref_audio_path" !in p ==> r == Failure(MissingKey("ref_audio_path"))
  {
    if "text" !in p then Failure(MissingKey("text"))
    else if "ref_audio_path" !in p then Failure(MissingKey("ref_audio_path"))
    else Success([
      Field("text", p["text"]),
      Field("text_lang", GetValueOrDefault(p, "text_lang", Str("zh"))),
      Field("ref_audio_path", p["ref_audio_path"]),
      Field("prompt_text", GetValueOrDefault(p, "prompt_text", Str(""))),
      Field("prompt_lang", GetValueOrDefault(p, "prompt_lang", Str("zh"))),
      Field("text_split_method", GetValueOrDefault(p, "text_split_method", Str("cut5"))),
      Field("batch_size", GetValueOrDefault(p, "batch_size", Int(1))),
      Field("media_type", GetValueOrDefault(p, "media_type", Str("wav"))),
      Field("streaming_mode", GetValueOrDefault(p, "streaming_mode", Bool(false)))])
  }

  /** The payload has exactly the nine keys, in order; each takes the
      supplied value or else its default ("text" and "ref_audio_path" have
      none and must be supplied), and every other input key is dropped. */
  lemma GptSovitsPayload(p: map<string, Value>)
    requires "text" in p && "ref_audio_path" in p
    ensures var r := BuildGptSovitsRequest(p).value;
      && Names(r) == GptSovitsNames
      && (forall i :: 0 <= i < |GptSovitsNames| ==>
            var k := GptSovitsNames[i];
            Get(r, k) == Some(if k in p then p[k] else Defaults[i].value))
      && (forall k :: k !in GptSovitsNames ==> Get(r, k).None?)
  {
    var r := BuildGptSovitsRequest(p).value;
    assert Names(r) == GptSovitsNames;
    forall i | 0 <= i < |GptSovitsNames|
      ensures Get(r, GptSovitsNames[i]) == Some(if GptSovitsNames[i] in p then p[GptSovitsNames[i]] else Defaults[i].value)
    {
      GetAt(r, i, GptSovitsNames[i]);
    }
  }

  /** The names of the nine keys are pairwise different. */
  lemma GptSovitsNamesDistinct()
    ensures forall i, j :: 0 <= i < j < |GptSovitsNames| ==> GptSovitsNames[i] != GptSovitsNames[j]
  {
  }

  /** In a payload with the nine keys, field i is the one `Get` finds. */
  lemma GetAt(r: seq<Field>, i: nat, k: string)
    requires Names(r) == GptSovitsNames && i < 9 && GptSovitsNames[i] == k
    ensures Get(r, k) == Some(r[i].value)
  {
    GptSovitsNamesDistinct();
    GetFirst(r, i, k);
  }

  lemma {:induction false} GetFirst(r: seq<Field>, i: nat, k: string)
    requires i < |r| && r[i].name == k && forall j :: 0 <= j < i ==> r[j].name != k
    ensures Get(r, k) == Some(r[i].value)
  {
    if i > 0 {
      GetFirst(r[1..], i - 1, k);
    }
  }

  /** BuildRequest: the engine name is lower-cased and must be "gpt-sovits". */
  function BuildRequest(engineName: string, p: map<string, Value>): (r: Result<seq<Field>, BuildError>)
    ensures ToLower(engineName) != "gpt-sovits" ==>
      r == Failure(UnsupportedEngine("Unsupported engine: " + engineName))
    ensures ToLower(engineName) == "gpt-sovits" ==> r == BuildGptSovitsRequest(p)
  {
    if ToLower(engineName) == "gpt-sovits" then BuildGptSovitsRequest(p)
    else Failure(UnsupportedEngine("Unsupported engine: " + engineName))
  }

  /** The match ignores case: the spelling used in the configuration is
      accepted. */
  lemma BuildRequestMixedCase(p: map<string, Value>)
    ensures BuildRequest("GPT-SoVITS", p) == BuildGptSovitsRequest(p)
  {
    LowerEngineName();
  }

  /** The configured spelling lowers to "gpt-sovits", character by character. */
  lemma LowerEngineName()
    ensures ToLower("GPT-SoVITS") == "gpt-sovits"
  {
    var s := "GPT-SoVITS";
    var r := ToLower(s);
    var e := "gpt-sovits";
    assert s[0] == 'G' && s[1] == 'P' && s[2] == 'T' && s[3] == '-' && s[4] == 'S';
    assert s[5] == 'o' && s[6] == 'V' && s[7] == 'I' && s[8] == 'T' && s[9] == 'S';
    assert LowerChar('G') == 'g' && LowerChar('P') == 'p' && LowerChar('T') == 't' && LowerChar('-') == '-';
    assert LowerChar('S') == 's' && LowerChar('o') == 'o' && LowerChar('V') == 'v' && LowerChar('I') == 'i';
    forall i | 0 <= i < 10 ensures r[i] == e[i] {
    }
  }

  /** The TTS entries of the configuration that feed a GPT-SoVITS request. */
  datatype TtsSettings = TtsSettings(
    textLang: string, refAudioPath: string, promptText: string, promptLang: string,
    textSplitMethod: string, batchSize: int, mediaType: string, streamingMode: bool)

  /** The nine-field payload written directly from the settings, as
      JsonRequestBuilder and TTSEngine do. */
  function SettingsFields(text: string, s: TtsSettings): (r: seq<Field>)
    ensures Names(r) == GptSovitsNames
    ensures Get(r, "text") == Some(Str(text))
  {
    var r := [
      Field("text", Str(text)), Field("text_lang", Str(s.textLang)),
      Field("ref_audio_path", Str(s.refAudioPath)), Field("prompt_text", Str(s.promptText)),
      Field("prompt_lang", Str(s.promptLang)), Field("text_split_method", Str(s.textSplitMethod)),
      Field("batch_size", Int(s.batchSize)), Field("media_type", Str(s.mediaType)),
      Field("streaming_mode", Bool(s.streamingMode))];
    assert Names(r) == GptSovitsNames;
    r
  }

  /** The same settings handed to the builder as a parameter dictionary. */
  function SettingsParameters(text: string, s: TtsSettings): (p: map<string, Value>)
    ensures p.Keys == set k | k in GptSovitsNames
  {
    map["text" := Str(text), "text_lang" := Str(s.textLang),
        "ref_audio_path" := Str(s.refAudioPath), "prompt_text" := Str(s.promptText),
        "prompt_lang" := Str(s.promptLang), "text_split_method" := Str(s.textSplitMethod),
        "batch_size" := Int(s.batchSize), "media_type" := Str(s.mediaType),
        "streaming_mode" := Bool(s.streamingMode)]
  }

  /** With every key supplied, the builder writes the same payload as the
      direct construction: no default is used. */
  lemma BuilderAgreesWithSettings(text: string, s: TtsSettings)
    ensures BuildGptSovitsRequest(SettingsParameters(text, s)) == Success(SettingsFields(text, s))
  {
    var p := SettingsParameters(text, s);
    assert p["text"] == Str(text) && p["text_lang"] == Str(s.textLang);
    assert p["ref_audio_path"] == Str(s.refAudioPath) && p["prompt_text"] == Str(s.promptText);
    assert p["prompt_lang"] == Str(s.promptLang) && p["text_split_method"] == Str(s.textSplitMethod);
    assert p["batch_size"] == Int(s.batchSize) && p["media_type"] == Str(s.mediaType);
    assert p["streaming_mode"] == Bool(s.streamingMode);
  }
}
