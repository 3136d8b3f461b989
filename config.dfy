/** The configuration validator and the reload step of src/Config.cs.
    The preference entries are one `Settings` value; the screen size and the
    outcome of Uri.TryCreate (an absolute URI whose scheme is http or https)
    are parameters. */
module Config {
  import opened Wrappers
  import opened Strings

  datatype Settings = Settings(
    apiKey: string, apiUrl: string, systemPrompt: string, aiName: string,
    windowWidth: int, windowHeight: int, windowX: int, windowY: int, fontSize: int)

  /** Screen.width and Screen.height. */
  datatype Screen = Screen(width: int, height: int)

  const KeyMissing := "API Key is not configured!"
  const KeyShort := "API Key appears to be too short - please verify your key!"
  const UrlEmpty := "API URL is empty!"
  const UrlPlaceholder := "API URL contains placeholder 'XXX' - please update with your account ID!"
  const UrlNotHttp := "API URL is not a valid HTTP/HTTPS URL!"
  const UrlNoRun := "Cloudflare AI URL appears to be invalid - should contain '/ai/run/'!"
  const UrlNoAccounts := "Cloudflare AI URL appears to be invalid - should contain '/accounts/'!"
  const PromptEmpty := "System prompt is empty!"
  const PromptLong := "System prompt exceeds recommended length (4096 characters)!"
  const NameMissing := "AI Name is not configured!"
  const NameLong := "AI Name is too long (maximum 32 characters)!"

  function KeyErrors(key: string): seq<string> {
    if key == "" || key == "xxx" then [KeyMissing]
    else if Utf16Length(key) < 32 then [KeyShort]
    else []
  }

  /** The URL checks: the first failing one of empty, placeholder and
      scheme is reported; a Cloudflare URL is then checked for both path
      parts independently. */
  function UrlErrors(url: string, uriHttp: bool): seq<string> {
    if url == "" then [UrlEmpty]
    else if Contains(url, "XXX") then [UrlPlaceholder]
    else if !uriHttp then [UrlNotHttp]
    else if Contains(url, "cloudflare.com") then
      (if Contains(url, "/ai/run/") then [] else [UrlNoRun])
      + (if Contains(url, "/accounts/") then [] else [UrlNoAccounts])
    else []
  }

  function PromptErrors(prompt: string): seq<string> {
    if prompt == "" then [PromptEmpty]
    else if Utf16Length(prompt) > 4096 then [PromptLong]
    else []
  }

  function NameErrors(name: string): seq<string> {
    if name == "" then [NameMissing]
    else if Utf16Length(name) > 32 then [NameLong]
    else []
  }

  /** ValidateRange: inclusive bounds, the message naming the value and
      both bounds. */
  function RangeErrors(value: int, min: int, max: int, name: string): (r: seq<string>)
    ensures r == [] <==> min <= value <= max
  {
    if value < min || value > max then
      ["Invalid " + name + ": " + IntToString(value) + ". Should be between "
       + IntToString(min) + " and " + IntToString(max) + "!"]
    else []
  }

  /** Every message TestConfig logs, in the order its checks run. */
  function ConfigErrors(c: Settings, screen: Screen, uriHttp: bool): seq<string> {
    TextErrors(c, uriHttp) + SizeErrors(c, screen) + NameErrors(c.aiName) + PositionErrors(c, screen)
  }

  function TextErrors(c: Settings, uriHttp: bool): seq<string> {
    KeyErrors(c.apiKey) + UrlErrors(c.apiUrl, uriHttp) + PromptErrors(c.systemPrompt)
  }

  function SizeErrors(c: Settings, screen: Screen): seq<string> {
    RangeErrors(c.windowWidth, 200, screen.width, "chat window width")
    + RangeErrors(c.windowHeight, 200, screen.height, "chat window height")
    + RangeErrors(c.fontSize, 8, 72, "font size")
  }

  function PositionErrors(c: Settings, screen: Screen): seq<string> {
    RangeErrors(c.windowX, 0, screen.width - 100, "window X position")
    + RangeErrors(c.windowY, 0, screen.height - 100, "window Y position")
  }

  /** What a valid configuration is, condition by condition. */
  predicate ConfigOk(c: Settings, screen: Screen, uriHttp: bool) {
    && c.apiKey != "xxx" && Utf16Length(c.apiKey) >= 32
    && c.apiUrl != "" && !Contains(c.apiUrl, "XXX") && uriHttp
    && (Contains(c.apiUrl, "cloudflare.com") ==> Contains(c.apiUrl, "/ai/run/") && Contains(c.apiUrl, "/accounts/"))
    && c.systemPrompt != "" && Utf16Length(c.systemPrompt) <= 4096
    && 200 <= c.windowWidth <= screen.width
    && 200 <= c.windowHeight <= screen.height
    && 8 <= c.fontSize <= 72
    && c.aiName != "" && Utf16Length(c.aiName) <= 32
    && 0 <= c.windowX <= screen.width - 100
    && 0 <= c.windowY <= screen.height - 100
  }

  /** No message is logged exactly when every condition holds. */
  lemma NoErrorsIffOk(c: Settings, screen: Screen, uriHttp: bool)
    ensures ConfigErrors(c, screen, uriHttp) == [] <==> ConfigOk(c, screen, uriHttp)
  {
    assert KeyErrors(c.apiKey) == [] <==> c.apiKey != "xxx" && Utf16Length(c.apiKey) >= 32;
  }

  /** The length limits count UTF-16 code units: sixteen characters
      outside the Basic Multilingual Plane make a key long enough, and
      seventeen of them make a name too long. */
  lemma LimitsCountCodeUnits(key: string, name: string)
    requires |key| == 16 && |name| == 17
    requires forall i | 0 <= i < |key| :: key[i] as int > 0xFFFF
    requires forall i | 0 <= i < |name| :: name[i] as int > 0xFFFF
    ensures KeyErrors(key) == [] && NameErrors(name) == [NameLong]
  {
    assert key != "xxx";
  }

  /** Every check runs: a Cloudflare URL missing both path parts logs both
      messages, and a key, prompt or window error does not stop the others. */
  lemma CloudflareUrlChecksAreIndependent(url: string)
    requires url != "" && !Contains(url, "XXX") && Contains(url, "cloudflare.com")
    requires !Contains(url, "/ai/run/") && !Contains(url, "/accounts/")
    ensures UrlErrors(url, true) == [UrlNoRun, UrlNoAccounts]
  {
  }

  /** The number of messages is the number of failed checks. */
  lemma ErrorCount(c: Settings, screen: Screen, uriHttp: bool)
    ensures |ConfigErrors(c, screen, uriHttp)|
      == |KeyErrors(c.apiKey)| + |UrlErrors(c.apiUrl, uriHttp)| + |PromptErrors(c.systemPrompt)|
       + (if 200 <= c.windowWidth <= screen.width then 0 else 1)
       + (if 200 <= c.windowHeight <= screen.height then 0 else 1)
       + (if 8 <= c.fontSize <= 72 then 0 else 1)
       + |NameErrors(c.aiName)|
       + (if 0 <= c.windowX <= screen.width - 100 then 0 else 1)
       + (if 0 <= c.windowY <= screen.height - 100 then 0 else 1)
  {
  }

  /** The entries written by Initialize leave the key unset: a freshly
      created configuration never validates. */
  lemma DefaultKeyFails(c: Settings, screen: Screen, uriHttp: bool)
    requires c.apiKey == "xxx"
    ensures ConfigErrors(c, screen, uriHttp)[0] == KeyMissing
    ensures !ConfigOk(c, screen, uriHttp)
  {
  }

  /** TestConfig: the checks run one after another, each failure logged and
      clearing `isValid`. */
  method TestConfig(c: Settings, screen: Screen, uriHttp: bool) returns (isValid: bool, log: seq<string>)
    ensures log == ConfigErrors(c, screen, uriHttp)
    ensures isValid <==> ConfigOk(c, screen, uriHttp)
  {
    isValid, log := CheckTexts(c, uriHttp);
    isValid, log := CheckSize(isValid, log, c, screen);
    isValid, log := CheckName(isValid, log, c.aiName);
    isValid, log := CheckPosition(isValid, log, c, screen);
    NoErrorsIffOk(c, screen, uriHttp);
  }

  /** The key, URL and prompt checks, from a fresh flag and log. */
  method CheckTexts(c: Settings, uriHttp: bool) returns (isValid: bool, log: seq<string>)
    ensures log == TextErrors(c, uriHttp)
    ensures isValid <==> log == []
  {
    isValid, log := CheckKey(true, [], c.apiKey);
    assert log == KeyErrors(c.apiKey);
    isValid, log := CheckUrl(isValid, log, c.apiUrl, uriHttp);
    isValid, log := CheckPrompt(isValid, log, c.systemPrompt);
  }

  /** The window size and font checks. */
  method CheckSize(isValid: bool, log: seq<string>, c: Settings, screen: Screen) returns (isValid': bool, log': seq<string>)
    ensures log' == log + SizeErrors(c, screen)
    ensures isValid' <==> isValid && SizeErrors(c, screen) == []
  {
    isValid', log' := ValidateRange(isValid, log, c.windowWidth, 200, screen.width, "chat window width");
    isValid', log' := ValidateRange(isValid', log', c.windowHeight, 200, screen.height, "chat window height");
    isValid', log' := ValidateRange(isValid', log', c.fontSize, 8, 72, "font size");
  }

  /** The window position checks. */
  method CheckPosition(isValid: bool, log: seq<string>, c: Settings, screen: Screen) returns (isValid': bool, log': seq<string>)
    ensures log' == log + PositionErrors(c, screen)
    ensures isValid' <==> isValid && PositionErrors(c, screen) == []
  {
    ghost var ex := RangeErrors(c.windowX, 0, screen.width - 100, "window X position");
    ghost var ey := RangeErrors(c.windowY, 0, screen.height - 100, "window Y position");
    var v, l := ValidateRange(isValid, log, c.windowX, 0, screen.width - 100, "window X position");
    isValid', log' := ValidateRange(v, l, c.windowY, 0, screen.height - 100, "window Y position");
    assert log' == log + ex + ey;
    assert PositionErrors(c, screen) == ex + ey;
    assert PositionErrors(c, screen) == [] <==> ex == [] && ey == [];
  }

  /** The API key check. */
  method CheckKey(isValid: bool, log: seq<string>, key: string) returns (isValid': bool, log': seq<string>)
    ensures log' == log + KeyErrors(key)
    ensures isValid' <==> isValid && KeyErrors(key) == []
  {
    isValid', log' := isValid, log;
    if key == "" || key == "xxx" {
      isValid', log' := false, log + [KeyMissing];
    } else if Utf16Length(key) < 32 {
      isValid', log' := false, log + [KeyShort];
    }
  }

  /** The API URL checks. */
  method CheckUrl(isValid: bool, log: seq<string>, url: string, uriHttp: bool) returns (isValid': bool, log': seq<string>)
    ensures log' == log + UrlErrors(url, uriHttp)
    ensures isValid' <==> isValid && UrlErrors(url, uriHttp) == []
  {
    isValid', log' := isValid, log;
    if url == "" {
      isValid', log' := false, log + [UrlEmpty];
    } else if Contains(url, "XXX") {
      isValid', log' := false, log + [UrlPlaceholder];
    } else if !uriHttp {
      isValid', log' := false, log + [UrlNotHttp];
    } else if Contains(url, "cloudflare.com") {
      if !Contains(url, "/ai/run/") {
        isValid', log' := false, log' + [UrlNoRun];
      }
      if !Contains(url, "/accounts/") {
        isValid', log' := false, log' + [UrlNoAccounts];
      }
    }
  }

  /** The system prompt check. */
  method CheckPrompt(isValid: bool, log: seq<string>, prompt: string) returns (isValid': bool, log': seq<string>)
    ensures log' == log + PromptErrors(prompt)
    ensures isValid' <==> isValid && PromptErrors(prompt) == []
  {
    isValid', log' := isValid, log;
    if prompt == "" {
      isValid', log' := false, log + [PromptEmpty];
    } else if Utf16Length(prompt) > 4096 {
      isValid', log' := false, log + [PromptLong];
    }
  }

  /** The AI name check. */
  method CheckName(isValid: bool, log: seq<string>, name: string) returns (isValid': bool, log': seq<string>)
    ensures log' == log + NameErrors(name)
    ensures isValid' <==> isValid && NameErrors(name) == []
  {
    isValid', log' := isValid, log;
    if name == "" {
      isValid', log' := false, log + [NameMissing];
    } else if Utf16Length(name) > 32 {
      isValid', log' := false, log + [NameLong];
    }
  }

  /** ValidateRange with the LogError closure: logs and clears the flag on
      a value outside [min, max]. */
  method ValidateRange(isValid: bool, log: seq<string>, value: int, min: int, max: int, name: string)
    returns (isValid': bool, log': seq<string>)
    ensures log' == log + RangeErrors(value, min, max, name)
    ensures isValid' <==> isValid && min <= value <= max
  {
    isValid', log' := isValid, log;
    if value < min || value > max {
      isValid', log' := false, log + RangeErrors(value, min, max, name);
    }
  }

  const ResetMessage := "Acknowledge the system prompt change."

  /** The static `lastUsedSystemPrompt` and the reload that updates it. */
  class ConfigState {
    var lastUsedSystemPrompt: string

    /** Initialize: remembers the configured system prompt. */
    constructor (systemPrompt: string)
      ensures lastUsedSystemPrompt == systemPrompt
    {
      lastUsedSystemPrompt := systemPrompt;
    }

    /** ReloadConfig after the file has been read into `c`: when the
        configuration validates and the prompt changed, a reset request
        (message, new prompt) is sent and the prompt remembered; an invalid
        configuration changes nothing. CloudflareUtil.SendCloudflareRequest,
        which would carry the request, is not part of this model, so the
        request is returned. */
    method ReloadConfig(c: Settings, screen: Screen, uriHttp: bool) returns (reloaded: bool, reset: Option<(string, string)>)
      modifies this
      ensures reloaded <==> ConfigOk(c, screen, uriHttp)
      ensures !reloaded ==> reset.None? && lastUsedSystemPrompt == old(lastUsedSystemPrompt)
      ensures reloaded ==> lastUsedSystemPrompt == c.systemPrompt
      ensures reset.Some? <==> reloaded && old(lastUsedSystemPrompt) != c.systemPrompt
      ensures reset.Some? ==> reset.value == (ResetMessage, c.systemPrompt)
    {
      var ok, _ := TestConfig(c, screen, uriHttp);
      reloaded := ok;
      reset := None;
      if ok {
        if lastUsedSystemPrompt != c.systemPrompt {
          reset := Some((ResetMessage, c.systemPrompt));
          lastUsedSystemPrompt := c.systemPrompt;
        }
      }
    }
  }
}
