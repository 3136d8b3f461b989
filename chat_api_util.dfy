/** The hand-built request bodies, the regular-expression response
    extractors, the status-to-message mapping, the configuration guard and
    the test verdict of the three coroutine chat clients:
    src/util/CloudflareUtil.cs, src/util/OpenAIUtil.cs and
    src/util/OpenRouterEngine.cs. The web request itself is an outcome
    handed in as a parameter; the callback's two arguments are the
    `Reply` the coroutine produces. */
module ChatApiUtil {
  import opened Wrappers
  import opened Strings
  import opened JsonUtil

  // ---------------------------------------------------------------------
  // The extractor regex `"key"\s*:\s*"(.*?)"` (RegexOptions.Singleline)
  // ---------------------------------------------------------------------

  /** .NET's `\s`: the ASCII white space, NEL and the Unicode separators. */
  predicate IsSpace(c: char) {
    ('\t' <= c <= '\r') || c == ' ' || c == '\U{85}' || c == '\U{A0}' || c == '\U{1680}'
    || ('\U{2000}' <= c <= '\U{200A}') || c == '\U{2028}' || c == '\U{2029}' || c == '\U{202F}'
    || c == '\U{205F}' || c == '\U{3000}'
  }

  /** Greedy `\s*` from position i: the first position that is not white space. */
  function SkipSpaces(s: string, i: nat): (j: nat)
    requires i <= |s|
    ensures i <= j <= |s|
    ensures forall k :: i <= k < j ==> IsSpace(s[k])
    ensures j < |s| ==> !IsSpace(s[j])
    decreases |s| - i
  {
    if i < |s| && IsSpace(s[i]) then SkipSpaces(s, i + 1) else i
  }

  /** The first `"` at or after position i. */
  function NextQuote(s: string, i: nat): (r: Option<nat>)
    requires i <= |s|
    ensures r.Some? ==> i <= r.value < |s| && s[r.value] == '"'
    ensures r.Some? ==> forall k :: i <= k < r.value ==> s[k] != '"'
    ensures r.None? ==> forall k :: i <= k < |s| ==> s[k] != '"'
    decreases |s| - i
  {
    if i == |s| then None
    else if s[i] == '"' then Some(i)
    else NextQuote(s, i + 1)
  }

  function Quoted(key: string): string {
    "\"" + key + "\""
  }

  /** The position just past the opening quote of the value when the
      pattern's prefix `"key"\s*:\s*"` (or `"key":"` without `spaces`)
      matches at position i. */
  function OpenAt(s: string, i: nat, key: string, spaces: bool): (r: Option<nat>)
    requires i <= |s|
    ensures r.Some? ==> i + |Quoted(key)| + 2 <= r.value <= |s| && s[r.value - 1] == '"'
    ensures r.Some? ==> StartsWith(s[i..], Quoted(key))
  {
    var q := Quoted(key);
    if !StartsWith(s[i..], q) then None
    else
      var j := if spaces then SkipSpaces(s, i + |q|) else i + |q|;
      if j >= |s| || s[j] != ':' then None
      else
        var k := if spaces then SkipSpaces(s, j + 1) else j + 1;
        if k >= |s| || s[k] != '"' then None
        else Some(k + 1)
  }

  /** The capture of the regex anchored at position i: the lazy `(.*?)`
      stops at the first `"` after the opening one. */
  function MatchAt(s: string, i: nat, key: string, spaces: bool): (r: Option<string>)
    requires i <= |s|
    ensures r.Some? ==> '"' !in r.value
  {
    match OpenAt(s, i, key, spaces)
    case None => None
    case Some(k) =>
      match NextQuote(s, k)
      case None => None
      case Some(e) =>
        assert forall x :: 0 <= x < e - k ==> s[k..e][x] == s[k + x];
        Some(s[k..e])
  }

  /** Regex.Match: the leftmost start position, from `from` on, where the
      pattern matches. */
  function FirstMatchAt(s: string, key: string, spaces: bool, from: nat): (r: Option<nat>)
    requires from <= |s|
    ensures r.Some? ==> from <= r.value <= |s| && MatchAt(s, r.value, key, spaces).Some?
    ensures r.Some? ==> forall j :: from <= j < r.value ==> MatchAt(s, j, key, spaces).None?
    ensures r.None? ==> forall j :: from <= j <= |s| ==> MatchAt(s, j, key, spaces).None?
    decreases |s| - from
  {
    if MatchAt(s, from, key, spaces).Some? then Some(from)
    else if from == |s| then None
    else FirstMatchAt(s, key, spaces, from + 1)
  }

  /** `match.Groups[1].Value` of a successful match, or None for no match. */
  function Capture(s: string, key: string, spaces: bool): (r: Option<string>)
    ensures r.Some? ==> '"' !in r.value
    ensures r.None? <==> forall j :: 0 <= j <= |s| ==> MatchAt(s, j, key, spaces).None?
  {
    match FirstMatchAt(s, key, spaces, 0)
    case None => None
    case Some(i) => MatchAt(s, i, key, spaces)
  }

  /** The leftmost match wins. */
  lemma {:induction false} FirstMatchIsLeftmost(s: string, key: string, spaces: bool, from: nat, i: nat)
    requires from <= i <= |s| && MatchAt(s, i, key, spaces).Some?
    requires forall j :: from <= j < i ==> MatchAt(s, j, key, spaces).None?
    ensures FirstMatchAt(s, key, spaces, from) == Some(i)
    decreases i - from
  {
    if from < i {
      FirstMatchIsLeftmost(s, key, spaces, from + 1, i);
    }
  }

  /** No match starts at a character other than a quote. */
  lemma NoMatchOffQuote(s: string, j: nat, key: string, spaces: bool)
    requires j < |s| && s[j] != '"'
    ensures MatchAt(s, j, key, spaces).None?
  {
  }

  /** The prefix of the pattern matches where `"key":"` is written. */
  lemma OpenAtField(s: string, i: nat, key: string, rest: string, spaces: bool)
    requires i <= |s| && s[i..] == Quoted(key) + ":\"" + rest
    ensures OpenAt(s, i, key, spaces) == Some(i + |Quoted(key)| + 2)
  {
    var q := Quoted(key);
    assert s[i..][..|q|] == q;
    assert s[i + |q|] == s[i..][|q|] == ':';
    assert s[i + |q| + 1] == s[i..][|q| + 1] == '"';
    assert !IsSpace(':') && !IsSpace('"');
  }

  /** A field written `"key":"value"` at position i matches there, and the
      capture is the whole value when it holds no quote. */
  lemma MatchAtField(s: string, i: nat, key: string, value: string, rest: string, spaces: bool)
    requires i <= |s| && s[i..] == Quoted(key) + ":\"" + value + "\"" + rest && '"' !in value
    ensures MatchAt(s, i, key, spaces) == Some(value)
  {
    var head := Quoted(key) + ":\"";
    var k := i + |head|;
    var e := k + |value|;
    assert OpenAt(s, i, key, spaces) == Some(k) by {
      assert s[i..] == Quoted(key) + ":\"" + (value + "\"" + rest);
      OpenAtField(s, i, key, value + "\"" + rest, spaces);
    }
    assert s[k..e] == value by {
      SliceOfConcat(s, i, head, value, "\"" + rest);
    }
    assert NextQuote(s, k) == Some(e) by {
      assert s[e..e + 1] == "\"" by {
        assert s[i..] == (head + value) + "\"" + rest;
        SliceOfConcat(s, i, head + value, "\"", rest);
      }
      forall x | k <= x < e ensures s[x] != '"' {
        assert s[x] == s[k..e][x - k];
      }
      NextQuoteAt(s, k, e);
    }
  }

  /** The middle part of a suffix written as a concatenation. */
  lemma SliceOfConcat(s: string, i: nat, a: string, v: string, b: string)
    requires i <= |s| && s[i..] == a + v + b
    ensures i + |a| + |v| <= |s| && s[i + |a|..i + |a| + |v|] == v
  {
    forall x | 0 <= x < |v| ensures s[i + |a| + x] == v[x] {
      assert s[i + |a| + x] == s[i..][|a| + x] == (a + v + b)[|a| + x];
    }
  }

  /** A field preceded by quote-free text is the one captured. */
  lemma CaptureField(pre: string, key: string, value: string, post: string, spaces: bool)
    requires '"' !in pre && '"' !in value
    ensures Capture(pre + Quoted(key) + ":\"" + value + "\"" + post, key, spaces) == Some(value)
  {
    var s := pre + Quoted(key) + ":\"" + value + "\"" + post;
    forall j | 0 <= j < |pre| ensures MatchAt(s, j, key, spaces).None? {
      assert s[j] == pre[j];
      NoMatchOffQuote(s, j, key, spaces);
    }
    assert s[|pre|..] == Quoted(key) + ":\"" + value + "\"" + post;
    MatchAtField(s, |pre|, key, value, post, spaces);
    FirstMatchIsLeftmost(s, key, spaces, 0, |pre|);
  }

  lemma {:induction false} NextQuoteAt(s: string, k: nat, e: nat)
    requires k <= e < |s| && s[e] == '"' && forall x :: k <= x < e ==> s[x] != '"'
    ensures NextQuote(s, k) == Some(e)
    decreases e - k
  {
    if k < e {
      NextQuoteAt(s, k + 1, e);
    }
  }

  /** JsonUtil.EscapeJsonString, as written, on a possibly null string;
      interpolating the null it returns for null gives "". */
  function EscapeOrEmpty(s: Option<string>): (r: string)
    ensures s.None? ==> r == ""
    ensures s.Some? ==> r == EscapeJsonString(s.value)
  {
    match s
    case None => ""
    case Some(t) => EscapeJsonString(t)
  }

  /** Escaping a text without quotes leaves it without quotes. */
  lemma EscapeKeepsQuoteFree(s: Option<string>)
    requires s.Some? ==> '"' !in s.value
    ensures '"' !in EscapeOrEmpty(s)
  {
    if s.Some? {
      EscapeIsPerCharacter(s.value);
      EscapeEachQuoteFree(s.value);
    }
  }

  lemma {:induction false} EscapeEachQuoteFree(s: string)
    requires '"' !in s
    ensures '"' !in EscapeEach(s)
  {
    if s != [] {
      assert '"' !in EscapeChar(s[0]) by { assert s[0] in s; }
      assert '"' !in s[1..] by { assert s == [s[0]] + s[1..]; }
      EscapeEachQuoteFree(s[1..]);
    }
  }

  lemma QuoteFreeJoin(a: string, b: string, c: string)
    requires '"' !in a && '"' !in b && '"' !in c
    ensures '"' !in a + b + c
  {
  }

  // ---------------------------------------------------------------------
  // Shared coroutine shape
  // ---------------------------------------------------------------------

  /** What UnityWebRequest reports once the request completes: success with
      the download handler's text, or failure with the status code and the
      transport error. */
  datatype WebOutcome =
    | WebOk(text: Option<string>)
    | WebFailed(status: int, error: Option<string>)

  /** One run of SendRequest: the body posted (None when no request is
      made) and the two arguments the callback receives. */
  datatype Reply = Reply(body: Option<string>, response: Option<string>, error: Option<string>)

  const ConfigFailed := "Config validation failed."

  /** The TestEngine verdict: the callback reports true iff the response
      string is neither null nor empty, and passes the error on otherwise. */
  function Verdict(r: Reply): (v: (bool, Option<string>))
    ensures v.0 <==> r.response.Some? && r.response.value != ""
    ensures v.0 ==> v.1.None?
    ensures !v.0 ==> v.1 == r.error
  {
    if r.response.Some? && r.response.value != "" then (true, None) else (false, r.error)
  }

  // ---------------------------------------------------------------------
  // CloudflareUtil
  // ---------------------------------------------------------------------

  const CloudflareNotFound := "Error: Unable to find 'response' in the Cloudflare response."
  const CloudflareParseError := "Error: Unable to parse Cloudflare response."
  const AuthFailed := "Authentication failed - please check your API key!"
  const UrlNotFound := "API URL not found - please check your account ID and endpoint!"

  /** CreateRequestJson: a single "prompt" holding the escaped system
      prompt and the escaped user message, joined by the two characters
      backslash and n. */
  function CloudflareRequestJson(systemPrompt: Option<string>, userMessage: Option<string>): (r: string)
    ensures StartsWith(r, "{\"prompt\":\"")
  {
    "{\"prompt\":\"" + EscapeOrEmpty(systemPrompt) + "\\n" + EscapeOrEmpty(userMessage) + "\"}"
  }

  /** Reading the body back with the Cloudflare extractor pattern (key
      "prompt") gives both escaped texts, separated by backslash-n, when
      neither holds a quote. */
  lemma CloudflareRequestCarriesPrompt(systemPrompt: Option<string>, userMessage: Option<string>)
    requires systemPrompt.Some? ==> '"' !in systemPrompt.value
    requires userMessage.Some? ==> '"' !in userMessage.value
    ensures Capture(CloudflareRequestJson(systemPrompt, userMessage), "prompt", true)
      == Some(EscapeOrEmpty(systemPrompt) + "\\n" + EscapeOrEmpty(userMessage))
  {
    EscapeKeepsQuoteFree(systemPrompt);
    EscapeKeepsQuoteFree(userMessage);
    var v := EscapeOrEmpty(systemPrompt) + "\\n" + EscapeOrEmpty(userMessage);
    QuoteFreeJoin(EscapeOrEmpty(systemPrompt), "\\n", EscapeOrEmpty(userMessage));
    CaptureField("{", "prompt", v, "}", true);
    PromptLayout(EscapeOrEmpty(systemPrompt), EscapeOrEmpty(userMessage));
  }

  lemma PromptLayout(a: string, b: string)
    ensures "{\"prompt\":\"" + a + "\\n" + b + "\"}" == "{" + Quoted("prompt") + ":\"" + (a + "\\n" + b) + "\"" + "}"
  {
  }

  /** ParseCloudflareResponse: the first `"response"` value, passed through
      JsonUtil.UnescapeJsonString (`unescape`); a null text makes
      Regex.Match throw, which the catch turns into the parse error. */
  function ParseCloudflareResponse(raw: Option<string>, unescape: string -> string): (r: string)
    ensures raw.None? ==> r == CloudflareParseError
    ensures raw.Some? && Capture(raw.value, "response", true).None? ==> r == CloudflareNotFound
    ensures raw.Some? && Capture(raw.value, "response", true).Some? ==>
      r == unescape(Capture(raw.value, "response", true).value)
  {
    match raw
    case None => CloudflareParseError
    case Some(t) =>
      match Capture(t, "response", true)
      case None => CloudflareNotFound
      case Some(v) => unescape(v)
  }

  /** The status switch: 401 and 403 name the key, 404 the URL, any other
      status passes the transport error through. */
  function CloudflareErrorMessage(status: int, error: Option<string>): (r: Option<string>)
    ensures status == 401 || status == 403 ==> r == Some(AuthFailed)
    ensures status == 404 ==> r == Some(UrlNotFound)
    ensures status !in {401, 403, 404} ==> r == error
  {
    if status == 401 || status == 403 then Some(AuthFailed)
    else if status == 404 then Some(UrlNotFound)
    else error
  }

  /** SendRequest: the configuration guard, `systemPrompt ??=` the
      configured prompt, the body, then the parsed response or the mapped
      error. */
  function CloudflareSendRequest(configValid: bool, userMessage: Option<string>, systemPrompt: Option<string>,
                                 configuredPrompt: string, web: WebOutcome, unescape: string -> string): (r: Reply)
    ensures !configValid ==> r == Reply(None, None, Some(ConfigFailed))
    ensures configValid ==>
      r.body == Some(CloudflareRequestJson(Some(systemPrompt.GetOr(configuredPrompt)), userMessage))
    ensures configValid && web.WebOk? ==>
      r.response == Some(ParseCloudflareResponse(web.text, unescape)) && r.error.None?
    ensures configValid && web.WebFailed? ==>
      r.response.None? && r.error == CloudflareErrorMessage(web.status, web.error)
  {
    if !configValid then Reply(None, None, Some(ConfigFailed))
    else
      var body := CloudflareRequestJson(Some(systemPrompt.GetOr(configuredPrompt)), userMessage);
      match web
      case WebOk(text) => Reply(Some(body), Some(ParseCloudflareResponse(text, unescape)), None)
      case WebFailed(status, error) => Reply(Some(body), None, CloudflareErrorMessage(status, error))
  }

  /** TestEngine: the guard, then SendRequest("Test", "test") and the
      verdict on its callback. */
  function CloudflareTestEngine(configValid: bool, configuredPrompt: string, web: WebOutcome,
                                unescape: string -> string): (v: (bool, Option<string>))
    ensures !configValid ==> v == (false, Some(ConfigFailed))
    ensures configValid ==> v == Verdict(CloudflareSendRequest(true, Some("Test"), Some("test"), configuredPrompt, web, unescape))
  {
    if !configValid then (false, Some(ConfigFailed))
    else Verdict(CloudflareSendRequest(true, Some("Test"), Some("test"), configuredPrompt, web, unescape))
  }

  /** A successful transfer whose text holds no `"response"` field still
      passes the test: the not-found message is a non-empty response. */
  lemma CloudflareTestPassesWithoutAnswer(configuredPrompt: string, text: string, unescape: string -> string)
    requires Capture(text, "response", true).None?
    ensures CloudflareTestEngine(true, configuredPrompt, WebOk(Some(text)), unescape) == (true, None)
  {
  }

  /** An authentication failure fails the test with the key message,
      whatever the transport error says. */
  lemma CloudflareTestReportsAuthFailure(configuredPrompt: string, error: Option<string>, unescape: string -> string)
    ensures CloudflareTestEngine(true, configuredPrompt, WebFailed(401, error), unescape) == (false, Some(AuthFailed))
    ensures CloudflareTestEngine(true, configuredPrompt, WebFailed(403, error), unescape) == (false, Some(AuthFailed))
  {
  }

  // ---------------------------------------------------------------------
  // OpenAIUtil and OpenRouterEngine
  // ---------------------------------------------------------------------

  const OpenAINotFound := "Error: Unable to find 'content' in the response."
  const ParseError := "Error: Unable to parse response."
  const OpenRouterNotFound := "Error: Unable to find content in the response."

  /** CreateRequestJson, identical in both files: the configured model
      (Config.MODEL_NAME, a parameter here) and a system and a user message,
      every value escaped. */
  function ChatRequestJson(model: Option<string>, systemPrompt: Option<string>, userMessage: Option<string>): string
  {
    ChatLayout(EscapeOrEmpty(model), EscapeOrEmpty(systemPrompt), EscapeOrEmpty(userMessage))
  }

  /** The body around the three already-escaped values:
      `{"model":"m","messages":[{"role":"system","content":"sp"},{"role":"user","content":"u"}]}`. */
  function ChatLayout(m: string, sp: string, u: string): string {
    ModelPrefix + m + RolePrefix + ContentField(sp, u)
  }

  /** The system message's content field and everything after it. */
  function ContentField(sp: string, u: string): string {
    Quoted("content") + ":\"" + sp + "\"" + ChatTail(u)
  }

  const ModelPrefix := "{\"model\":\""
  const RolePrefix := "\",\"messages\":[{\"role\":\"system\","

  function ChatTail(u: string): string {
    "},{\"role\":\"user\",\"content\":\"" + u + "\"}]}"
  }

  /** With quote-free values, the body's "model" reads back as the escaped
      model and its first "content" as the escaped system prompt, with
      either extractor pattern. */
  lemma ChatRequestFields(model: Option<string>, systemPrompt: Option<string>, userMessage: Option<string>, spaces: bool)
    requires model.Some? ==> '"' !in model.value
    requires systemPrompt.Some? ==> '"' !in systemPrompt.value
    ensures Capture(ChatRequestJson(model, systemPrompt, userMessage), "model", spaces) == Some(EscapeOrEmpty(model))
    ensures Capture(ChatRequestJson(model, systemPrompt, userMessage), "content", spaces) == Some(EscapeOrEmpty(systemPrompt))
  {
    EscapeKeepsQuoteFree(model);
    EscapeKeepsQuoteFree(systemPrompt);
    LayoutModelField(EscapeOrEmpty(model), EscapeOrEmpty(systemPrompt), EscapeOrEmpty(userMessage), spaces);
    LayoutContentField(EscapeOrEmpty(model), EscapeOrEmpty(systemPrompt), EscapeOrEmpty(userMessage), spaces);
  }

  lemma LayoutModelField(m: string, sp: string, u: string, spaces: bool)
    requires '"' !in m
    ensures Capture(ChatLayout(m, sp, u), "model", spaces) == Some(m)
  {
    ModelLayout(m, sp, u);
    CaptureField("{", "model", m, AfterModel(sp, u), spaces);
  }

  /** What follows the closing quote of the model's value. */
  function AfterModel(sp: string, u: string): string {
    RolePrefix[1..] + ContentField(sp, u)
  }

  lemma ModelLayout(m: string, sp: string, u: string)
    ensures ChatLayout(m, sp, u) == "{" + Quoted("model") + ":\"" + m + "\"" + AfterModel(sp, u)
  {
    PrefixShapes();
    Regroup("{" + Quoted("model") + ":\"", m, RolePrefix[1..], ContentField(sp, u));
  }

  lemma PrefixShapes()
    ensures ModelPrefix == "{" + Quoted("model") + ":\""
    ensures RolePrefix == "\"" + RolePrefix[1..]
  {
  }

  lemma Regroup(p: string, m: string, r: string, t: string)
    ensures p + m + ("\"" + r) + t == p + m + "\"" + (r + t)
  {
  }

  lemma LayoutContentField(m: string, sp: string, u: string, spaces: bool)
    requires '"' !in m && '"' !in sp
    ensures Capture(ChatLayout(m, sp, u), "content", spaces) == Some(sp)
  {
    var s := ChatLayout(m, sp, u);
    var pre := ModelPrefix + m + RolePrefix;
    assert s == pre + ContentField(sp, u);
    forall j | 0 <= j < |pre| ensures MatchAt(s, j, "content", spaces).None? {
      NoContentInPrefix(s, m, pre, j, spaces);
    }
    assert s[|pre|..] == Quoted("content") + ":\"" + sp + "\"" + ChatTail(u);
    MatchAtField(s, |pre|, "content", sp, ChatTail(u), spaces);
    FirstMatchIsLeftmost(s, "content", spaces, 0, |pre|);
  }

  /** The pattern fails where the text and the pattern differ at offset x. */
  lemma Mismatch(s: string, j: nat, q: string, x: nat)
    requires j + x < |s| && x < |q| && s[j + x] != q[x]
    ensures !StartsWith(s[j..], q)
  {
  }

  /** No position inside the model and role prefix starts a "content" match. */
  lemma NoContentInPrefix(s: string, m: string, pre: string, j: nat, spaces: bool)
    requires '"' !in m && pre == ModelPrefix + m + RolePrefix && j < |pre| <= |s| && s[..|pre|] == pre
    ensures MatchAt(s, j, "content", spaces).None?
  {
    var q := Quoted("content");
    var a := |ModelPrefix|;
    assert s[j] == pre[j];
    if s[j] != '"' {
      NoMatchOffQuote(s, j, "content", spaces);
    } else if j + 1 < a {
      assert s[j + 1] == pre[j + 1] == ModelPrefix[j + 1];
      assert 'c' !in ModelPrefix;
      Mismatch(s, j, q, 1);
    } else if j + 1 == a {
      ContentAfterModelKey(s, m, pre, spaces);
    } else if j < a + |m| {
      assert false;
    } else {
      var t := j - a - |m|;
      assert s[j] == RolePrefix[t];
      assert t + 1 < |RolePrefix|;
      assert s[j + 1] == pre[j + 1] == RolePrefix[t + 1];
      assert 'c' !in RolePrefix;
      Mismatch(s, j, q, 1);
    }
  }

  /** The quote that opens the model's value starts no "content" match:
      even a model named "content" is followed by a comma, not a colon. */
  lemma ContentAfterModelKey(s: string, m: string, pre: string, spaces: bool)
    requires '"' !in m && pre == ModelPrefix + m + RolePrefix && |pre| <= |s| && s[..|pre|] == pre
    ensures MatchAt(s, 9, "content", spaces).None?
  {
    var q := Quoted("content");
    assert |pre| == 41 + |m|;
    if |m| < 7 {
      assert s[10 + |m|] == pre[10 + |m|] == RolePrefix[0] == '"';
      assert q[1 + |m|] == "content"[|m|];
      assert '"' !in "content";
      Mismatch(s, 9, q, 1 + |m|);
    } else if |m| > 7 {
      assert s[17] == pre[17] == m[7];
      assert m[7] in m;
      Mismatch(s, 9, q, 8);
    } else {
      assert s[18] == pre[18] == RolePrefix[1] == ',';
      assert !IsSpace(',');
    }
  }

  /** OpenAIUtil.ParseResponse as written: the first `"content"` value,
      with `\n` escapes turned into newlines and then `\"` into `"`. */
  function ParseOpenAIResponse(raw: Option<string>): (r: string)
    ensures raw.None? ==> r == ParseError
    ensures raw.Some? && Capture(raw.value, "content", true).None? ==> r == OpenAINotFound
  {
    match raw
    case None => ParseError
    case Some(t) =>
      match Capture(t, "content", true)
      case None => OpenAINotFound
      case Some(c) => Replace(Replace(c, "\\n", "\n"), "\\\"", "\"")
  }

  /** The `\"` replacement never applies: the capture holds no quote, so
      only the newline escapes are translated. */
  lemma OpenAIQuoteReplaceIsNoOp(t: string)
    requires Capture(t, "content", true).Some?
    ensures ParseOpenAIResponse(Some(t)) == Replace(Capture(t, "content", true).value, "\\n", "\n")
  {
    var c := Capture(t, "content", true).value;
    ReplaceKeepsAbsent(c, "\\n", "\n", '"');
    AbsentCharNoMatch(Replace(c, "\\n", "\n"), "\\\"", '"');
    ReplaceAbsent(Replace(c, "\\n", "\n"), "\\\"", "\"");
  }

  /** A reply whose content is written as `"content":"<value>"` after
      quote-free text is read with its `\n` escapes decoded. */
  lemma OpenAIReadsField(pre: string, value: string, post: string)
    requires '"' !in pre && '"' !in value
    ensures ParseOpenAIResponse(Some(pre + Quoted("content") + ":\"" + value + "\"" + post))
      == Replace(value, "\\n", "\n")
  {
    CaptureField(pre, "content", value, post, true);
    OpenAIQuoteReplaceIsNoOp(pre + Quoted("content") + ":\"" + value + "\"" + post);
  }

  /** An escaped quote inside the content ends the capture: everything
      after it is lost and a lone backslash is left at the end. */
  lemma OpenAIEscapedQuoteTruncates(pre: string, a: string, b: string, post: string)
    requires '"' !in pre && '"' !in a && 'n' !in a
    ensures ParseOpenAIResponse(Some(pre + "\"content\":\"" + a + "\\\"" + b + "\"" + post)) == a + "\\"
  {
    var v := a + "\\";
    assert pre + "\"content\":\"" + a + "\\\"" + b + "\"" + post
        == pre + Quoted("content") + ":\"" + v + "\"" + (b + "\"" + post);
    assert '"' !in v && 'n' !in v;
    OpenAIReadsField(pre, v, b + "\"" + post);
    AbsentCharNoMatch(v, "\\n", 'n');
    ReplaceAbsent(v, "\\n", "\n");
  }

  /** The intended reading of a JSON string value: up to the first quote
      that is not escaped, with `\n`, `\"` and `\\` decoded on the way (a
      backslash escapes the character after it, so an escaped backslash
      cannot escape the quote that follows it). */
  function ScanString(t: string): (r: Option<string>)
    decreases |t|
  {
    if t == [] then None
    else if t[0] == '"' then Some("")
    else if t[0] == '\\' && |t| > 1 && (t[1] == 'n' || t[1] == '"' || t[1] == '\\') then
      match ScanString(t[2..])
      case None => None
      case Some(rest) => Some([if t[1] == 'n' then '\n' else t[1]] + rest)
    else
      match ScanString(t[1..])
      case None => None
      case Some(rest) => Some([t[0]] + rest)
  }

  /** How a reply writes a text: backslashes, quotes and newlines
      escaped. */
  function EncodeContent(x: string): string
  {
    if x == [] then [] else EncodeChar(x[0]) + EncodeContent(x[1..])
  }

  function EncodeChar(c: char): string {
    if c == '"' then "\\\"" else if c == '\n' then "\\n" else if c == '\\' then "\\\\" else [c]
  }

  /** The leftmost position where the pattern's prefix matches. */
  function FirstOpen(s: string, key: string, from: nat): (r: Option<nat>)
    requires from <= |s|
    ensures r.Some? ==> r.value <= |s|
    decreases |s| - from
  {
    match OpenAt(s, from, key, true)
    case Some(k) => Some(k)
    case None => if from == |s| then None else FirstOpen(s, key, from + 1)
  }

  /** ParseResponse as intended: the same match start, the value read up to
      its closing quote, escapes decoded. */
  function ParseOpenAIResponseFixed(raw: Option<string>): (r: string)
    ensures raw.None? ==> r == ParseError
    ensures raw.Some? && FirstOpen(raw.value, "content", 0).None? ==> r == OpenAINotFound
  {
    match raw
    case None => ParseError
    case Some(t) =>
      match FirstOpen(t, "content", 0)
      case None => OpenAINotFound
      case Some(k) =>
        match ScanString(t[k..])
        case None => OpenAINotFound
        case Some(v) => v
  }

  lemma {:induction false} FirstOpenIsLeftmost(s: string, key: string, from: nat, i: nat)
    requires from <= i <= |s| && OpenAt(s, i, key, true).Some?
    requires forall j :: from <= j < i ==> OpenAt(s, j, key, true).None?
    ensures FirstOpen(s, key, from) == OpenAt(s, i, key, true)
    decreases i - from
  {
    if from < i {
      FirstOpenIsLeftmost(s, key, from + 1, i);
    }
  }

  /** Decoding reads back exactly what was encoded. */
  lemma {:induction false} ScanEncoded(x: string, rest: string)
    ensures ScanString(EncodeContent(x) + "\"" + rest) == Some(x)
    decreases |x|
  {
    if x == [] {
      assert EncodeContent(x) + "\"" + rest == "\"" + rest;
    } else {
      var h := EncodeChar(x[0]);
      var tail := EncodeContent(x[1..]) + "\"" + rest;
      assert EncodeContent(x) == h + EncodeContent(x[1..]);
      Regroup3(h, EncodeContent(x[1..]), "\"", rest);
      ScanEncoded(x[1..], rest);
      ScanStep(x[0], h, tail, x[1..]);
      assert [x[0]] + x[1..] == x;
    }
  }

  lemma Regroup3(a: string, b: string, c: string, d: string)
    ensures (a + b) + c + d == a + (b + c + d)
  {
  }

  /** One encoded character followed by an encoded text decodes to the
      character followed by that text. */
  lemma ScanStep(c: char, h: string, t: string, r: string)
    requires h == EncodeChar(c) && ScanString(t) == Some(r)
    ensures ScanString(h + t) == Some([c] + r)
  {
    assert (h + t)[|h|..] == t;
  }

  /** No match, and no opening of one, starts inside quote-free text. */
  lemma NoOpenInQuoteFree(s: string, pre: string, key: string, spaces: bool)
    requires |pre| <= |s| && s[..|pre|] == pre && '"' !in pre
    ensures forall j :: 0 <= j < |pre| ==> OpenAt(s, j, key, spaces).None?
  {
    forall j | 0 <= j < |pre| ensures OpenAt(s, j, key, spaces).None? {
      assert s[j] == pre[j];
      NoMatchOffQuote(s, j, key, spaces);
    }
  }

  /** The corrected parser returns any content intact, quotes and
      backslashes included. */
  lemma FixedParseRoundTrip(pre: string, x: string, post: string)
    requires '"' !in pre
    ensures ParseOpenAIResponseFixed(Some(pre + Quoted("content") + ":\"" + EncodeContent(x) + "\"" + post)) == x
  {
    var e := EncodeContent(x);
    var s := pre + Quoted("content") + ":\"" + e + "\"" + post;
    var k := |pre| + |Quoted("content")| + 2;
    FixedParseAt(s, pre, e, post);
    assert s[k..] == e + "\"" + post;
    ScanEncoded(x, post);
  }

  lemma FixedParseAt(s: string, pre: string, e: string, post: string)
    requires '"' !in pre && s == pre + Quoted("content") + ":\"" + e + "\"" + post
    ensures FirstOpen(s, "content", 0) == Some(|pre| + |Quoted("content")| + 2)
  {
    assert s[..|pre|] == pre;
    NoOpenInQuoteFree(s, pre, "content", true);
    assert s[|pre|..] == Quoted("content") + ":\"" + (e + "\"" + post);
    OpenAtField(s, |pre|, "content", e + "\"" + post, true);
    FirstOpenIsLeftmost(s, "content", 0, |pre|);
  }

  /** The reply `{"content":"say \"hi\""}` comes back as `say \`. */
  lemma EscapedQuoteExample(reply: string)
    requires reply == "{" + "\"content\":\"" + "say " + "\\\"" + "hi\\" + "\"" + "}"
    ensures ParseOpenAIResponse(Some(reply)) == "say \\"
  {
    OpenAIEscapedQuoteTruncates("{", "say ", "hi\\", "}");
  }

  /** OpenRouterEngine.ParseResponse: the literal `"content":"` without
      white space, the value passed through JsonUtil.UnescapeJsonString. */
  function ParseOpenRouterResponse(raw: Option<string>, unescape: string -> string): (r: string)
    ensures raw.None? ==> r == ParseError
    ensures raw.Some? && Capture(raw.value, "content", false).None? ==> r == OpenRouterNotFound
    ensures raw.Some? && Capture(raw.value, "content", false).Some? ==>
      r == unescape(Capture(raw.value, "content", false).value)
  {
    match raw
    case None => ParseError
    case Some(t) =>
      match Capture(t, "content", false)
      case None => OpenRouterNotFound
      case Some(c) => unescape(c)
  }

  /** A compact `"content":"<value>"` after quote-free text is read and
      unescaped. */
  lemma OpenRouterReadsField(pre: string, value: string, post: string, unescape: string -> string)
    requires '"' !in pre && '"' !in value
    ensures ParseOpenRouterResponse(Some(pre + Quoted("content") + ":\"" + value + "\"" + post), unescape)
      == unescape(value)
  {
    CaptureField(pre, "content", value, post, false);
  }

  /** A space before the colon hides the field from OpenRouter's pattern. */
  lemma OpenRouterMissesSpacedKey(pre: string, rest: string, unescape: string -> string)
    requires '"' !in pre && '"' !in rest
    ensures ParseOpenRouterResponse(Some(pre + Quoted("content") + " :" + rest), unescape) == OpenRouterNotFound
  {
    var s := pre + Quoted("content") + " :" + rest;
    forall j | 0 <= j <= |s| ensures MatchAt(s, j, "content", false).None? {
      SpacedKeyNoMatch(s, pre, rest, j);
    }
  }

  lemma SpacedKeyNoMatch(s: string, pre: string, rest: string, j: nat)
    requires '"' !in pre && '"' !in rest && s == pre + Quoted("content") + " :" + rest && j <= |s|
    ensures MatchAt(s, j, "content", false).None?
  {
    var q := Quoted("content");
    var n := |pre|;
    if j == |s| {
    } else if j < n {
      assert s[j] == pre[j];
      NoMatchOffQuote(s, j, "content", false);
    } else if j == n {
      assert s[j + |q|] == ' ';
    } else if j < n + |q| - 1 {
      assert s[j] == q[j - n] == "content"[j - n - 1];
      assert '"' !in "content";
      NoMatchOffQuote(s, j, "content", false);
    } else if j == n + |q| - 1 {
      assert s[j + 1] == ' ';
      Mismatch(s, j, q, 1);
    } else if j < n + |q| + 2 {
      assert s[j] == ' ' || s[j] == ':';
      NoMatchOffQuote(s, j, "content", false);
    } else {
      assert s[j] == rest[j - n - |q| - 2];
      NoMatchOffQuote(s, j, "content", false);
    }
  }

  /** HandleError in both files: only the transport error, whatever the
      status. */
  function HandleError(web: WebOutcome): (r: Option<string>)
    requires web.WebFailed?
    ensures r == web.error
  {
    web.error
  }

  /** SendRequest of OpenAIUtil (`openRouter` false) and OpenRouterEngine
      (`openRouter` true): the guard, the body, then the parsed response or
      the transport error. The system prompt is sent as given. */
  function ChatSendRequest(openRouter: bool, configValid: bool, model: Option<string>, userMessage: Option<string>,
                           systemPrompt: Option<string>, web: WebOutcome, unescape: string -> string): (r: Reply)
    ensures !configValid ==> r == Reply(None, None, Some(ConfigFailed))
    ensures configValid ==> r.body == Some(ChatRequestJson(model, systemPrompt, userMessage))
    ensures configValid && web.WebOk? ==>
      r.error.None? &&
      r.response == Some(if openRouter then ParseOpenRouterResponse(web.text, unescape) else ParseOpenAIResponse(web.text))
    ensures configValid && web.WebFailed? ==> r.response.None? && r.error == web.error
  {
    if !configValid then Reply(None, None, Some(ConfigFailed))
    else
      var body := ChatRequestJson(model, systemPrompt, userMessage);
      match web
      case WebOk(text) =>
        Reply(Some(body), Some(if openRouter then ParseOpenRouterResponse(text, unescape) else ParseOpenAIResponse(text)), None)
      case WebFailed(_, _) => Reply(Some(body), None, HandleError(web))
  }

  const TestSystemPrompt := "Test system prompt"
  const TestUserMessage := "This is a test message to validate the configuration."

  /** TestEngine of both files. */
  function ChatTestEngine(openRouter: bool, configValid: bool, model: Option<string>, web: WebOutcome,
                          unescape: string -> string): (v: (bool, Option<string>))
    ensures !configValid ==> v == (false, Some(ConfigFailed))
    ensures configValid ==>
      v == Verdict(ChatSendRequest(openRouter, true, model, Some(TestUserMessage), Some(TestSystemPrompt), web, unescape))
  {
    if !configValid then (false, Some(ConfigFailed))
    else Verdict(ChatSendRequest(openRouter, true, model, Some(TestUserMessage), Some(TestSystemPrompt), web, unescape))
  }

  /** A failed transfer fails the test with the transport error, whatever
      the status code. */
  lemma ChatTestFailsOnTransportError(openRouter: bool, model: Option<string>, status: int, error: Option<string>,
                                      unescape: string -> string)
    ensures ChatTestEngine(openRouter, true, model, WebFailed(status, error), unescape) == (false, error)
  {
  }

  /** A reply without a content field passes the OpenAI test, because the
      not-found message is non-empty. */
  lemma OpenAITestPassesWithoutContent(model: Option<string>, text: string, unescape: string -> string)
    requires Capture(text, "content", true).None?
    ensures ChatTestEngine(false, true, model, WebOk(Some(text)), unescape) == (true, None)
  {
  }
}
