/** CloudflareWrapper (src/util/CloudflareWrapper.cs): normalises a parsed
    Cloudflare Workers AI reply into the OpenAI-shaped record, and the
    one-prompt request that goes through it. The id and creation time come
    from Guid.NewGuid and the clock and are parameters here. */
module CloudflareWrapper {
  import opened Wrappers
  import opened Strings
  import opened Http
  import opened EngineHandle

  datatype CloudflareResult = CloudflareResult(response: Option<string>)
  datatype CloudflareResponse = CloudflareResponse(result: Option<CloudflareResult>, success: bool, errors: Option<seq<string>>)

  /** JsonConvert.DeserializeObject<CloudflareResponse>: text that does not
      deserialise throws (with its message), the literal `null` gives null. */
  datatype CloudflareJson = Unparsable(message: string) | JsonNull | Object(response: CloudflareResponse)

  datatype Wrapper = Wrapper(id: string, objectKind: string, created: int, model: Option<string>,
                             choices: seq<Choice>, usage: Usage)

  const ConvertPrefix: string := "Failed to convert Cloudflare response: "
  const SendPrefix: string := "Failed to send prompt to Cloudflare API: "
  const ApiErrorsPrefix: string := "Cloudflare API returned errors: "
  /** Message of the NullReferenceException from dereferencing null. */
  const NullReferenceMessage: string := "Object reference not set to an instance of an object."
  /** Message of the ArgumentNullException from string.Join on a null list. */
  const NullValuesMessage: string := "Value cannot be null. (Parameter 'values')"

  /** The message of the exception raised inside the conversion, before it
      is wrapped. */
  function ConversionError(json: CloudflareJson): string
  {
    match json
    case Unparsable(message) => message
    case JsonNull => NullReferenceMessage
    case Object(resp) =>
      if !resp.success then
        (if resp.errors.Some? then ApiErrorsPrefix + Join(", ", resp.errors.value) else NullValuesMessage)
      else NullReferenceMessage
  }

  function ConvertFromCloudflare(json: CloudflareJson, model: Option<string>, id: string, created: int)
    : (r: Result<Wrapper, string>)
    ensures r.Success? <==> json.Object? && json.response.success && json.response.result.Some?
    ensures r.Success? ==>
      && r.value.objectKind == "chat.completion" && r.value.model == model
      && r.value.choices == [Choice(0, Some(Message(Some("assistant"), json.response.result.value.response)), Some("stop"))]
      && r.value.usage == Usage(0, 0, 0)
    ensures r.Failure? ==> r.error == ConvertPrefix + ConversionError(json)
    ensures json.Object? && !json.response.success && json.response.errors.Some? ==>
      r == Failure(ConvertPrefix + (ApiErrorsPrefix + Join(", ", json.response.errors.value)))
  {
    if json.Object? && json.response.success && json.response.result.Some? then
      Success(Wrapper(id, "chat.completion", created, model,
        [Choice(0, Some(Message(Some("assistant"), json.response.result.value.response)), Some("stop"))],
        Usage(0, 0, 0)))
    else
      Failure(ConvertPrefix + ConversionError(json))
  }

  /** Seen through AIInteraction.GetAssistantMessage, a converted reply
      yields the Cloudflare `response` text, or "" when it is null. */
  lemma ConvertedAssistantMessage(json: CloudflareJson, model: Option<string>, id: string, created: int)
    requires ConvertFromCloudflare(json, model, id, created).Success?
    ensures var w := ConvertFromCloudflare(json, model, id, created).value;
      GetAssistantMessage(AIInteraction(Some(w.id), Some(w.objectKind), w.created, w.model,
                                        Some(seq(|w.choices|, i requires 0 <= i < |w.choices| => Some(w.choices[i]))),
                                        Some(w.usage)))
      == json.response.result.value.response.GetOr("")
  {
  }

  const EndpointHead: string := "https://api.cloudflare.com/client/v4/accounts/"
  const EndpointMiddle: string := "/ai/run/@cf/meta/"

  /** The default value of SendPromptAsync's `endpointTemplate`. */
  const DefaultTemplate: string := EndpointHead + "{0}" + EndpointMiddle + "{1}"

  const FormatError := "Input string was not in a correct format."

  /** The URL of the default template: {0} = account id and {1} = model;
      CloudflareEngine interpolates the same URL. */
  function Endpoint(accountId: string, model: string): (url: string)
    ensures |url| == |EndpointHead| + |accountId| + |EndpointMiddle| + |model|
    ensures url[..|EndpointHead|] == EndpointHead
    ensures url[|EndpointHead|..|EndpointHead| + |accountId|] == accountId
    ensures url[|EndpointHead| + |accountId|..|url| - |model|] == EndpointMiddle
    ensures url[|url| - |model|..] == model
  {
    EndpointHead + accountId + EndpointMiddle + model
  }

  function Prepend(p: string, r: Result<string, string>): Result<string, string> {
    match r
    case Success(v) => Success(p + v)
    case Failure(e) => Failure(e)
  }

  /** The FormatException message for an item whose index is not below
      the number of arguments. */
  const IndexError := "Index (zero based) must be greater than or equal to zero and less than the size of the argument list."

  predicate IsDigit(c: char) {
    '0' <= c <= '9'
  }

  /** The index loop after `{`: digits accumulate while the value stays
      below 1000000, and the template ending inside the loop is a format
      error. `s` starts at the digit being read, `index` holds the value so
      far; the result is the index and the text after the digits read. */
  function ParseIndex(s: string, index: nat): (r: Option<(nat, string)>)
    requires s != [] && IsDigit(s[0])
    ensures r.None? ==> forall i | 0 <= i < |s| :: IsDigit(s[i])
    ensures r.Some? ==> r.value.1 != [] && |r.value.1| < |s| && r.value.1 == s[|s| - |r.value.1|..]
    ensures r.Some? ==> !IsDigit(r.value.1[0]) || r.value.0 >= 1000000
    ensures r.Some? ==> r.value.0 >= index * 10 + (s[0] as int - '0' as int)
    decreases |s|
  {
    var v := index * 10 + (s[0] as int - '0' as int);
    if |s| == 1 then None
    else if IsDigit(s[1]) && v < 1000000 then
      ParseIndex(s[1..], v)
    else Some((v, s[1..]))
  }

  /** string.Format(template, a, b): `{{` and `}}` stand for single braces;
      `{` and digits then `}` is replaced by argument 0 or 1; an index of 2
      or more throws FormatException with IndexError as soon as its digits
      are read; any other brace throws FormatException with FormatError. */
  function Format(t: string, a: string, b: string): (r: Result<string, string>)
    ensures r.Failure? ==> r.error == FormatError || r.error == IndexError
    decreases |t|
  {
    if t == [] then Success([])
    else if |t| >= 2 && t[..2] == "{{" then Prepend("{", Format(t[2..], a, b))
    else if |t| >= 2 && t[..2] == "}}" then Prepend("}", Format(t[2..], a, b))
    else if |t| >= 2 && t[0] == '{' && IsDigit(t[1]) then
      match ParseIndex(t[1..], 0)
      case None => Failure(FormatError)
      case Some((index, rest)) =>
        if index >= 2 then Failure(IndexError)
        else if rest[0] == '}' then Prepend(if index == 0 then a else b, Format(rest[1..], a, b))
        else Failure(FormatError)
    else if t[0] == '{' || t[0] == '}' then Failure(FormatError)
    else Prepend([t[0]], Format(t[1..], a, b))
  }

  /** A character other than a brace is copied as it is. */
  lemma FormatPlainChar(t: string, a: string, b: string)
    requires t != [] && t[0] != '{' && t[0] != '}'
    ensures Format(t, a, b) == Prepend([t[0]], Format(t[1..], a, b))
  {
    assert |t| >= 2 ==> t[..2][0] == t[0];
    assert |t| >= 3 ==> t[..3][0] == t[0];
  }

  lemma PrependTwice(p: string, q: string, r: Result<string, string>)
    ensures Prepend(p, Prepend(q, r)) == Prepend(p + q, r)
  {
    if r.Success? {
      assert p + (q + r.value) == (p + q) + r.value;
    }
  }

  /** Text without braces is copied as it is. */
  lemma {:induction false} FormatPlain(t: string, rest: string, a: string, b: string)
    requires '{' !in t && '}' !in t
    ensures Format(t + rest, a, b) == Prepend(t, Format(rest, a, b))
    decreases |t|
  {
    if t == [] {
      assert t + rest == rest;
      if Format(rest, a, b).Success? {
        assert t + Format(rest, a, b).value == Format(rest, a, b).value;
      }
    } else {
      assert t[0] in t;
      assert '{' !in t[1..] && '}' !in t[1..] by {
        assert forall c :: c in t[1..] ==> c in t;
      }
      assert (t + rest)[0] == t[0] && (t + rest)[1..] == t[1..] + rest;
      FormatPlainChar(t + rest, a, b);
      FormatPlain(t[1..], rest, a, b);
      PrependTwice([t[0]], t[1..], Format(rest, a, b));
      assert [t[0]] + t[1..] == t;
    }
  }

  lemma BraceFreeJoin(x: string, y: string)
    requires '{' !in x && '}' !in x && '{' !in y && '}' !in y
    ensures '{' !in x + y && '}' !in x + y
  {
  }

  lemma HeadStartBraceFree()
    ensures '{' !in "https://api.clou" && '}' !in "https://api.clou"
  {
    var p, q := "https://", "api.clou";
    assert "https://api.clou" == p + q;
    assert '{' !in p && '}' !in p;
    assert '{' !in q && '}' !in q;
  }

  lemma HeadEndBraceFree()
    ensures '{' !in "dflare.com/client/v4/accounts/" && '}' !in "dflare.com/client/v4/accounts/"
  {
    var p, q, u, v := "dflare.c", "om/clien", "t/v4/acc", "ounts/";
    assert "dflare.com/client/v4/accounts/" == (p + q) + (u + v);
    assert '{' !in p && '}' !in p;
    assert '{' !in q && '}' !in q;
    assert '{' !in u && '}' !in u;
    assert '{' !in v && '}' !in v;
    BraceFreeJoin(p, q);
    BraceFreeJoin(u, v);
    BraceFreeJoin(p + q, u + v);
  }

  lemma HeadBraceFree()
    ensures '{' !in EndpointHead && '}' !in EndpointHead
  {
    HeadStartBraceFree();
    HeadEndBraceFree();
    assert EndpointHead == "https://api.clou" + "dflare.com/client/v4/accounts/";
    BraceFreeJoin("https://api.clou", "dflare.com/client/v4/accounts/");
  }

  lemma MiddleBraceFree()
    ensures '{' !in EndpointMiddle && '}' !in EndpointMiddle
  {
    var p := ["/ai/run/", "@cf/meta/"];
    assert EndpointMiddle == p[0] + p[1];
    assert '{' !in p[0] && '}' !in p[0];
    assert '{' !in p[1] && '}' !in p[1];
  }

  /** A `{0}` or `{1}` item is replaced by its argument. */
  lemma FormatItem(item: string, rest: string, a: string, b: string)
    requires item == "{0}" || item == "{1}"
    ensures Format(item + rest, a, b) == Prepend(if item == "{0}" then a else b, Format(rest, a, b))
  {
    var s := item + rest;
    assert s[1] == item[1] != '{';
    assert s[..2] != "{{" && s[..2] != "}}";
    assert s[..3] == item && s[3..] == rest;
  }

  /** An item whose index starts with a digit from 2 to 9 fails with
      IndexError once its digits are read, whatever comes after them;
      only a template that ends inside the digits fails with FormatError. */
  lemma FormatIndexOutOfRange(t: string, a: string, b: string)
    requires |t| >= 2 && t[0] == '{' && '2' <= t[1] <= '9'
    requires exists j | 2 <= j < |t| :: !IsDigit(t[j])
    ensures Format(t, a, b) == Failure(IndexError)
  {
    var j :| 2 <= j < |t| && !IsDigit(t[j]);
    assert !IsDigit(t[1..][j - 1]);
    assert t[..2][1] == t[1];
  }

  /** `x{2}` with two arguments: the `x` is read, then the index 2 throws. */
  lemma IndexOutOfRangeExample(a: string, b: string)
    ensures Format("x{2}", a, b) == Failure(IndexError)
  {
    var t := "x{2}";
    FormatPlainChar(t, a, b);
    assert t[1..] == "{2}";
    assert !IsDigit(t[1..][2]);
    FormatIndexOutOfRange(t[1..], a, b);
  }

  /** The part of the default template after the account id. */
  lemma FormatTemplateTail(accountId: string, model: string)
    ensures Format("{0}" + EndpointMiddle + "{1}", accountId, model)
         == Success(accountId + EndpointMiddle + model)
  {
    MiddleBraceFree();
    FormatItem("{1}", [], accountId, model);
    assert "{1}" + [] == "{1}" && model + [] == model;
    assert Format("{1}", accountId, model) == Success(model);
    FormatPlain(EndpointMiddle, "{1}", accountId, model);
    assert Format(EndpointMiddle + "{1}", accountId, model) == Success(EndpointMiddle + model);
    assert "{0}" + EndpointMiddle + "{1}" == "{0}" + (EndpointMiddle + "{1}");
    FormatItem("{0}", EndpointMiddle + "{1}", accountId, model);
    assert accountId + (EndpointMiddle + model) == accountId + EndpointMiddle + model;
  }

  /** The default template formats to Endpoint, whatever the account id
      and the model hold, braces included. */
  lemma DefaultTemplateEndpoint(accountId: string, model: string)
    ensures Format(DefaultTemplate, accountId, model) == Success(Endpoint(accountId, model))
  {
    HeadBraceFree();
    var tail := "{0}" + EndpointMiddle + "{1}";
    assert DefaultTemplate == EndpointHead + tail;
    FormatTemplateTail(accountId, model);
    FormatPlain(EndpointHead, tail, accountId, model);
    assert EndpointHead + (accountId + EndpointMiddle + model) == Endpoint(accountId, model);
  }

  /** What SendPromptAsync posts: URL, Authorization header and the body
      `{prompt}`. */
  datatype PromptRequest = PromptRequest(url: string, authorization: string, prompt: string)

  /** The request SendPromptAsync builds: the formatted endpoint, or the
      FormatException string.Format throws. */
  function BuildPromptRequest(accountId: string, apiToken: string, model: string, prompt: string,
                              endpointTemplate: string): (r: Result<PromptRequest, string>)
    ensures Format(endpointTemplate, accountId, model).Failure? ==>
      r == Failure(Format(endpointTemplate, accountId, model).error)
    ensures Format(endpointTemplate, accountId, model).Success? ==>
      r == Success(PromptRequest(Format(endpointTemplate, accountId, model).value, "Bearer " + apiToken, prompt))
    ensures endpointTemplate == DefaultTemplate ==>
      r == Success(PromptRequest(Endpoint(accountId, model), "Bearer " + apiToken, prompt))
  {
    DefaultTemplateEndpoint(accountId, model);
    match Format(endpointTemplate, accountId, model)
    case Success(url) => Success(PromptRequest(url, "Bearer " + apiToken, prompt))
    case Failure(e) => Failure(e)
  }

  /** Message of the HttpRequestException from EnsureSuccessStatusCode:
      the numeric status and the response's reason phrase. */
  function StatusError(status: int, reasonPhrase: string): (m: string)
    ensures m == StatusPrefix + IntToString(status) + " (" + reasonPhrase + ")."
  {
    StatusPrefix + IntToString(status) + " (" + reasonPhrase + ")."
  }

  const StatusPrefix := "Response status code does not indicate success: "

  /** SendPromptAsync: string.Format runs before the `try`, so a malformed
      template throws its FormatException unwrapped and nothing is sent;
      every later failure, from the transport, the status or the
      conversion, is rethrown with the "Failed to send prompt" prefix.
      `reasonPhrase` is the ReasonPhrase of the response. */
  function SendPromptAsync(endpointTemplate: string, accountId: string, model: string,
                           reply: Reply<CloudflareJson>, reasonPhrase: string, id: string, created: int)
    : (r: Result<Wrapper, string>)
    ensures Format(endpointTemplate, accountId, model).Failure? ==>
      r == Failure(Format(endpointTemplate, accountId, model).error)
    ensures Format(endpointTemplate, accountId, model).Success? ==>
      && (r.Success? <==> reply.Responded? && IsSuccessStatusCode(reply.status)
                          && ConvertFromCloudflare(reply.json, Some(model), id, created).Success?)
      && (r.Success? ==> r == ConvertFromCloudflare(reply.json, Some(model), id, created))
      && (reply.Thrown? ==> r == Failure(SendPrefix + reply.message))
      && (reply.Responded? && !IsSuccessStatusCode(reply.status) ==>
            r == Failure(SendPrefix + StatusError(reply.status, reasonPhrase)))
      && (reply.Responded? && IsSuccessStatusCode(reply.status) && r.Failure? ==>
            r.error == SendPrefix + ConvertPrefix + ConversionError(reply.json))
  {
    if Format(endpointTemplate, accountId, model).Failure? then Failure(Format(endpointTemplate, accountId, model).error)
    else
      match reply
      case Thrown(message) => Failure(SendPrefix + message)
      case Responded(status, _, json) =>
        if !IsSuccessStatusCode(status) then Failure(SendPrefix + StatusError(status, reasonPhrase))
        else
          match ConvertFromCloudflare(json, Some(model), id, created)
          case Success(w) => Success(w)
          case Failure(e) => Failure(SendPrefix + e)
  }
}
