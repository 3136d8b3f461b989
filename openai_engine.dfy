/** OpenAIEngine (src/util/OpenAIEngine.cs): sends the alternating message
    list to an OpenAI-compatible chat endpoint and logs the exchange in the
    conversation store. The HTTP exchange is a parameter (`reply`). */
module OpenAIEngine {
  import opened Wrappers
  import opened Http
  import opened ConversationStore
  import opened ChatPayload

  const DefaultModel: string := "gpt-4"
  const DefaultSystemPrompt: string := "You are an assistant."
  const ErrorMarker: string := "{ERROR}"
  const TestPrompt: string := "Test connection."

  /** The deserialised body as far as the engine looks into it: `choices`
      (null when missing), each reduced to `message.content` (null when the
      message or its content is missing). */
  datatype OpenAIBody = NotJson | Parsed(choices: Option<seq<Option<string>>>)

  /** What is posted: URL, Authorization header, and the body's `model` and
      `messages`. */
  datatype ChatRequest = ChatRequest(url: string, authorization: string, model: string, messages: seq<ChatMessage>)

  /** The reply got past the choices check. */
  predicate HasChoices(reply: Reply<OpenAIBody>)
  {
    && reply.Responded? && IsSuccessStatusCode(reply.status)
    && reply.json.Parsed? && reply.json.choices.Some? && |reply.json.choices.value| > 0
  }

  function FirstContent(reply: Reply<OpenAIBody>): Option<string>
    requires HasChoices(reply)
  {
    reply.json.choices.value[0]
  }

  /** The rows one call appends: on success the prompt and the answer; on
      any exception the catch block logs the prompt and "{ERROR}", after
      the prompt row written before reading the answer when that point was
      reached. */
  function Logged(prompt: string, reply: Reply<OpenAIBody>): (rows: seq<Turn>)
    ensures 2 <= |rows| <= 3
  {
    if HasChoices(reply) && FirstContent(reply).Some? then
      [Turn("user", prompt), Turn("assistant", FirstContent(reply).value)]
    else
      (if HasChoices(reply) then [Turn("user", prompt)] else [])
        + [Turn("user", prompt), Turn("assistant", ErrorMarker)]
  }

  /** Whatever the reply, the last two rows appended are the prompt as a
      user row and an assistant row: the answer exactly when the call
      succeeds, "{ERROR}" otherwise. */
  lemma LoggedEndsWithExchange(prompt: string, reply: Reply<OpenAIBody>, answer: string)
    requires answer != ErrorMarker
    ensures var rows := Logged(prompt, reply);
      && rows[|rows| - 2] == Turn("user", prompt)
      && (rows[|rows| - 1] == Turn("assistant", answer)
          <==> HasChoices(reply) && FirstContent(reply) == Some(answer))
      && (rows[|rows| - 1] == Turn("assistant", ErrorMarker)
          <==> !(HasChoices(reply) && FirstContent(reply).Some? && FirstContent(reply).value != ErrorMarker))
  {
  }

  class OpenAIEngine {
    const apiKey: string
    const endpoint: string

    constructor (apiKey: string, endpoint: string)
      ensures this.apiKey == apiKey && this.endpoint == endpoint
    {
      this.apiKey := apiKey;
      this.endpoint := endpoint;
    }

    /** Builds the request from the five most recent rows and the defaults,
        posts it, and classifies the reply: transport failure, non-2xx
        status, a body that is not JSON, no choices, and a null answer are
        each an exception; only a non-null first answer is returned. */
    method SendRequestAsync(db: DatabaseManager, prompt: string, model: Option<string>,
                            systemPrompt: Option<string>, reply: Reply<OpenAIBody>)
      returns (request: ChatRequest, r: Result<string, ChatError>)
      modifies db
      ensures request == ChatRequest(endpoint, "Bearer " + apiKey, model.GetOr(DefaultModel),
        Payload(systemPrompt.GetOr(DefaultSystemPrompt), EngineContext(old(db.rows)), prompt))
      ensures r.Success? <==> HasChoices(reply) && FirstContent(reply).Some?
      ensures r.Success? ==> r.value == FirstContent(reply).value
      ensures reply.Thrown? ==> r == Failure(Transport(reply.message))
      ensures reply.Responded? && !IsSuccessStatusCode(reply.status) ==> r == Failure(RequestFailed(reply.status, reply.raw))
      ensures reply.Responded? && IsSuccessStatusCode(reply.status) && reply.json.NotJson? ==> r == Failure(Malformed)
      ensures reply.Responded? && IsSuccessStatusCode(reply.status) && reply.json.Parsed? && !HasChoices(reply)
        ==> r == Failure(NoValidChoices)
      ensures HasChoices(reply) && FirstContent(reply).None? ==> r == Failure(NullContent)
      ensures db.rows == old(db.rows) + Logged(prompt, reply)
    {
      var m := model.GetOr(DefaultModel);
      var sys := systemPrompt.GetOr(DefaultSystemPrompt);
      var recent := db.GetLastMessages(5);
      assert recent == Recent(db.rows, 5);
      var built := BuildMessages(sys, Reversed(recent), prompt);
      assert Reversed(recent) == EngineContext(old(db.rows));
      request := ChatRequest(endpoint, "Bearer " + apiKey, m, built.value);

      var error: ChatError;
      match reply {
        case Thrown(message) =>
          error := Transport(message);
        case Responded(status, raw, body) =>
          if !IsSuccessStatusCode(status) {
            error := RequestFailed(status, raw);
          } else if body.NotJson? {
            error := Malformed;
          } else if body.choices.None? || |body.choices.value| == 0 {
            error := NoValidChoices;
          } else {
            var _ := db.AddMessage("user", Some(prompt));
            var answer := body.choices.value[0];
            var stored := db.AddMessage("assistant", answer);
            if stored {
              r := Success(answer.value);
              return;
            }
            error := NullContent;
          }
      }
      // catch: log the prompt and the error marker, then rethrow
      var _ := db.AddMessage("user", Some(prompt));
      var _ := db.AddMessage("assistant", Some(ErrorMarker));
      r := Failure(error);
    }

    /** The configured model (or "gpt-4") is used unless one is given; the
        connection is good only when a non-empty answer comes back. */
    method TestConnectionAsync(db: DatabaseManager, model: Option<string>, configuredModel: Option<string>,
                               reply: Reply<OpenAIBody>)
      returns (request: ChatRequest, ok: bool)
      modifies db
      ensures request.model == model.GetOr(configuredModel.GetOr(DefaultModel))
      ensures request.messages == Payload(DefaultSystemPrompt, EngineContext(old(db.rows)), TestPrompt)
      ensures ok <==> HasChoices(reply) && FirstContent(reply).Some? && FirstContent(reply).value != ""
      ensures db.rows == old(db.rows) + Logged(TestPrompt, reply)
    {
      var m := model.GetOr(configuredModel.GetOr(DefaultModel));
      var r;
      request, r := SendRequestAsync(db, TestPrompt, Some(m), None, reply);
      ok := r.Success? && r.value != "";
    }
  }
}
