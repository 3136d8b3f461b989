/** CloudflareEngine (src/util/CloudflareEngine.cs): the same alternating
    message list as OpenAIEngine, posted to Workers AI and normalised
    through CloudflareWrapper. Unlike OpenAIEngine it logs nothing when the
    call fails. */
module CloudflareEngine {
  import opened Wrappers
  import opened Http
  import opened ConversationStore
  import opened ChatPayload
  import opened CloudflareWrapper

  const DefaultSystemPrompt: string := "You are a helpful assistant."
  const TestPrompt: string := "Test connection."
  const TestSystemPrompt: string := "You are a test assistant. Just Write 1."

  /** What is posted: URL, Authorization header and the body, which holds
      only `messages` (no model field: the model is part of the URL). */
  datatype CloudflareRequest = CloudflareRequest(url: string, authorization: string, messages: seq<ChatMessage>)

  /** The reply converts: 2xx and a successful wrapper conversion. */
  predicate Converts(reply: Reply<CloudflareJson>, model: string, id: string, created: int)
  {
    reply.Responded? && IsSuccessStatusCode(reply.status)
    && ConvertFromCloudflare(reply.json, Some(model), id, created).Success?
  }

  /** The converted answer, Choices[0].Message.Content. */
  function Answer(reply: Reply<CloudflareJson>, model: string, id: string, created: int): (a: Option<string>)
    requires Converts(reply, model, id, created)
    ensures a == reply.json.response.result.value.response
  {
    var w := ConvertFromCloudflare(reply.json, Some(model), id, created).value;
    w.choices[0].message.value.content
  }

  /** The rows one call appends: none unless the reply converts; then the
      prompt, and the answer unless it is null (the insert of a null
      message throws). */
  function Logged(prompt: string, reply: Reply<CloudflareJson>, model: string, id: string, created: int)
    : (rows: seq<Turn>)
    ensures |rows| <= 2
  {
    if !Converts(reply, model, id, created) then []
    else if Answer(reply, model, id, created).None? then [Turn("user", prompt)]
    else [Turn("user", prompt), Turn("assistant", Answer(reply, model, id, created).value)]
  }

  class CloudflareEngine {
    const apiToken: string
    const accountId: string
    const model: string

    constructor (apiToken: string, accountId: string, model: string)
      ensures this.apiToken == apiToken && this.accountId == accountId && this.model == model
    {
      this.apiToken := apiToken;
      this.accountId := accountId;
      this.model := model;
    }

    /** Builds the list from the five most recent rows, posts it to the
        model's endpoint and returns the converted answer. A transport
        failure, a non-2xx status, a failed conversion and a null answer
        are each rethrown. */
    method SendRequestAsync(db: DatabaseManager, prompt: string, model: Option<string>,
                            systemPrompt: Option<string>, reply: Reply<CloudflareJson>, id: string, created: int)
      returns (request: CloudflareRequest, r: Result<string, ChatError>)
      modifies db
      ensures request == CloudflareRequest(Endpoint(accountId, model.GetOr(this.model)), "Bearer " + apiToken,
        Payload(systemPrompt.GetOr(DefaultSystemPrompt), EngineContext(old(db.rows)), prompt))
      ensures var m := model.GetOr(this.model);
        && (r.Success? <==> Converts(reply, m, id, created) && Answer(reply, m, id, created).Some?)
        && (r.Success? ==> r.value == Answer(reply, m, id, created).value)
        && (reply.Thrown? ==> r == Failure(Transport(reply.message)))
        && (reply.Responded? && !IsSuccessStatusCode(reply.status) ==> r == Failure(RequestFailed(reply.status, reply.raw)))
        && (reply.Responded? && IsSuccessStatusCode(reply.status) && !Converts(reply, m, id, created) ==>
              r == Failure(ConversionFailed(ConvertPrefix + ConversionError(reply.json))))
        && (Converts(reply, m, id, created) && Answer(reply, m, id, created).None? ==> r == Failure(NullContent))
        && db.rows == old(db.rows) + Logged(prompt, reply, m, id, created)
    {
      var m := model.GetOr(this.model);
      var url := Endpoint(accountId, m);
      var sys := systemPrompt.GetOr(DefaultSystemPrompt);
      var recent := db.GetLastMessages(5);
      assert recent == Recent(db.rows, 5);
      var built := BuildMessages(sys, Reversed(recent), prompt);
      assert Reversed(recent) == EngineContext(old(db.rows));
      request := CloudflareRequest(url, "Bearer " + apiToken, built.value);

      match reply {
        case Thrown(message) =>
          r := Failure(Transport(message));
        case Responded(status, raw, json) =>
          if !IsSuccessStatusCode(status) {
            r := Failure(RequestFailed(status, raw));
          } else {
            var converted := ConvertFromCloudflare(json, Some(m), id, created);
            if converted.Failure? {
              r := Failure(ConversionFailed(converted.error));
            } else {
              var _ := db.AddMessage("user", Some(prompt));
              var answer := converted.value.choices[0].message.value.content;
              var stored := db.AddMessage("assistant", answer);
              r := if stored then Success(answer.value) else Failure(NullContent);
            }
          }
      }
    }

    /** True exactly when the canary exchange did not throw, even when the
        answer is empty. */
    method TestConnectionAsync(db: DatabaseManager, model: Option<string>, reply: Reply<CloudflareJson>,
                               id: string, created: int)
      returns (request: CloudflareRequest, ok: bool)
      modifies db
      ensures var m := model.GetOr(this.model);
        && request.url == Endpoint(accountId, m)
        && request.messages == Payload(TestSystemPrompt, EngineContext(old(db.rows)), TestPrompt)
        && (ok <==> Converts(reply, m, id, created) && Answer(reply, m, id, created).Some?)
        && db.rows == old(db.rows) + Logged(TestPrompt, reply, m, id, created)
    {
      var m := model.GetOr(this.model);
      var r;
      request, r := SendRequestAsync(db, TestPrompt, Some(m), Some(TestSystemPrompt), reply, id, created);
      ok := r.Success?;
    }
  }

  /** A failed call leaves the store as it was; a successful one appends
      exactly the prompt and the answer. */
  lemma FailureLogsNothing(prompt: string, reply: Reply<CloudflareJson>, model: string, id: string, created: int)
    ensures !Converts(reply, model, id, created) ==> Logged(prompt, reply, model, id, created) == []
    ensures Converts(reply, model, id, created) && Answer(reply, model, id, created).Some? ==>
      Logged(prompt, reply, model, id, created)
        == [Turn("user", prompt), Turn("assistant", reply.json.response.result.value.response.value)]
  {
  }
}
