/** What an HTTP exchange can come back with, as seen by the chat engines:
    an exception thrown by the client, or a status with the raw body and its
    deserialised form `J`. */
module Http {

  datatype Reply<J> = Thrown(message: string) | Responded(status: int, raw: string, json: J)

  /** HttpResponseMessage.IsSuccessStatusCode. */
  predicate IsSuccessStatusCode(status: int)
    ensures IsSuccessStatusCode(status) <==> status / 100 == 2
    ensures IsSuccessStatusCode(status) ==> 100 < status < 300
  {
    200 <= status <= 299
  }

  /** The exceptions a chat engine's SendRequestAsync rethrows. */
  datatype ChatError =
    | Transport(message: string)                 // the POST itself threw
    | RequestFailed(status: int, body: string)   // non-2xx status
    | Malformed                                  // the body is not JSON
    | NoValidChoices                             // OpenAI: `choices` null or empty
    | ConversionFailed(message: string)          // Cloudflare: the wrapper conversion threw
    | NullContent                                // the reply text is null, so it cannot be read or logged
}
