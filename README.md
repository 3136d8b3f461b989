# MateChat core, modelled in Dafny

MateChat is a MelonLoader mod for Desktop Mate. It adds a chat window that talks to a language model (OpenAI, OpenRouter or Cloudflare Workers AI), logs the conversation to SQLite, and reads replies aloud through a GPT-SoVITS text-to-speech server. The audio can be streamed as it arrives or saved as WAV files.

This project models the deterministic core of the mod. Network, database, file and clock results are inputs to the model.

- **Conversation payloads** (`chat_payload.dfy`, `openai_engine.dfy`, `cloudflare_engine.dfy`). `ChatPayload.BuildMessages` is the loop both engines share. It turns the last five stored turns into a list that starts with the system prompt, alternates user and assistant, and ends with the new prompt. A placeholder stands in for a missing answer. A lemma shows that the "first message must be a user message" check can never fire. The OpenAI and Cloudflare engines differ in what they log when a call fails.
- **Stores** (`conversation_store.dfy`, `audio_log_store.dfy`). The turn log and the message-to-audio-path log are classes over sequences. Insertion order stands in for `ORDER BY Timestamp`.
- **Engine registries** (`engine_registry.dfy`, `ai_engine_manager.dfy`, `audio_engine_manager.dfy`). Each is a dictionary compared with OrdinalIgnoreCase, plus a default name and dispatch.
- **Response normalisation** (`engine_handle.dfy`, `cloudflare_wrapper.dfy`).
- **Hand-written JSON** (`json_util.dfy`, `chat_api_util.dfy`). This covers JsonUtil.EscapeJsonString, the string-built request bodies, the regular-expression extractors (the lazy `(.*?)` and `\s*` written out as string search), the HTTP-status messages and the `TestEngine` verdicts of CloudflareUtil, OpenAIUtil and OpenRouterEngine.
- **WAV handling** (`bytes.dfy`, `wav.dfy`, `streaming_tts.dfy`, `download_handler.dfy`, `audio_stream_player.dfy`). This covers little-endian fields with explicit 16- and 32-bit wrap-around, the RIFF reader and writer of WAV.cs, and the header-then-PCM state machine of StreamingTTSEngine. It also covers the chunk copy of StreamingDownloadHandler and the bounded sample queue of AudioStreamPlayer.
- **TTS payload builders** (`tts_request.dfy`, `json_request_builder.dfy`, `tts_engine.dfy`).
- **Configuration validation** (`config.dfy`) and the **chat window's text logic** (`feature.dfy`, `chat_feature.dfy`). The text logic covers key editing, the send guard, history append, trim and clear, placeholder replacement and text formatting.

Source paths below are relative to the repository root.

## Model

| member | source | states |
|---|---|---|
| ConversationStore.Recent | src/database/DatabaseManager.cs:61-86 | the number of rows returned is the smaller of the limit and the row count |
| ConversationStore.Reversed | src/database/DatabaseManager.cs:85 | List.Reverse: same length, element i is the old element n-1-i |
| ConversationStore.DatabaseManager.constructor | src/database/DatabaseManager.cs:10-36 | opening the database (CREATE TABLE IF NOT EXISTS) keeps the rows it already holds |
| ConversationStore.DatabaseManager.AddMessage | src/database/DatabaseManager.cs:38-52 | a non-null message appends exactly one (role, message) row after the existing ones; a null message violates NOT NULL, fails and writes nothing |
| ConversationStore.DatabaseManager.GetLastMessages | src/database/DatabaseManager.cs:54-87 | returns min(count, rows) rows (all rows for a negative LIMIT), and they are the most recent rows in oldest-first order; the store is not modified |
| ConversationStore.DatabaseManager.ClearMessages | src/database/DatabaseManager.cs:89-101 | every row is removed, so a second clear changes nothing and a later GetLastMessages returns no rows |
| AudioLogStore.LatestPath | src/database/DatabaseAudioManager.cs:53-75 | the lookup misses (null) exactly when no row has that exact message |
| AudioLogStore.LatestPathIsMostRecent | src/database/DatabaseAudioManager.cs:58 | a found path belongs to a row with that message and no later row has that message |
| AudioLogStore.LatestRow | src/database/DatabaseAudioManager.cs:58 | the same, naming the index of the row that is read |
| AudioLogStore.AddThenLookup | src/database/DatabaseAudioManager.cs:37-75 | right after AddAudioPath(m, p) the lookup of m gives p, and the lookup of every other message is unchanged |
| AudioLogStore.DatabaseAudioManager.constructor | src/database/DatabaseAudioManager.cs:11-35 | opening the database keeps the rows it already holds |
| AudioLogStore.DatabaseAudioManager.AddAudioPath | src/database/DatabaseAudioManager.cs:37-51 | appends exactly one (message, path) row |
| AudioLogStore.DatabaseAudioManager.GetAudioPath | src/database/DatabaseAudioManager.cs:53-75 | returns the path of the newest row whose message equals the query exactly, or null |
| Strings.EqualsIgnoreCase | src/util/AIEngineManager.cs:18 | StringComparer.OrdinalIgnoreCase equality, folded on ASCII letters (see "## Left out"): equal names are equal ignoring case, and names equal ignoring case have the same length |
| EngineRegistry.FindKey | src/util/AIEngineManager.cs:18 | the found entry is the first whose key equals the name ignoring case; a miss means no key equals it |
| EngineRegistry.FindKeyUnique | src/util/AIEngineManager.cs:18 | with keys distinct ignoring case, the lookup finds the one equal key |
| EngineRegistry.TryGetValue | src/util/AIEngineManager.cs:31 | Dictionary.TryGetValue with OrdinalIgnoreCase: succeeds exactly when some key equals the name ignoring case |
| EngineRegistry.Set | src/util/AIEngineManager.cs:23 | the indexer assignment keeps keys distinct ignoring case; it keeps the key list when a key equal ignoring case exists and otherwise appends the name |
| EngineRegistry.SetThenGet | src/util/AIEngineManager.cs:23 | after `dict[name] = e`, a lookup equal to name ignoring case finds e and every other lookup is unchanged (see also src/util/AIEngineManager.cs:31) |
| EngineRegistry.RegisterAll | src/util/AIEngineManager.cs:18-24 | the registration loop leaves keys pairwise distinct ignoring case |
| EngineRegistry.RegisterAllLookup | src/util/AIEngineManager.cs:18-24 | every pair is registered, and among names equal ignoring case the last pair's engine is the one found |
| EngineRegistry.LookupIgnoresCase | src/util/AIEngineManager.cs:18 | two names that differ only in case find the same engine (see also src/util/AIEngineManager.cs:31) |
| EngineRegistry.NotFoundMessage | src/util/AIEngineManager.cs:33 | "Engine '<name>' not found. Available engines: " and the keys joined by ", "; Resolve states when it is raised |
| EngineRegistry.Resolve | src/util/AIEngineManager.cs:29-34 | a null name becomes the default; success exactly when the lookup succeeds, returning its engine; a miss is the "Engine '…' not found. Available engines: …" error listing every key |
| AIEngineManager.AIEngineManager.constructor | src/util/AIEngineManager.cs:16-25 | keeps the default name and registers the pairs in order |
| AIEngineManager.AIEngineManager.SendRequestAsync | src/util/AIEngineManager.cs:27-37 | an unresolved name fails with the not-found error; a resolved engine gets prompt, model and system prompt unchanged and its answer is returned as is |
| AIEngineManager.AIEngineManager.TestEngineAsync | src/util/AIEngineManager.cs:39-49 | the resolved engine's TestConnectionAsync verdict, or the not-found error |
| AIEngineManager.AIEngineManager.ProcessAudioAsync | src/util/AIEngineManager.cs:50-65 | not found is the not-found error; an engine that is not a TTSEngine is rejected with "Engine '…' is not a valid TTS engine."; otherwise the TTS engine's result is returned |
| AudioEngineManager.AudioEngineManager.constructor | src/util/audio/AudioEngineManager.cs:16-25 | keeps the default name and registers the pairs in order, case-insensitively |
| AudioEngineManager.AudioEngineManager.ProcessAudioAsync | src/util/audio/AudioEngineManager.cs:25-36 | a null name falls back to the default; not found is the not-found error listing every key; otherwise the engine gets the text unchanged and its result is returned |
| ChatPayload.FilterAlternates | src/util/OpenAIEngine.cs:52-72 | the kept context turns start with a user turn, alternate user/assistant strictly and hold no other role; `lastRole` is the last kept role, or "system" when none is kept |
| ChatPayload.SubsequenceLength | src/util/OpenAIEngine.cs:53-72 | a list of kept turns is no longer than the context it was taken from |
| ChatPayload.FilterIsSubsequence | src/util/OpenAIEngine.cs:53-72 | every kept turn comes from the context, in the order walked |
| ChatPayload.PayloadShape | src/util/OpenAIEngine.cs:42-87 | the list starts with the system message and ends with (user, prompt); element 1 is a user message, so the "first non-system message must be a user message" throw cannot fire; roles after the system message alternate; the length is even and at most the context size plus three (see also src/util/CloudflareEngine.cs:46-91) |
| ChatPayload.AssembledShape | src/util/OpenAIEngine.cs:74-81 | the same shape for any alternating kept list, with the placeholder and the prompt appended |
| ChatPayload.AlternatingParity | src/util/OpenAIEngine.cs:62-71 | in an alternating kept list, even positions are user turns and odd positions assistant turns |
| ChatPayload.PayloadAtMostEight | src/util/OpenAIEngine.cs:48-81 | with the five rows fetched, the list holds at most eight messages |
| ChatPayload.PlaceholderExactlyAfterUser | src/util/OpenAIEngine.cs:74-78 | "[Placeholder: Assistant did not respond]" is added exactly when the last kept context turn is a user turn |
| ChatPayload.AlternatingContextKeptWhole | src/util/OpenAIEngine.cs:53-72 | a context that already alternates, starting with a user turn, is kept whole and in order |
| ChatPayload.EngineContext | src/util/OpenAIEngine.cs:48-49 | GetLastMessages(5) is already oldest first and is reversed again, so the loop walks the (at most five) newest rows newest first (see also src/database/DatabaseManager.cs:85) |
| ChatPayload.NewestFirstExample | src/util/OpenAIEngine.cs:48-81 | after one exchange (user "a", assistant "b") the answer is skipped as a leading assistant turn and the placeholder stands in for it |
| ChatPayload.BuildMessages | src/util/OpenAIEngine.cs:41-87 | the loop with its `lastRole` tracking produces exactly the list Payload describes, and the final user-first check never fails (see also src/util/CloudflareEngine.cs:45-91) |
| OpenAIEngine.Logged | src/util/OpenAIEngine.cs:117-129 | every call appends two or three rows |
| OpenAIEngine.LoggedEndsWithExchange | src/util/OpenAIEngine.cs:117-129 | whatever the reply, the last two rows appended are (user, prompt) and an assistant row: the answer exactly when the call succeeds, "{ERROR}" when it fails |
| OpenAIEngine.OpenAIEngine.constructor | src/util/OpenAIEngine.cs:22-26 | keeps the API key and the endpoint |
| OpenAIEngine.OpenAIEngine.SendRequestAsync | src/util/OpenAIEngine.cs:36-131 | posts model (default "gpt-4") and the assembled list (default system prompt "You are an assistant.") with "Bearer " + key; succeeds exactly with a 2xx reply whose choices are non-empty and whose first content is non-null, returning it; transport failure, non-2xx status, a body that is not JSON, missing choices and a null answer are each their own error; the store grows by exactly Logged |
| OpenAIEngine.OpenAIEngine.TestConnectionAsync | src/util/OpenAIEngine.cs:138-160 | sends "Test connection." with the given, configured or "gpt-4" model; never throws and is true exactly when a non-empty answer comes back |
| CloudflareEngine.Answer | src/util/CloudflareEngine.cs:119 | the answer read is the Cloudflare `result.response` |
| CloudflareEngine.Logged | src/util/CloudflareEngine.cs:115-121 | a call appends at most two rows |
| CloudflareEngine.CloudflareEngine.constructor | src/util/CloudflareEngine.cs:22-27 | keeps token, account id and model |
| CloudflareEngine.CloudflareEngine.SendRequestAsync | src/util/CloudflareEngine.cs:37-128 | posts only `messages` to `…/accounts/{accountId}/ai/run/@cf/meta/{model}` (model defaulting to the constructor's), with default system prompt "You are a helpful assistant."; succeeds exactly when the reply converts and the answer is non-null; transport, status and conversion failures are rethrown; the store grows by exactly Logged |
| CloudflareEngine.CloudflareEngine.TestConnectionAsync | src/util/CloudflareEngine.cs:132-144 | true exactly when the canary send did not throw, even for an empty answer; the canary exchange is logged like any call |
| CloudflareEngine.FailureLogsNothing | src/util/CloudflareEngine.cs:104-127 | a reply that does not convert appends nothing; a converted non-null answer appends exactly (user, prompt) and (assistant, answer) |
| EngineHandle.GetAssistantMessage | src/util/EngineHandle.cs:39-47 | "" when Choices is null or empty; otherwise the first choice's message content, and "" when the choice, its message or its content is null, so never null |
| EngineHandle.GetUsageDetails | src/util/EngineHandle.cs:52-55 | with a null Usage every number renders as empty text in "Prompt Tokens: , Completion Tokens: , Total Tokens: " |
| CloudflareWrapper.ConvertFromCloudflare | src/util/CloudflareWrapper.cs:20-64 | succeeds exactly when the response parses, `success` is true and `result` is non-null; then one choice (index 0, role "assistant", content = result.response, finish reason "stop"), Object "chat.completion", Model = the argument and zero usage; every failure carries the "Failed to convert Cloudflare response: " prefix, with the joined `errors` list when success is false |
| CloudflareWrapper.ConvertedAssistantMessage | src/util/CloudflareWrapper.cs:37-49 | read through GetAssistantMessage, a converted reply gives the Cloudflare `response` text, or "" when it is null (see also src/util/EngineHandle.cs:39-47) |
| CloudflareWrapper.Endpoint | src/util/CloudflareWrapper.cs:74 | the URL is the default template's fixed head, then the account id, the fixed middle and the model, each at exactly its position |
| CloudflareWrapper.Format | src/util/CloudflareWrapper.cs:77 | string.Format with two arguments: an item `{`digits`}` of index 0 or 1 becomes the account id or the model, `{{` and `}}` single braces; an index of 2 or more fails with the index-out-of-range message, any other brace with the invalid-format message |
| CloudflareWrapper.ParseIndex | src/util/CloudflareWrapper.cs:77 | string.Format's index loop: it fails only when the template ends inside its digits; otherwise it stops at a non-digit or once the value reaches 1000000, leaving the rest of the template, with a value no smaller than its first digit |
| CloudflareWrapper.FormatIndexOutOfRange | src/util/CloudflareWrapper.cs:77 | an item whose index starts with a digit from 2 to 9 fails with the index-out-of-range message whatever follows its digits, provided the template goes on after them |
| CloudflareWrapper.IndexOutOfRangeExample | src/util/CloudflareWrapper.cs:77 | the template `x{2}` fails with the index-out-of-range message, not the invalid-format one |
| CloudflareWrapper.FormatPlain | src/util/CloudflareWrapper.cs:77 | template text without braces is copied unchanged, whatever follows it |
| CloudflareWrapper.DefaultTemplateEndpoint | src/util/CloudflareWrapper.cs:74 | formatting the default template gives exactly Endpoint(account id, model), for every account id and model |
| CloudflareWrapper.BuildPromptRequest | src/util/CloudflareWrapper.cs:77-85 | the request goes to the formatted template with "Bearer " + token and a body that carries only the prompt; a malformed template fails with the FormatException message Format gives; with the default template the URL is Endpoint |
| Http.IsSuccessStatusCode | src/util/CloudflareEngine.cs:106 | HttpResponseMessage.IsSuccessStatusCode: true exactly for the 2xx class, whose hundreds digit is 2 (see also src/util/OpenAIEngine.cs:102 and EnsureSuccessStatusCode at src/util/CloudflareWrapper.cs:89) |
| CloudflareWrapper.StatusError | src/util/CloudflareWrapper.cs:89 | EnsureSuccessStatusCode's message: the fixed sentence, the numeric status and the reason phrase in parentheses |
| CloudflareWrapper.SendPromptAsync | src/util/CloudflareWrapper.cs:69-99 | a malformed template fails with the bare FormatException message Format gives, invalid format or index out of range (it is formatted before the `try`); otherwise succeeds exactly when the POST returned a 2xx status and the conversion succeeded, with the converted wrapper, and transport, status (with its reason phrase) and conversion failures are all rethrown with the "Failed to send prompt to Cloudflare API: " prefix |
| JsonUtil.EscapeJsonString | src/util/JsonUtil.cs:5-14 | as written: null and "" are returned as they are, otherwise the five Replace calls in source order; its meaning is stated by EscapeIsPerCharacter, EscapedLength and EscapedCharReadsBack |
| JsonUtil.ChainAppend | src/util/JsonUtil.cs:9-13 | the five replacements, applied to a concatenation, act on each part separately |
| JsonUtil.ChainOne | src/util/JsonUtil.cs:9-13 | on one character the chain gives that character's escape, including the doubling of the backslash the earlier replacements introduced |
| JsonUtil.ChainIsEscapeEach | src/util/JsonUtil.cs:9-13 | the chain of single-character substitutions escapes character by character |
| JsonUtil.EscapeIsPerCharacter | src/util/JsonUtil.cs:5-14 | EscapeJsonString (null and "" returned as is) is the per-character escape |
| JsonUtil.EscapedLength | src/util/JsonUtil.cs:9-13 | the output is longer by two for each quote, newline, carriage return and tab, and by one for each backslash |
| JsonUtil.EscapeEachLength | src/util/JsonUtil.cs:9-13 | the same count for the per-character escape |
| JsonUtil.EscapedHasNoRawControl | src/util/JsonUtil.cs:10-12 | the output holds no raw newline, carriage return or tab |
| JsonUtil.EscapeEachNoRawControl | src/util/JsonUtil.cs:10-12 | the same for the per-character escape |
| JsonUtil.QuoteEscape | src/util/JsonUtil.cs:9-13 | a quote comes out as backslash, backslash, quote |
| JsonUtil.ReadJsonString | src/util/JsonUtil.cs:5-14 | a JSON string body read up to its closing quote (the reader the escaped text is meant for); what is left after the quote is shorter than the input |
| JsonUtil.ReadClose | src/util/JsonUtil.cs:5-14 | a closing quote ends the value |
| JsonUtil.ReadPlain | src/util/JsonUtil.cs:5-14 | a character other than quote or backslash reads back as itself |
| JsonUtil.ReadEscape | src/util/JsonUtil.cs:5-14 | a known escape reads back as the character it stands for |
| JsonUtil.ReadDoubled | src/util/JsonUtil.cs:13 | a doubled backslash followed by a letter reads back as a backslash and that letter |
| JsonUtil.EscapedCharDoesNotReadBack | src/util/JsonUtil.cs:9-13 | as written, a quote, newline, carriage return or tab, once escaped, does not read back as itself |
| JsonUtil.EscapedCharReadsBack | src/util/JsonUtil.cs:9-13 | as written, an escaped quote reads back as one backslash and ends the string with the quote left over; an escaped newline, carriage return or tab reads back as a backslash and its letter |
| JsonUtil.EscapeJsonStringFixed | src/util/JsonUtil.cs:5-14 | as intended: the backslash replaced first; its meaning is stated by FixedIsPerCharacter and FixedRoundTrip |
| JsonUtil.ChainFixedAppend | src/util/JsonUtil.cs:9-13 | with the backslash replaced first, the chain still acts on each part of a concatenation separately |
| JsonUtil.ChainFixedOne | src/util/JsonUtil.cs:9-13 | with the backslash replaced first, each character is escaped exactly once |
| JsonUtil.ChainFixedIsEach | src/util/JsonUtil.cs:9-13 | the reordered chain escapes character by character |
| JsonUtil.FixedIsPerCharacter | src/util/JsonUtil.cs:5-14 | the reordered Replace chain is the once-per-character escape |
| JsonUtil.FixedRoundTrip | src/util/JsonUtil.cs:5-14 | with the backslash replaced first, every text escaped and closed with a quote reads back as exactly itself, and reading stops at that quote |
| JsonUtil.ReadEscapedFixed | src/util/JsonUtil.cs:9-13 | the once-per-character escape of any text reads back as that text, followed by whatever the rest reads as |
| JsonUtil.ReadEscapedFixedStep | src/util/JsonUtil.cs:9-13 | one more character keeps the read-back exact |
| JsonUtil.ReadCharFixed | src/util/JsonUtil.cs:9-13 | one character escaped once reads back as itself |
| ChatApiUtil.SkipSpaces | src/util/CloudflareUtil.cs:99 | the greedy `\s*`: every skipped character is white space and the one it stops at is not |
| ChatApiUtil.NextQuote | src/util/OpenAIUtil.cs:87 | the lazy `(.*?)"` stops at the first quote at or after the position; no quote means no match |
| ChatApiUtil.OpenAt | src/util/OpenAIUtil.cs:87 | where the pattern's prefix `"key"\s*:\s*"` matches, the text there starts with the quoted key and the value begins just past a quote |
| ChatApiUtil.MatchAt | src/util/OpenAIUtil.cs:85-98 | a capture anchored at a position never holds a quote |
| ChatApiUtil.FirstMatchAt | src/util/OpenAIUtil.cs:85-91 | Regex.Match finds the leftmost start position where the pattern matches, and none before it |
| ChatApiUtil.Capture | src/util/OpenAIUtil.cs:85-98 | `Groups[1].Value` holds no quote; there is no match exactly when no position matches |
| ChatApiUtil.FirstMatchIsLeftmost | src/util/OpenAIUtil.cs:85-91 | a match at i with none before it is the one Regex.Match reports |
| ChatApiUtil.NoMatchOffQuote | src/util/OpenAIUtil.cs:87 | no match starts at a character other than a quote |
| ChatApiUtil.OpenAtField | src/util/OpenAIUtil.cs:87 | the pattern's prefix matches where `"key":"` is written, with or without the `\s*` parts |
| ChatApiUtil.MatchAtField | src/util/OpenAIUtil.cs:87 | a field written `"key":"value"` with a quote-free value matches there and captures the whole value |
| ChatApiUtil.CaptureField | src/util/OpenAIUtil.cs:85-98 | a field preceded by quote-free text is the one captured, value whole (see also src/util/CloudflareUtil.cs:98-108) |
| ChatApiUtil.NextQuoteAt | src/util/OpenAIUtil.cs:87 | the first quote after a quote-free stretch is the one the lazy group stops at |
| ChatApiUtil.EscapeOrEmpty | src/util/OpenAIUtil.cs:73-76 | an interpolated `JsonUtil.EscapeJsonString(x)`: "" for null, else the as-written escape of x (see also src/util/CloudflareUtil.cs:87-91) |
| ChatApiUtil.EscapeKeepsQuoteFree | src/util/JsonUtil.cs:5-14 | escaping a null or quote-free text with the escape as written gives a quote-free text |
| ChatApiUtil.EscapeEachQuoteFree | src/util/JsonUtil.cs:9-13 | the as-written per-character escape of a quote-free text holds no quote either |
| ChatApiUtil.Verdict | src/util/CloudflareUtil.cs:71-84 | the test reports true exactly when the response string is neither null nor empty, with no error; otherwise false and the error passed on (see also src/util/OpenAIUtil.cs:55-67) |
| ChatApiUtil.CloudflareRequestJson | src/util/CloudflareUtil.cs:87-91 | the body starts `{"prompt":"` |
| ChatApiUtil.CloudflareRequestCarriesPrompt | src/util/CloudflareUtil.cs:87-91 | reading the body back with the "prompt" pattern gives both texts, escaped as written, joined by backslash-n, when neither holds a quote |
| ChatApiUtil.ParseCloudflareResponse | src/util/CloudflareUtil.cs:93-117 | a null text is the parse error; no `"response"` field is "Error: Unable to find 'response' in the Cloudflare response."; otherwise the captured value passed through UnescapeJsonString |
| ChatApiUtil.CloudflareErrorMessage | src/util/CloudflareUtil.cs:42-54 | 401 and 403 give the API-key message, 404 the URL message, any other status the transport error unchanged |
| ChatApiUtil.CloudflareSendRequest | src/util/CloudflareUtil.cs:10-58 | a failed config check gives (null, "Config validation failed.") and sends nothing; otherwise the body uses the given or configured system prompt, success gives the parsed response and failure the mapped error |
| ChatApiUtil.CloudflareTestEngine | src/util/CloudflareUtil.cs:60-85 | a failed config check fails the test; otherwise the verdict on SendRequest("Test", "test") |
| ChatApiUtil.CloudflareTestPassesWithoutAnswer | src/util/CloudflareUtil.cs:71-84 | a successful transfer without a `"response"` field still passes the test, because the not-found message is a non-empty response (see also src/util/CloudflareUtil.cs:102-105) |
| ChatApiUtil.CloudflareTestReportsAuthFailure | src/util/CloudflareUtil.cs:44-49 | a 401 or 403 fails the test with the API-key message whatever the transport error says (see also src/util/CloudflareUtil.cs:71-84) |
| ChatApiUtil.ChatRequestJson | src/util/OpenAIUtil.cs:70-79 | the body `{"model":…,"messages":[system, user]}` with every value escaped as written; what it carries is stated by ChatRequestFields, LayoutModelField and LayoutContentField (see also src/util/OpenRouterEngine.cs:75-83) |
| ChatApiUtil.ChatRequestFields | src/util/OpenAIUtil.cs:70-79 | with quote-free values, the body's "model" reads back as the model and its first "content" as the system prompt, each escaped as written, with either extractor pattern (see also src/util/OpenRouterEngine.cs:75-83) |
| ChatApiUtil.LayoutModelField | src/util/OpenAIUtil.cs:72-73 | the "model" field of the body captures the model value |
| ChatApiUtil.LayoutContentField | src/util/OpenAIUtil.cs:72-76 | the first "content" field of the body captures the system prompt |
| ChatApiUtil.NoContentInPrefix | src/util/OpenAIUtil.cs:72-75 | no "content" match starts inside the model and role prefix of the body |
| ChatApiUtil.ContentAfterModelKey | src/util/OpenAIUtil.cs:73 | the quote opening the model's value starts no "content" match, even for a model named "content" |
| ChatApiUtil.Mismatch | src/util/OpenAIUtil.cs:87 | the pattern fails where text and pattern differ |
| ChatApiUtil.ParseOpenAIResponse | src/util/OpenAIUtil.cs:80-107 | a null text is the parse error; no `"content"` field is "Error: Unable to find 'content' in the response." |
| ChatApiUtil.OpenAIQuoteReplaceIsNoOp | src/util/OpenAIUtil.cs:98-100 | the `\"` replacement never applies, since the capture holds no quote; only `\n` escapes are translated |
| ChatApiUtil.OpenAIReadsField | src/util/OpenAIUtil.cs:85-100 | a `"content":"value"` field after quote-free text is read with its `\n` escapes decoded |
| ChatApiUtil.OpenAIEscapedQuoteTruncates | src/util/OpenAIUtil.cs:85-100 | an escaped quote inside the content ends the capture: what follows is lost and a lone backslash is left at the end |
| ChatApiUtil.EscapedQuoteExample | src/util/OpenAIUtil.cs:85-100 | the reply `{"content":"say \"hi\""}` is read as `say \` |
| ChatApiUtil.FirstOpen | src/util/OpenAIUtil.cs:85-91 | the leftmost position where the pattern's prefix matches lies within the text |
| ChatApiUtil.ParseOpenAIResponseFixed | src/util/OpenAIUtil.cs:80-107 | as intended: a null text is the parse error and a text with no opening `"content"` prefix is the not-found message |
| ChatApiUtil.FirstOpenIsLeftmost | src/util/OpenAIUtil.cs:85-91 | an opening at i with none before it is the one found |
| ChatApiUtil.ScanString | src/util/OpenAIUtil.cs:85-100 | the intended reading of a JSON string value: up to the first unescaped quote, with `\n`, `\"` and `\\` decoded; specified by ScanEncoded |
| ChatApiUtil.EncodeContent | src/util/OpenAIUtil.cs:98-100 | how a reply writes a text, backslashes, quotes and newlines escaped; ScanEncoded states that ScanString inverts it |
| ChatApiUtil.ScanEncoded | src/util/OpenAIUtil.cs:98-100 | decoding a value up to its unescaped closing quote gives back exactly the text whose backslashes, quotes and newlines were escaped, whatever follows the quote |
| ChatApiUtil.ScanStep | src/util/OpenAIUtil.cs:98-100 | one encoded character followed by an encoded text decodes to that character followed by the text |
| ChatApiUtil.NoOpenInQuoteFree | src/util/OpenAIUtil.cs:87 | no opening of a match starts inside quote-free text |
| ChatApiUtil.FixedParseRoundTrip | src/util/OpenAIUtil.cs:80-107 | the corrected parser returns any content intact, escaped quotes and backslashes included |
| ChatApiUtil.FixedParseAt | src/util/OpenAIUtil.cs:85-91 | after quote-free text, the first opening is that of the written "content" field |
| ChatApiUtil.ParseOpenRouterResponse | src/util/OpenRouterEngine.cs:85-112 | a null text is the parse error; no compact `"content":"` is "Error: Unable to find content in the response."; otherwise the captured value passed through UnescapeJsonString |
| ChatApiUtil.OpenRouterReadsField | src/util/OpenRouterEngine.cs:90-102 | a compact `"content":"value"` after quote-free text is read and unescaped |
| ChatApiUtil.OpenRouterMissesSpacedKey | src/util/OpenRouterEngine.cs:90-105 | a space before the colon hides the field from the compact pattern, giving the not-found message |
| ChatApiUtil.SpacedKeyNoMatch | src/util/OpenRouterEngine.cs:92 | no position of such a text matches the compact pattern |
| ChatApiUtil.HandleError | src/util/OpenAIUtil.cs:110-118 | only the transport error is returned, whatever the status (see also src/util/OpenRouterEngine.cs:115-124) |
| ChatApiUtil.ChatSendRequest | src/util/OpenAIUtil.cs:11-43 | a failed config check gives (null, "Config validation failed.") and sends nothing; otherwise the body is CreateRequestJson with the system prompt as given, success gives the response read by the as-written ParseResponse (OpenRouter's parser for OpenRouter) and failure the transport error (see also src/util/OpenRouterEngine.cs:10-44) |
| ChatApiUtil.ChatTestEngine | src/util/OpenAIUtil.cs:45-68 | a failed config check fails the test; otherwise the verdict on SendRequest with the fixed test message and system prompt (see also src/util/OpenRouterEngine.cs:46-73) |
| ChatApiUtil.ChatTestFailsOnTransportError | src/util/OpenAIUtil.cs:38-42 | a failed transfer fails the test with the transport error, whatever the status (see also src/util/OpenAIUtil.cs:55-67) |
| ChatApiUtil.OpenAITestPassesWithoutContent | src/util/OpenAIUtil.cs:55-67 | a reply in which the `"content"` pattern matches nowhere passes the test, because the not-found message is non-empty (see also src/util/OpenAIUtil.cs:91-95) |
| TtsRequest.Names | src/util/audio/TTSRequestBuilder.cs:20-31 | the names of a payload, one per field and in field order |
| TtsRequest.Get | src/util/audio/TTSRequestBuilder.cs:20-31 | a name is found exactly when some field carries it, and the value found is that of such a field |
| TtsRequest.GetValueOrDefault | src/util/audio/TTSRequestBuilder.cs:23 | the supplied value when the key is present, the default otherwise |
| TtsRequest.BuildGptSovitsRequest | src/util/audio/TTSRequestBuilder.cs:18-33 | succeeds exactly when "text" and "ref_audio_path" are both supplied; a missing "text" is reported first, then a missing "ref_audio_path" |
| TtsRequest.GptSovitsPayload | src/util/audio/TTSRequestBuilder.cs:20-31 | the payload has the nine keys in order, each holding the supplied value or else its default ("zh", "", "zh", "cut5", 1, "wav", false) |
| TtsRequest.GptSovitsNamesDistinct | src/util/audio/TTSRequestBuilder.cs:20-31 | the nine keys are pairwise different, so no key shadows another |
| TtsRequest.GetAt | src/util/audio/TTSRequestBuilder.cs:20-31 | in a nine-key payload, looking a key up finds the field at that key's position |
| TtsRequest.GetFirst | src/util/audio/TTSRequestBuilder.cs:20-31 | the lookup finds the first field with the name |
| TtsRequest.BuildRequest | src/util/audio/TTSRequestBuilder.cs:8-16 | an engine name whose lower case is not "gpt-sovits" fails with "Unsupported engine: " and the name as given; otherwise the GPT-SoVITS payload |
| TtsRequest.BuildRequestMixedCase | src/util/audio/TTSRequestBuilder.cs:10-12 | the configured spelling "GPT-SoVITS" selects the GPT-SoVITS payload |
| TtsRequest.LowerEngineName | src/util/audio/TTSRequestBuilder.cs:10 | the configured spelling "GPT-SoVITS" lowers to "gpt-sovits" |
| TtsRequest.SettingsFields | src/util/JsonRequestBuilder.cs:13-24 | the payload written from the settings has the nine keys in order, with the text under "text" |
| TtsRequest.SettingsParameters | src/util/audio/TTSRequestBuilder.cs:8 | the parameter dictionary built from the settings holds exactly the nine keys |
| TtsRequest.BuilderAgreesWithSettings | src/util/audio/TTSRequestBuilder.cs:18-33 | with every key supplied, the builder writes the same payload as the direct construction: no default is used (see also src/util/JsonRequestBuilder.cs:13-24) |
| JsonRequestBuilder.CreateTtsRequest | src/util/JsonRequestBuilder.cs:8-37 | succeeds exactly for "GPT-SoVITS" (the nine configured fields) and "OpenAI" (model "tts-1", the text as input, voice "alloy"); anything else fails with "[TTS] Unsupported TTS engine: " and the name |
| JsonRequestBuilder.CreateAudioModelRequest | src/util/JsonRequestBuilder.cs:39-60 | succeeds exactly for "Omni" (text, format "wav") and "Bark" (the text as prompt, voice "neutral"); anything else fails with "[AudioModel] Unsupported Audio Model engine: " and the name |
| JsonRequestBuilder.GptSovitsMatchesBuilder | src/util/JsonRequestBuilder.cs:12-24 | the GPT-SoVITS payload equals the one TTSRequestBuilder makes from the same settings (see also src/util/audio/TTSRequestBuilder.cs:8-33) |
| JsonRequestBuilder.TtsEngineNameIsCaseSensitive | src/util/JsonRequestBuilder.cs:10-12 | "gpt-sovits" is refused here but accepted by TTSRequestBuilder, which lowers the name first (see also src/util/audio/TTSRequestBuilder.cs:10-12) |
| TtsEngine.CreateTtsRequest | src/util/audio/TTSEngine.cs:110-131 | succeeds exactly when the lower-cased engine name is "gpt-sovits", with the nine configured fields and the text under "text"; otherwise "<name> is not supported." |
| TtsEngine.OutputDirectory | src/util/audio/TTSEngine.cs:100 | the directory is `UserData/TTS_` followed by the AI name, which can be read back after the prefix (see also src/util/audio/StreamingTTSEngine.cs:293) |
| TtsEngine.OutputPath | src/util/audio/TTSEngine.cs:98-108 | the file is `UserData/TTS_<AI name>/<timestamp>.wav` |
| TtsEngine.ProcessAudioCoroutine | src/util/audio/TTSEngine.cs:63-93 | an unsupported name sends nothing and leaves the returned Task pending; otherwise the payload is sent, a success saves the bytes and completes with the path, an error faults the returned Task with the error and saves nothing |
| TtsEngine.AggregateMessage | src/util/audio/TTSEngine.cs:43 | Task.Exception.Message: the AggregateException sentence wrapping the inner message; Callback states where it is passed |
| TtsEngine.Callback | src/util/audio/TTSEngine.cs:36-48 | no callback while the returned Task is pending; a completed task passes (path, null) and a faulted one (null, the wrapped message) |
| TtsEngine.CallbackOneOf | src/util/audio/TTSEngine.cs:29-93 | for a supported engine exactly one callback argument is set, and the path is set exactly when the file was saved, naming that file |
| Bytes.Wrap16 | src/util/audio/WAV.cs:73 | the `(short)` cast: the result is a 16-bit value congruent to the input modulo 2^16, and a 16-bit input is unchanged |
| Bytes.Wrap32 | src/util/audio/WAV.cs:22 | unchecked `int` arithmetic: the result is a 32-bit value congruent to the input modulo 2^32, and a 32-bit input is unchanged |
| Bytes.LE16 | src/util/audio/WAV.cs:59-64 | BinaryWriter.Write(short) writes two bytes |
| Bytes.LE32 | src/util/audio/WAV.cs:53-62 | BinaryWriter.Write(int) writes four bytes |
| Bytes.ReadU16 | src/util/audio/WAV.cs:30 | a little-endian unsigned 16-bit read lies in [0, 2^16) |
| Bytes.ReadI16 | src/util/audio/WAV.cs:30 | BitConverter.ToInt16 gives a 16-bit signed value |
| Bytes.ReadU32 | src/util/audio/WAV.cs:12 | BitConverter.ToUInt32 gives a value in [0, 2^32) |
| Bytes.ReadI32 | src/util/audio/WAV.cs:15 | BitConverter.ToInt32 gives a 32-bit signed value |
| Bytes.ReadU16OfLE16 | src/util/audio/WAV.cs:59-64 | two written bytes read back as the value modulo 2^16 |
| Bytes.ReadI16OfLE16 | src/util/audio/WAV.cs:30 | a written short reads back as the `(short)` cast of the value (see also src/util/audio/WAV.cs:74) |
| Bytes.ReadU32OfLE32 | src/util/audio/WAV.cs:12 | four written bytes read back unsigned as the value modulo 2^32 (see also src/util/audio/WAV.cs:53) |
| Bytes.ReadI32OfLE32 | src/util/audio/WAV.cs:15 | a written int reads back as the value wrapped to 32 bits (see also src/util/audio/WAV.cs:61) |
| Bytes.Samples16 | src/util/audio/WAV.cs:26-30 | half as many samples as bytes, sample i being the short at byte 2i |
| Bytes.Pcm16 | src/util/audio/WAV.cs:71-75 | a run of shorts takes two bytes each |
| Bytes.Pcm16Split | src/util/audio/WAV.cs:71-75 | the bytes for a run of shorts are those before sample i, then sample i, then those after |
| Bytes.Samples16OfPcm16 | src/util/audio/WAV.cs:26-30 | 16-bit samples written as shorts are read back unchanged (see also src/util/audio/WAV.cs:71-75) |
| Bytes.ReadI32At | src/util/audio/WAV.cs:15 | an int read where an int was written gives the wrapped value |
| Bytes.ReadI16At | src/util/audio/WAV.cs:30 | a short read where a short was written gives the wrapped value |
| Bytes.ReadU32At | src/util/audio/WAV.cs:12 | an unsigned read depends only on the four bytes read (see also src/util/audio/WAV.cs:18) |
| Wav.Half | src/util/audio/WAV.cs:26 | C# division by two, truncating toward zero for negative lengths |
| Wav.WalkStep | src/util/audio/WAV.cs:20-22 | one turn of the `while` body: the next offset, in 32-bit signed arithmetic |
| Wav.WalkFrom | src/util/audio/WAV.cs:17-23 | the walk as written, signed sizes included: a found offset lies within the buffer and holds the "data" tag; it fails only by reading out of range or by coming back to an offset it left, where the loop never ends |
| Wav.OffsetsBound | src/util/audio/WAV.cs:17-23 | the offsets a walk can leave are at most the buffer's length, which bounds the walk |
| Wav.FindData | src/util/audio/WAV.cs:17-23 | as intended: the walk reads each size as RIFF's unsigned field, so a size the source reads as negative stops it; a found offset is at or after the start, within the buffer, and holds the "data" tag; failure is out of range or that size |
| Wav.FindDataStep | src/util/audio/WAV.cs:18-23 | while the tag is not "data" and the size is non-negative, one step moves strictly forward and the search continues from there |
| Wav.NegativeSizeIsPastEnd | src/util/audio/WAV.cs:21 | a size the source reads as negative, read as RIFF's unsigned field, ends the chunk past the end of the buffer |
| Wav.WalkAgrees | src/util/audio/WAV.cs:17-23 | wherever the intended walk finds "data", the walk as written finds the same offset |
| Wav.Wrap32NonNegative | src/util/audio/WAV.cs:22 | a non-negative wrapped offset below 2^32 is the offset itself |
| Wav.WalkChunks | src/util/audio/WAV.cs:17-23 | the `while` loop, as written, ends as WalkFrom from offset 12 does: with the data offset, out of range, or at an offset already left (the loop would never return) |
| Wav.SamplesFrom | src/util/audio/WAV.cs:26-30 | the samples after the data header are the shorts of the rest of the buffer; none when the header is past the end |
| Wav.SamplesFromAt | src/util/audio/WAV.cs:26-30 | there are SampleCount samples and sample k is the short at start + 2k |
| Wav.ReadSamples | src/util/audio/WAV.cs:28-30 | the `for` loop reads exactly the samples SamplesFrom describes |
| Wav.Parse | src/util/audio/WAV.cs:10-36 | as written: a file not starting with "RIFF" is refused; a parse that succeeds has the frequency at offset 24 and the samples after the "data" header the walk as written found; it is an endless loop exactly when that walk is |
| Wav.ReadData | src/util/audio/WAV.cs:24-30 | after the "data" tag at d: a negative SampleCount fails, otherwise the samples from d + 8 and the frequency at offset 24 |
| Wav.ParseFixed | src/util/audio/WAV.cs:10-36 | the constructor with the intended walk: the same magic check, frequency and samples, and never an endless loop |
| Wav.ParseAgrees | src/util/audio/WAV.cs:10-36 | every file the intended constructor reads is read the same way by the constructor as written |
| Wav.ParseWav | src/util/audio/WAV.cs:10-36 | the constructor, as written, computes Parse |
| Wav.WalkAsWrittenRepeats | src/util/audio/WAV.cs:18-23 | a chunk declaring size -8 sends the walk as written back to the same offset, so the constructor never returns, while the intended walk stops at the size |
| Wav.SmallNegativeSizeWalksOn | src/util/audio/WAV.cs:18-23 | a chunk declaring size -4 makes the walk as written step into its own size field and go on to read a "data" chunk there, while the intended walk stops at the size |
| Wav.SaveWavBytes | src/util/audio/WAV.cs:37-76 | a 44-byte header followed by two bytes per sample |
| Wav.CanonicalHeaderParses | src/util/audio/WAV.cs:10-36 | a canonical 44-byte header with any PCM after it parses to the frequency at offset 24 and every sample of the PCM |
| Wav.SaveWavRoundTrip | src/util/audio/WAV.cs:10-36 | a saved file parses back to the written samples at the frequency wrapped to 32 bits (see also src/util/audio/WAV.cs:37-76) |
| Wav.SaveWavHeaderFields | src/util/audio/WAV.cs:51-68 | the header is mono 16-bit PCM: RIFF size 36 + 2n, one channel, byte rate twice the frequency, block align 2, 16 bits, data size 2n |
| AudioStreamPlayer.Trimmed | src/util/audio/AudioStreamPlayer.cs:80-83 | dropping from the front until at most MAX_BUFFER_SAMPLES remain keeps the newest samples, as many as fit |
| AudioStreamPlayer.AudioStreamPlayer.constructor | src/util/audio/AudioStreamPlayer.cs:17-23 | an empty queue, 48000 Hz, one channel, not playing, no AudioSource yet |
| AudioStreamPlayer.AudioStreamPlayer.Initialize | src/util/audio/AudioStreamPlayer.cs:42-56 | records rate and channels, creates a stopped source and clears the playing flag; queued samples stay |
| AudioStreamPlayer.AudioStreamPlayer.EnqueueChunk | src/util/audio/AudioStreamPlayer.cs:62-91 | a null or empty chunk changes nothing; otherwise the chunk's 16-bit samples are queued, the oldest beyond the bound dropped, and playback started (failing only when there is no source) |
| AudioStreamPlayer.AudioStreamPlayer.Stop | src/util/audio/AudioStreamPlayer.cs:96-104 | the source is stopped, the flag cleared and the queue emptied; rate, channels and source stay |
| AudioStreamPlayer.AudioStreamPlayer.OnAudioFilterRead | src/util/audio/AudioStreamPlayer.cs:111-137 | silence and an unchanged queue when stopped or starved; otherwise the oldest samples in order, then silence, and exactly those samples leave the queue |
| AudioStreamPlayer.EnqueueKeepsNewest | src/util/audio/AudioStreamPlayer.cs:70-83 | the queue never exceeds the bound; below it nothing is dropped; a chunk at least as long as the bound leaves only its own newest samples |
| DownloadHandler.StreamingDownloadHandler.constructor | src/util/audio/StreamingDownloadHandler.cs:14-17 | the callback is stored and nothing has been delivered |
| DownloadHandler.StreamingDownloadHandler.ReceiveData | src/util/audio/StreamingDownloadHandler.cs:19-29 | null data or a zero length returns false and delivers nothing; a negative length or one beyond the data throws; otherwise a fresh copy of the first dataLength bytes goes to the callback, if there is one, and true is returned |
| DownloadHandler.StreamingDownloadHandler.GetProgress | src/util/audio/StreamingDownloadHandler.cs:31-35 | progress is always zero while streaming |
| DownloadHandler.StreamingDownloadHandler.GetText | src/util/audio/StreamingDownloadHandler.cs:43-47 | there is never a text for the binary stream |
| StreamingTts.ParseWavHeader | src/util/audio/StreamingTTSEngine.cs:219-226 | succeeds exactly on buffers of at least 44 bytes, giving a 32-bit rate and a 16-bit channel count; shorter ones fail with "Invalid WAV header. Must be at least 44 bytes." |
| StreamingTts.WaveBytes | src/util/audio/StreamingTTSEngine.cs:255-285 | a 44-byte header followed by the PCM bytes unchanged |
| StreamingTts.WaveHeader | src/util/audio/StreamingTTSEngine.cs:260-280 | the header is 44 bytes long |
| StreamingTts.WaveHeaderFields | src/util/audio/StreamingTTSEngine.cs:260-280 | every header field reads back as written: tags, RIFF size 36 + n, PCM format, channels, rate, byte rate rate·channels·2, block align channels·2, 16 bits, data size n |
| StreamingTts.WaveBytesParseHeader | src/util/audio/StreamingTTSEngine.cs:219-226 | ParseWavHeader recovers the rate and channel count a saved file was built with (see also src/util/audio/StreamingTTSEngine.cs:255-285) |
| StreamingTts.WaveBytesIsWav | src/util/audio/StreamingTTSEngine.cs:255-285 | the saved file is read by the WAV reader as the PCM's samples at the same rate (see also src/util/audio/WAV.cs:10-36) |
| StreamingTts.Cleared | src/util/audio/StreamingTTSEngine.cs:306-316 | cleanup empties both buffers and clears the initialised flag, keeping the format fields and the player's source |
| StreamingTts.Receive | src/util/audio/StreamingTTSEngine.cs:152-204 | an empty chunk changes nothing; a chunk that throws leaves the cleaned-up state; otherwise the full buffer grows by exactly the bytes pushed, and the player is initialised once the header is complete with PCM after it |
| StreamingTts.ReadsInPrefix | src/util/audio/StreamingTTSEngine.cs:171 | the format read from a buffer of 44 or more bytes depends only on its first 44 (see also src/util/audio/StreamingTTSEngine.cs:224-225) |
| StreamingTts.ReceiveKeepsInv | src/util/audio/StreamingTTSEngine.cs:152-204 | a chunk that does not cancel keeps the header/full-buffer invariant for everything received so far |
| StreamingTts.ReceiveKeepsInvIfNoCancel | src/util/audio/StreamingTTSEngine.cs:152-204 | the same, stated for any chunk under the no-cancel condition |
| StreamingTts.Fresh | src/util/audio/StreamingTTSEngine.cs:25-30 | a stream that has received nothing satisfies the invariant |
| StreamingTts.StreamReassembles | src/util/audio/StreamingTTSEngine.cs:152-204 | without a cancel, under 44 bytes everything sits in the header buffer; from 44 on the format comes from the first 44 bytes and the full buffer holds every byte after them, however the bytes were split into chunks |
| StreamingTts.StreamInv | src/util/audio/StreamingTTSEngine.cs:152-204 | the invariant holds after any run of chunks without a cancel |
| StreamingTts.ReadyPlayerNeverCancels | src/util/audio/StreamingTTSEngine.cs:185-196 | once the player has a source no chunk cancels the stream (see also src/util/audio/AudioStreamPlayer.cs:86-90) |
| StreamingTts.HeaderAloneCancels | src/util/audio/StreamingTTSEngine.cs:168-196 | a header arriving alone marks the stream initialised without initialising the player, so the first PCM chunk throws and cleans the stream up (see also src/util/audio/AudioStreamPlayer.cs:86-90) |
| StreamingTts.TwoChunkStream | src/util/audio/StreamingTTSEngine.cs:165-190 | a 20-byte chunk then 124 bytes: the second completes the header, initialises the player and leaves its last 100 bytes as PCM |
| StreamingTts.StreamingParameters | src/util/audio/StreamingTTSEngine.cs:106-116 | the nine-key parameter dictionary: exactly the GPT-SoVITS keys, the text under "text" and "streaming_mode" always true |
| StreamingTts.StreamingRequestStreams | src/util/audio/StreamingTTSEngine.cs:103-120 | for GPT-SoVITS the request carries the configured settings with "streaming_mode" true and the text under "text" |
| StreamingTts.Combine | src/util/audio/StreamingTTSEngine.cs:296 | Path.Combine adds a separator only when the directory does not already end in one |
| StreamingTts.StreamingTtsEngine.constructor | src/util/audio/StreamingTTSEngine.cs:34-41 | a fresh player, empty buffers, no request, not initialised |
| StreamingTts.StreamingTtsEngine.CleanupResources | src/util/audio/StreamingTTSEngine.cs:306-316 | the request is dropped, both buffers emptied, the player stopped and emptied, the flag cleared |
| StreamingTts.StreamingTtsEngine.Cancel | src/util/audio/StreamingTTSEngine.cs:94-99 | aborting leaves the same state as cleanup |
| StreamingTts.StreamingTtsEngine.OnDataReceived | src/util/audio/StreamingTTSEngine.cs:152-204 | the new state is Receive of the old; a cancel also stops and empties the player; otherwise every pushed byte is queued on the player |
| StreamingTts.StreamingTtsEngine.ReceiveHeaderBytes | src/util/audio/StreamingTTSEngine.cs:165-191 | the header branch follows Receive; the player is initialised with the parsed format and given the leftover PCM when there is some |
| StreamingTts.StreamingTtsEngine.CompleteHeader | src/util/audio/StreamingTTSEngine.cs:168-189 | once 44 bytes are in: sample rate and channels come from bytes 24..28 and 22..24, the full buffer gains exactly the bytes after the header, the player gets a source and the leftover PCM only when there is some, and the header buffer is emptied |
| StreamingTts.StreamingTtsEngine.ReceivePcm | src/util/audio/StreamingTTSEngine.cs:192-203 | the PCM branch follows Receive: the chunk is appended and queued, or the stream cancelled when the player has no source |
| StreamingTts.StreamingTtsEngine.SaveFullWavFile | src/util/audio/StreamingTTSEngine.cs:236-249 | no PCM or a non-positive rate or channel count gives "[No Audio Data / Streaming Failed]" and saves nothing; otherwise the header plus PCM is saved under UserData/TTS_<AI name> and its path returned (see also src/util/audio/StreamingTTSEngine.cs:291-301) |
| StreamingTts.StreamingTtsEngine.StartRequest | src/util/audio/StreamingTTSEngine.cs:103-130 | the payload is TTSRequestBuilder's with streaming on; a request exists afterwards exactly when the name was accepted (or one already existed); the buffers are untouched |
| StreamingTts.StreamingTtsEngine.FinishProcessAudio | src/util/audio/StreamingTTSEngine.cs:46-61 | a failed request reports (null, error) and cleans nothing up; a finished one reports the saved path or the no-audio message and cleans up |
| StreamingTts.StreamingTtsEngine.FinishProcessAudioAsync | src/util/audio/StreamingTTSEngine.cs:73-89 | a failed request faults the returned Task and cleans up; a finished one completes it with the saved path or the no-audio message and cleans up |
| Config.RangeErrors | src/Config.cs:104-108 | no message exactly when min <= value <= max, bounds included |
| Config.ConfigErrors | src/Config.cs:49-102 | every message TestConfig logs, in the order its checks run; specified by NoErrorsIffOk, ErrorCount and TestConfig |
| Config.NoErrorsIffOk | src/Config.cs:49-102 | TestConfig logs nothing exactly when every condition holds: key set and at least 32 UTF-16 code units, URL non-empty without "XXX" and HTTP(S), a Cloudflare URL with both "/ai/run/" and "/accounts/", prompt non-empty and at most 4096 UTF-16 code units, window size, font size, name and position in range |
| Config.LimitsCountCodeUnits | src/Config.cs:62 | the length limits count UTF-16 code units: sixteen characters outside the Basic Multilingual Plane make a long-enough key, seventeen a too-long name (see also src/Config.cs:95) |
| Config.CloudflareUrlChecksAreIndependent | src/Config.cs:73-79 | a Cloudflare URL missing both path parts logs both messages, in order |
| Config.ErrorCount | src/Config.cs:49-102 | one message per failed check, every group of checks contributing its own |
| Config.DefaultKeyFails | src/Config.cs:33 | with the default key "xxx" the first message is "API Key is not configured!" and the configuration is invalid (see also src/Config.cs:59-61) |
| Config.TestConfig | src/Config.cs:49-102 | the log is every failed check's message in the order the checks run, and the result is true exactly when the configuration is valid |
| Config.CheckTexts | src/Config.cs:58-86 | the key, URL and prompt messages, with the flag set exactly when there are none |
| Config.CheckSize | src/Config.cs:88-90 | appends the width, height and font-size messages and clears the flag when there is one |
| Config.CheckPosition | src/Config.cs:99-100 | appends the X and Y position messages and clears the flag when there is one |
| Config.CheckKey | src/Config.cs:59-64 | an empty or "xxx" key logs the missing-key message, else a key under 32 UTF-16 code units the too-short message |
| Config.CheckUrl | src/Config.cs:66-79 | the first of empty, placeholder and non-HTTP is logged; a Cloudflare URL is then checked for each path part |
| Config.CheckPrompt | src/Config.cs:82-86 | an empty prompt or one over 4096 UTF-16 code units logs its message |
| Config.CheckName | src/Config.cs:93-97 | an empty name or one over 32 UTF-16 code units logs its message |
| Config.ValidateRange | src/Config.cs:104-108 | logs "Invalid <name>: <value>. Should be between <min> and <max>!" and clears the flag exactly when the value lies outside [min, max] |
| Config.ConfigState.constructor | src/Config.cs:27-47 | the last used system prompt is the configured one |
| Config.ConfigState.ReloadConfig | src/Config.cs:112-131 | reloads exactly when the configuration validates; a reset request ("Acknowledge the system prompt change.", new prompt) is sent exactly when it validates and the prompt changed, and the new prompt is then remembered; an invalid configuration changes nothing |
| FeatureSdk.Feature.constructor | src/sdk/Feature.cs:11-16 | the feature keeps its name and key binding and starts disabled |
| FeatureSdk.Feature.Toggle | src/sdk/Feature.cs:18-21 | the flag is flipped |
| FeatureSdk.ToggleTwice | src/sdk/Feature.cs:18-21 | two toggles give the flag back |
| Chat.IsDigit | src/feature/ChatFeature.cs:196 | the `\d` of the pattern, ASCII digits (see "## Left out"): '0' and '9' match, and a matching character is never the dot, newline or space that delimits a numbered item |
| Chat.IndentFrom | src/feature/ChatFeature.cs:194-198 | Regex.Replace of `\n(\d+\.)` by the newline, two spaces and the item, matches taken left to right; specified by IndentOnlyAddsSpaces, IndentLengthGrows and IndentChangesIffNumbered |
| Chat.DigitEnd | src/feature/ChatFeature.cs:192-197 | the greedy `\d+` stops at the end of the run of digits: everything before it is a digit and the character there is not |
| Chat.NonSpaceAppend | src/feature/ChatFeature.cs:194-198 | removing spaces distributes over concatenation |
| Chat.IndentOnlyAddsSpaces | src/feature/ChatFeature.cs:194-198 | the numbered-list replacement inserts spaces and nothing else: with spaces removed, the result is the input |
| Chat.IndentedHead | src/feature/ChatFeature.cs:196-197 | a replaced item `\n  1.` is, without spaces, the text `\n1.` it replaced |
| Chat.IndentLength | src/feature/ChatFeature.cs:194-198 | the replacement never shortens the text |
| Chat.IndentLengthGrows | src/feature/ChatFeature.cs:194-198 | a numbered line makes the text strictly longer |
| Chat.IndentNoMatch | src/feature/ChatFeature.cs:194-198 | without a match the text is copied as is |
| Chat.IndentChangesIffNumbered | src/feature/ChatFeature.cs:192-198 | the replacement changes the text exactly when Regex.IsMatch finds `\n\d+\.`, so the IsMatch guard changes nothing |
| Chat.FormatBlock | src/feature/ChatFeature.cs:182-198 | the three guarded rewrites of one block, in source order; specified by PlainBlockUnchanged and the IndentFrom lemmas |
| Chat.NonEmpty | src/feature/ChatFeature.cs:178 | RemoveEmptyEntries keeps only non-empty pieces, each one of the split's, and keeps all of them when none is empty |
| Chat.FormatAll | src/feature/ChatFeature.cs:180-200 | one formatted block per block, each formatted on its own |
| Chat.Formatted | src/feature/ChatFeature.cs:172-174 | a null or empty text formats to the empty string |
| Chat.ProcessTextFormatting | src/feature/ChatFeature.cs:172-203 | the loop over the blocks returns Formatted: escapes turned into newlines, non-empty blocks between blank lines, each with fences, bullets and numbered items rewritten, joined by blank lines |
| Chat.PlainBlockUnchanged | src/feature/ChatFeature.cs:180-200 | a block without newline or backtick is left as it is |
| Chat.PlainTextUnchanged | src/feature/ChatFeature.cs:172-203 | non-empty plain blocks joined by blank lines come back unchanged |
| Chat.Appended | src/feature/ChatFeature.cs:236-248 | the history after AppendToChatHistory; specified by AppendedExtends and AppendedPlain |
| Chat.AppendedExtends | src/feature/ChatFeature.cs:236-248 | the history stays a prefix, a blank line follows it exactly when it was non-empty, and the formatted message ends it |
| Chat.Limited | src/feature/ChatFeature.cs:285-292 | the history after LimitChatHistory; specified by LimitedLines, LimitedIsSuffix and LimitedIdempotent |
| Chat.LimitedLines | src/feature/ChatFeature.cs:285-292 | the trimmed history is exactly the last min(50, n) of its n lines |
| Chat.SplitJoinTail | src/feature/ChatFeature.cs:287-290 | joining lines without newlines and splitting again gives those lines |
| Chat.LimitedIsSuffix | src/feature/ChatFeature.cs:285-292 | the trimmed history is a suffix of the history |
| Chat.LimitedIdempotent | src/feature/ChatFeature.cs:285-292 | trimming twice trims no further |
| Chat.Unescape | src/feature/ChatFeature.cs:271-272 | `\"` replaced first, then `\\`; specified by UnescapePlain |
| Chat.UnescapePlain | src/feature/ChatFeature.cs:271-272 | a reply without backslashes is not altered by the unescaping |
| Chat.ReplaceAtEnd | src/feature/ChatFeature.cs:274-277 | replacing a pattern whose only occurrence ends the text replaces just that tail |
| Chat.PlaceholderReplaced | src/feature/ChatFeature.cs:163-166 | when the placeholder just appended is the only one, the reply takes its place at the end and the earlier history is untouched (see also src/feature/ChatFeature.cs:269-277) |
| Chat.PlaceholderIsPlain | src/feature/ChatFeature.cs:166 | the placeholder line is non-empty and holds no newline, backslash or backtick |
| Chat.AppendedPlain | src/feature/ChatFeature.cs:236-248 | a plain one-line message is appended unformatted |
| Chat.IsControl | src/feature/ChatFeature.cs:140 | char.IsControl, the Unicode Cc category: NUL, tab, newline and carriage return are control characters, printable ASCII is not, and every control character lies below U+00A0 |
| Chat.Classify | src/feature/ChatFeature.cs:129-146 | Return with input sends, Backspace with input erases, any other key (or those with no input) types the character when it is not a control character, and otherwise the event is ignored |
| Chat.Edit | src/feature/ChatFeature.cs:135-144 | Backspace drops the last character, typing appends one, anything else keeps the input; specified by TypeThenErase |
| Chat.TypeThenErase | src/feature/ChatFeature.cs:135-144 | typing a character then pressing Backspace restores the input line |
| Chat.ChatFeature.constructor | src/feature/ChatFeature.cs:14-17 | the feature is "Chat" on the configured key, disabled; input and history empty; not waiting, not focused (see also src/feature/ChatFeature.cs:31-39) |
| Chat.ChatFeature.HandleFocusEvents | src/feature/ChatFeature.cs:61-68 | a mouse press focuses the window exactly when it lands inside; nothing else changes |
| Chat.ChatFeature.AppendToChatHistory | src/feature/ChatFeature.cs:236-248 | the history becomes Appended(history, message); the rest is unchanged |
| Chat.ChatFeature.SendMessage | src/feature/ChatFeature.cs:159-170 | an empty input or a pending reply changes nothing; otherwise the input is sent, cleared, the pending flag set, and "You: <input>" then "<AI name>: typing..." appended |
| Chat.ChatFeature.HandleInputEvents | src/feature/ChatFeature.cs:125-147 | nothing happens unless focused on a key-down event; then the event is consumed exactly when it is not ignored, Send sends as SendMessage does and the other actions edit the input line |
| Chat.ChatFeature.CompleteResponse | src/feature/ChatFeature.cs:250-260 | after the request the pending flag is cleared and the history trimmed |
| Chat.ChatFeature.LimitChatHistory | src/feature/ChatFeature.cs:285-292 | the history becomes its last 50 lines when it has more |
| Chat.ChatFeature.ClearChat | src/feature/ChatFeature.cs:262-267 | history and input are emptied; the flags stay |
| Chat.ChatFeature.UpdateTypingMessage | src/feature/ChatFeature.cs:269-283 | every placeholder is replaced by "<AI name>: " and the reply with `\"` and `\\` unescaped |
| Strings.Utf16Length | src/Config.cs:62 | String.Length in UTF-16 code units: between the number of characters and twice it, equal to it when every character is in the Basic Multilingual Plane and twice it when none is |
| Strings.IndexOf | src/Config.cs:68 | ordinal search: a found position holds the pattern and none before it does; a miss means it occurs nowhere |
| Strings.IndexFrom | src/feature/ChatFeature.cs:274-277 | the same search from a given position on |
| Strings.SubstAppend | src/util/JsonUtil.cs:9-13 | replacing a single character distributes over concatenation |
| Strings.SubstNoOccurrence | src/util/JsonUtil.cs:9-13 | replacing a character the text lacks leaves it unchanged |
| Strings.ReplaceOneChar | src/util/JsonUtil.cs:9-13 | String.Replace with a one-character pattern maps each character on its own |
| Strings.NoCharBefore | src/util/JsonUtil.cs:9-13 | a one-character pattern not found before i is absent from the first i characters |
| Strings.Replace | src/util/JsonUtil.cs:9-13 | String.Replace, non-overlapping occurrences left to right; specified by ReplaceOneChar, ReplaceAbsent and ReplaceKeepsAbsent |
| Strings.ReplaceAbsent | src/feature/ChatFeature.cs:271-277 | Replace leaves a text without the pattern unchanged |
| Strings.ReplaceKeepsAbsent | src/util/JsonUtil.cs:9-13 | Replace introduces no character that neither the text nor the replacement holds |
| Strings.AbsentCharNoMatch | src/feature/ChatFeature.cs:271-272 | a pattern holding a character the text lacks does not occur in it |
| Strings.Split | src/feature/ChatFeature.cs:178 | String.Split always gives at least one piece (see also src/feature/ChatFeature.cs:287) |
| Strings.Join | src/feature/ChatFeature.cs:290 | String.Join; specified by JoinSplit, JoinSuffix, SplitJoin and JoinLacks |
| Strings.JoinSplit | src/feature/ChatFeature.cs:287-290 | joining the pieces of a split with the separator gives the text back |
| Strings.JoinSuffix | src/feature/ChatFeature.cs:290 | joining a suffix of the pieces gives a suffix of the joined text |
| Strings.SplitPiecesLackSep | src/feature/ChatFeature.cs:287 | no piece of a split on one character holds that character |
| Strings.SplitJoin | src/feature/ChatFeature.cs:178 | pieces that never hold the separator's first character come back from join-then-split (see also src/feature/ChatFeature.cs:202) |
| Strings.JoinLacks | src/feature/ChatFeature.cs:202 | a character absent from the separator and every piece is absent from the joined text |
| Strings.ToLower | src/util/audio/TTSRequestBuilder.cs:10 | same length, each character lowered on its own |
| Strings.NatToString | src/Config.cs:107 | the decimal rendering is never empty |
| Strings.IntToString | src/Config.cs:107 | the decimal rendering of an integer, sign included, is never empty |
| EngineRegistry.EqualsIgnoreCaseTransitive | src/util/AIEngineManager.cs:18 | OrdinalIgnoreCase equality is transitive, so two keys equal to the same name are equal to each other |
| EngineRegistry.Keys | src/util/AIEngineManager.cs:18 | the keys of the dictionary, one per entry in entry order |

## Left out

- The user interface: MenuManager, Pages, Components and EmbeddedAssets, the MelonMod hooks in Core.cs, Constants.cs, and ChatFeature's drawing, scrolling and CalcHeight arithmetic.
- ChatFeature.DrawGUI and DrawSendButton: the focus update and the send guard they share are modelled in HandleFocusEvents and SendMessage.
- ChatFeature.UpdateSettings and UpdateWindowRect: they copy configuration values into GUI style and rectangle objects.
- HttpClient and UnityWebRequest, coroutines and TaskCompletionSource. Each request's outcome (body, status, error) is a parameter.
- SQLite. The stores are sequences in insertion order. The source orders rows by a one-second timestamp, so it leaves same-second ties unspecified.
- Newtonsoft.Json serialisation and deserialisation. Payloads are lists of named fields and parsed replies are records; only the hand-built JSON strings are modelled as text.
- Floating-point sample scaling (/32768f and ×32767) in WAV.cs and AudioStreamPlayer.cs. Samples stay 16-bit integers, and SaveWav takes the written shorts as a parameter.
- The ConcurrentQueue shared with Unity's audio thread: the queue is modelled sequentially.
- Directory.CreateDirectory, File.WriteAllBytes and DateTime.Now. A saved file is a (path, bytes) value and the timestamp is a parameter.
- Config.GetAPIUrl, MODEL_NAME, JsonUtil.UnescapeJsonString, CloudflareUtil.SendCloudflareRequest and TestCloudflareWorker are not part of this model. They appear as parameters or as results passed in.
- Uri.TryCreate is a boolean parameter. Screen.width and Screen.height are a parameter.
- Strings.ToLower: only ASCII letters are lowered, each to its ASCII lower case, as in the invariant culture and most others; the culture-sensitive mapping of other letters is not modelled. `ToLower()` uses the current culture, and under a Turkish or Azerbaijani culture 'I' lowers to the dotless 'ı' (U+0131), so "GPT-SoVITS" becomes "gpt-sovıts" and TTSRequestBuilder refuses it with "Unsupported engine: GPT-SoVITS" (TTSEngine with "GPT-SoVITS is not supported."). TtsRequest.BuildRequestMixedCase, TtsRequest.LowerEngineName, StreamingTts.StreamingRequestStreams and TtsEngine.CreateTtsRequest hold only under a culture whose lowering of ASCII letters is ASCII.
- Chat.ChatFeature.HandleInputEvents: Backspace removes the last character of the input, a whole Unicode code point, whereas `inputText[..^1]` removes one UTF-16 code unit and so leaves half of a surrogate pair behind after a character outside the Basic Multilingual Plane. Strings here are sequences of code points, which cannot hold a lone surrogate.
- Chat.Edit: the same code-point Backspace as HandleInputEvents.
- EngineRegistry.TryGetValue: OrdinalIgnoreCase is modelled as equality after ASCII upper-casing (Strings.EqualsIgnoreCase). .NET upper-cases every character by the invariant culture's simple case mapping, so two names that differ only in the case of a non-ASCII letter are distinct here and equal in the source.
- Strings.EqualsIgnoreCase: folds ASCII letters only, as above.
- EngineRegistry.EqualsIgnoreCaseTransitive: stated of the ASCII fold, as above.
- EngineRegistry.Resolve, AIEngineManager.AIEngineManager.constructor, AudioEngineManager.AudioEngineManager.constructor: the default name and the registered names are never null in the model. In the source a null default reaching TryGetValue, or a null name in the registered pairs, makes the Dictionary throw ArgumentNullException (src/util/AIEngineManager.cs:23 and :31).
- CloudflareWrapper.Format: an item is recognised only as `{`, digits and `}`; string.Format also accepts an alignment or format component and spaces before the closing brace, which are modelled as malformed when the index is 0 or 1. The check of the index follows the .NET 6 class library that MelonLoader hosts this Il2Cpp mod on, whose string.Format throws as soon as the digits of the index are read. A null template, which makes string.Format throw ArgumentNullException, is not modelled.
- CloudflareWrapper.StatusError: a response without a reason phrase is modelled as an empty phrase, which is how the message renders a null one.
- Chat.IsDigit: `\d` is taken as ASCII digits only; .NET also matches other Unicode decimal digits.
- Chat.IsControl is the Unicode Cc category, which is what char.IsControl tests.
- FeatureSdk.Feature: ChatFeature's inheritance from Feature is modelled as composition (a `feature` field).
- AudioStreamPlayerWrapper: Initialize and PushAudioData forward to the AudioStreamPlayer, so the streaming engine holds the player directly. Its Stop, after stopping the player, also destroys the GameObject that owns it (src/util/audio/AudioStreamPlayerWrapper.cs:36-43).
- StreamingTts.Cleared: the cleared state keeps the player, but the wrapper's Stop has destroyed the player's GameObject. The model goes on using the same player for later requests; Unity destroys the object at the end of the frame, and what a destroyed component does when it is called again is Unity's behaviour, which is not modelled.
- StreamingTts.StreamingTtsEngine.CleanupResources: states that the player is stopped and its queue emptied, not that its GameObject is destroyed (see StreamingTts.Cleared above).
- StreamingTts.StreamingTtsEngine.Cancel: the same as CleanupResources; the destroyed player is not modelled.
- Wav.WalkChunks: where the chunk walk comes back to an offset it has left, the source loops for ever; the model returns EndlessLoop instead, using a set of visited offsets that the source does not keep.
- StreamTTSEngine.cs, AudioModelEngine.cs and AudioManager.cs are not part of this model. The first is an older revision that redeclares StreamingTTSEngine and StreamingDownloadHandler; the other two are HTTP and playback glue.
- The interface files (IAIEngine, IAudioEngine, IAudioProcessor, IAudioStreamPlayer) declare signatures only. The engines are modelled as the concrete classes.
- EngineHandle.GetUsageDetails: the contract states the rendering for a null Usage only. The non-null rendering depends on the integer-to-text conversion, which is stated by its own definition.
- JsonUtil.ReadJsonString: `\u` escapes are not decoded, since nothing the escaper writes produces them.
- StreamingDownloadHandler.CompleteContent only calls the base class and is not modelled.
- Whether Unity ever calls ReceiveData (it is declared without `override`) is outside the model; only its body is modelled.

## Findings

| source | as written | input that shows it | evidently intended | confidence | as-written member | corrected member |
|---|---|---|---|---|---|---|
| src/util/OpenAIUtil.cs:85-100 | the lazy `"content"\s*:\s*"(.*?)"` stops at the first quote, including an escaped one; so the `\"` replacement after it can never apply | the reply `{"content":"say \"hi\""}` is read as `say \` | read the value up to its unescaped closing quote, then decode `\"`, `\\` and `\n` | high (not executed) | ChatApiUtil.OpenAIEscapedQuoteTruncates, ChatApiUtil.EscapedQuoteExample | ChatApiUtil.ParseOpenAIResponseFixed, ChatApiUtil.FixedParseRoundTrip |
| src/util/audio/WAV.cs:18-23 | the chunk walk adds the size as a signed int: a size from -7 to -1 steps forward into the chunk's own header, -8 lands on the same offset again, and a smaller one steps backwards | a chunk after "WAVE" declaring size -8 keeps the walk at offset 12 for ever; one declaring -4 is walked through into its own size field | read the size as RIFF's unsigned field, so that such a chunk reaches past the end of the file and the walk stops | high (not executed) | Wav.WalkAsWrittenRepeats, Wav.SmallNegativeSizeWalksOn | Wav.FindData, Wav.ParseFixed |
| src/util/JsonUtil.cs:9-13 | the backslash is doubled last, so the backslashes added for quotes, newlines, carriage returns and tabs are doubled too | a single quote becomes `\\"`, which a JSON reader takes as a backslash followed by the end of the string; a newline reads back as a backslash and `n` | replace the backslash first, so that every character is escaped once | high (not executed) | JsonUtil.EscapedCharDoesNotReadBack, JsonUtil.EscapedCharReadsBack | JsonUtil.EscapeJsonStringFixed, JsonUtil.FixedRoundTrip |

The operations of the source use the definitions as written: the request bodies of ChatApiUtil escape with JsonUtil.EscapeJsonString, the OpenAI send path parses with ChatApiUtil.ParseOpenAIResponse, and Wav.Parse, Wav.ParseWav and Wav.WalkChunks walk the chunks with signed sizes. The corrected definitions stand beside them with the intended properties proved; Wav.ParseAgrees shows that the constructor as written reads every file the corrected one reads in the same way.
