# OpenRouter content generator: a Dafny model

This project models the protocol-translation layer in
`packages/core/src/core/openRouterContentGenerator.ts`. The layer serves the
Gemini-style content-generation interface (turns made of text, function-call
and function-response parts) from an OpenAI-compatible chat-completions API.
The model covers four things:

- how a generate request becomes a chat-completions request: model name, token budget, system message, messages, tools;
- how a completion, or a stream of chunks, comes back as a unified response;
- how errors are normalised;
- the token estimate and the unsupported embedding call.

Modules, one per component:

| module | file | what it holds |
|---|---|---|
| `Wrappers` | Wrappers.dfy | `Option`, `Result` |
| `Strings` | Strings.dfy | `includes`, `join`, decimal rendering of integers, with their lemmas |
| `Json` | Json.dfy | JSON values; `JsonCodec`, the pair `JSON.stringify` / `JSON.parse` handed in as functions |
| `Genai` | Genai.dfy | parts, contents, request config, candidates, responses |
| `Wire` | Wire.dfy | chat messages, tool calls, the wire request, chunks, completions |
| `ModelNames` | ModelNames.dfy | `mapGeminiModelToOpenRouter`, `getMaxTokensForModel` |
| `FinishReasons` | FinishReasons.dfy | `mapFinishReason` |
| `Errors` | Errors.dfy | `convertError`, `embedContent` |
| `RequestFormat` | RequestFormat.dfy | `normalizeContents`, `extractSystemInstruction`, `convertToOpenAIFormat`, `convertTools`, request construction |
| `ResponseAssembly` | ResponseAssembly.dfy | `convertChunkToGeminiResponse`, `convertToGeminiResponse` |
| `Generator` | Generator.dfy | `generateContent`, `doGenerateContentStream` / `generateContentStream`, `countTokens`, round trips |

Code that works by mutation stays imperative. These are the two converters
that build a `parts` array with `push` inside a loop (`ConvertChunk`,
`ConvertCompletion`) and the `hasContent` stream loop (`DoGenerateContentStream`).
Each is a method with loop invariants, proved equal to a specification
function. The properties the source promises are proved about those
functions. The rest of the source is map/filter/switch code and is modelled as
functions.

Modelling conventions:

- JavaScript's falsy tests (`x || y`, `if (x)`) treat a missing string and
  `""` the same way. So call ids, names, delta content and tool-call argument
  strings are plain strings, with `""` standing for "absent".
- `finish_reason` is an `Option<string>`, so that `null` and `""` stay apart.
- The network is a parameter: a function from the wire request to the
  provider's reply. A stream reply is a finite sequence of chunks, optionally
  followed by a thrown error.
- `JSON.stringify` and `JSON.parse` are the two fields of a `JsonCodec`
  parameter. Round-trip facts about them are `requires` clauses, never proofs.

The model keeps these behaviours of the code as written:

- `mapFinishReason(null)` and `mapFinishReason("")` give `undefined`, not OTHER.
- A tool group with an empty declaration list gives `[]`, not "no tools".
- A model turn holding both text and function calls loses its text.
- The budget rules include `gemini-pro` → 8192, and the budget is read from
  the resolved name. For example, `gemini-1.5-pro` gets 8192 only because it
  resolves to `google/gemini-pro-1.5`.
- Synthesised `call_<i>` ids are distinct from each other. They are not
  checked against ids the caller supplied.

## Model

| member | source | states |
|---|---|---|
| `ModelNames.MapModel` | packages/core/src/core/openRouterContentGenerator.ts:32-53 | a name containing `/` is returned unchanged; a name missing from the table is returned unchanged; otherwise the table's value |
| `ModelNames.TableValuesNamespaced` | packages/core/src/core/openRouterContentGenerator.ts:33-44 | every value in the table contains `/` |
| `ModelNames.TableAddsNamespace` | packages/core/src/core/openRouterContentGenerator.ts:33-44 | apart from the two Gemini 1.5 entries, the table only prefixes `google/` |
| `ModelNames.MapModelIdempotent` | packages/core/src/core/openRouterContentGenerator.ts:32-53 | resolving twice is resolving once; the result is namespaced or the input itself |
| `ModelNames.MaxTokensForModel` | packages/core/src/core/openRouterContentGenerator.ts:59-66 | the budget is 8192 exactly when the name contains `gemini-2.5` or `gemini-pro`, and 4096 otherwise |
| `ModelNames.Gemini25BudgetSurvivesMapping` | packages/core/src/core/openRouterContentGenerator.ts:59-66 | a name containing `gemini-2.5` still gets 8192 after resolution |
| `ModelNames.BudgetDependsOnResolvedName` | packages/core/src/core/openRouterContentGenerator.ts:88-89 | `gemini-1.5-pro` alone gets 4096, but its resolved name gets 8192 |
| `FinishReasons.MapFinishReason` | packages/core/src/core/openRouterContentGenerator.ts:483-499 | null or empty gives no reason; stop, function_call and tool_calls give STOP; length gives MAX_TOKENS; content_filter gives SAFETY; any other non-empty string gives OTHER |
| `Errors.ConvertError` | packages/core/src/core/openRouterContentGenerator.ts:501-508 | an API error becomes a plain error `OpenRouter API error (<status>): <message>`; other errors pass through unchanged; a non-error value is wrapped by its string form; the result is never an API error |
| `Errors.ConvertErrorIdempotent` | packages/core/src/core/openRouterContentGenerator.ts:501-508 | normalising an already normalised error changes nothing |
| `Errors.ApiErrorFidelity` | packages/core/src/core/openRouterContentGenerator.ts:502-505 | the normalised message contains both the decimal status and the original message |
| `Errors.RateLimitStatusText` | packages/core/src/core/openRouterContentGenerator.ts:504 | status 429 renders as `429` |
| `Errors.EmbedContent` | packages/core/src/core/openRouterContentGenerator.ts:201-208 | embedding fails with the same unsupported-operation error for every request |
| `RequestFormat.NormalizeContent` | packages/core/src/core/openRouterContentGenerator.ts:220-235 | a string becomes a user turn with one text part; a part list becomes a user turn with the parts in order, strings turned into text parts; a content is kept |
| `RequestFormat.NormalizeContents` | packages/core/src/core/openRouterContentGenerator.ts:214-240 | a string gives one user turn; a list gives one turn per element, in order; a single content gives itself |
| `RequestFormat.NormalizeContentsKeepsTurns` | packages/core/src/core/openRouterContentGenerator.ts:219-236 | a list of contents normalises to itself |
| `RequestFormat.ExtractSystemInstruction` | packages/core/src/core/openRouterContentGenerator.ts:242-259 | there is no instruction exactly when the config's instruction is falsy or has no parts; a string is used as it is; a content gives its part texts joined with newlines |
| `RequestFormat.SystemInstructionLength` | packages/core/src/core/openRouterContentGenerator.ts:252-256 | the joined instruction holds every part's text plus one newline between each two parts |
| `RequestFormat.SystemMessages` | packages/core/src/core/openRouterContentGenerator.ts:93-95 | a system message is present exactly when the instruction is a non-empty string, and it carries that string |
| `RequestFormat.WireRole` | packages/core/src/core/openRouterContentGenerator.ts:268-269 | the wire role is `assistant` exactly for the roles `model` and `assistant`; every other role passes through |
| `RequestFormat.FunctionCalls` | packages/core/src/core/openRouterContentGenerator.ts:281-283 | keeps exactly the function-call parts; with `FunctionCallsAppend` and the one-part case, it keeps their order and multiplicity |
| `RequestFormat.FunctionResponses` | packages/core/src/core/openRouterContentGenerator.ts:310-312 | keeps exactly the function-response parts; with `FunctionResponsesAppend` and the one-part case, it keeps their order and multiplicity |
| `RequestFormat.FunctionCallsAppend` | packages/core/src/core/openRouterContentGenerator.ts:281-283 | the calls of a concatenation are the calls of each side, in order |
| `RequestFormat.FunctionResponsesAppend` | packages/core/src/core/openRouterContentGenerator.ts:310-312 | the responses of a concatenation are the responses of each side, in order |
| `RequestFormat.TextsOfTextParts` | packages/core/src/core/openRouterContentGenerator.ts:323-326 | no texts exactly when no part is text; one text part gives its text, any other single part nothing |
| `RequestFormat.TextsOfTextPartsAppend` | packages/core/src/core/openRouterContentGenerator.ts:323-326 | the texts of a concatenation are the texts of each side, in order |
| `RequestFormat.ConvertContent` | packages/core/src/core/openRouterContentGenerator.ts:266-331 | every turn yields at least one message; a turn in the function-response branch yields one tool message per response, and every other turn exactly one message; a `model` turn becomes `assistant`, a `user` turn stays `user` |
| `RequestFormat.SingleTextMessage` | packages/core/src/core/openRouterContentGenerator.ts:272-278 | a turn whose only part is text becomes one message with the mapped role and that text |
| `RequestFormat.TextTurnMessage` | packages/core/src/core/openRouterContentGenerator.ts:322-331 | a turn reaching the last branch becomes one message: the texts of its text parts, in order, joined with newlines; non-text parts are dropped; the role is `user` for `user` and `assistant` for every other role |
| `RequestFormat.UserTextsAroundCall` | packages/core/src/core/openRouterContentGenerator.ts:322-331 | a user turn with texts a and b around a function call sends `a\nb` |
| `RequestFormat.UserCallOnlySendsEmptyText` | packages/core/src/core/openRouterContentGenerator.ts:322-331 | a user turn holding only a function call sends an empty text message |
| `RequestFormat.AssistantToolCalls` | packages/core/src/core/openRouterContentGenerator.ts:280-307 | an assistant turn with function calls gives one message with null content and one tool call per call, in order; each id is the call's own id or else `call_<i>`; each argument string is the stringified args, or `{}` when they are absent or falsy (null, false, 0, "") |
| `RequestFormat.AssistantTextDropped` | packages/core/src/core/openRouterContentGenerator.ts:285-306 | a model turn holding a function call and other parts yields only the tool-call message, so its text is dropped |
| `RequestFormat.ToolResultMessages` | packages/core/src/core/openRouterContentGenerator.ts:314-319 | one tool message per response, in order; `tool_call_id` is the response's name or else `call_<i>`; the content is the stringified response, or `{}` when it is absent or falsy |
| `RequestFormat.FalsyArgumentsSentAsEmptyObject` | packages/core/src/core/openRouterContentGenerator.ts:296 | falsy arguments go out as `{}`, as absent ones do |
| `RequestFormat.SynthesizedIdsDistinct` | packages/core/src/core/openRouterContentGenerator.ts:292 | two calls without an id get different synthesised ids |
| `RequestFormat.ConvertAll` | packages/core/src/core/openRouterContentGenerator.ts:266-333 | there are at least as many messages as turns |
| `RequestFormat.ConvertAllAppend` | packages/core/src/core/openRouterContentGenerator.ts:266-333 | converting a concatenation concatenates the conversions, so turn order is preserved |
| `RequestFormat.ConvertAllLength` | packages/core/src/core/openRouterContentGenerator.ts:314-333 | the number of messages is the sum of the per-turn counts |
| `RequestFormat.OneMessagePerTurn` | packages/core/src/core/openRouterContentGenerator.ts:266-333 | when no turn reaches the function-response branch, there is exactly one message per turn |
| `RequestFormat.ConvertToOpenAIFormat` | packages/core/src/core/openRouterContentGenerator.ts:261-334 | the normalised turns produce at least one message each |
| `RequestFormat.GroupTools` | packages/core/src/core/openRouterContentGenerator.ts:349-361 | a group with declarations gives one wire tool per declaration, in order; anything else gives no tools |
| `RequestFormat.ConvertTools` | packages/core/src/core/openRouterContentGenerator.ts:338-362 | absent tools, or an empty tools list, give no tools; a single tool, or the first entry of a non-empty list, gives that entry's group tools |
| `RequestFormat.OnlyFirstToolGroup` | packages/core/src/core/openRouterContentGenerator.ts:347-348 | every entry after the first is ignored |
| `RequestFormat.EmptyDeclarationsGiveEmptyList` | packages/core/src/core/openRouterContentGenerator.ts:352-361 | an empty declaration list gives `[]`, not "no tools" |
| `RequestFormat.RequestMaxTokens` | packages/core/src/core/openRouterContentGenerator.ts:89 | a non-zero `maxOutputTokens` is used as given; otherwise the budget of the resolved model name |
| `RequestFormat.BuildRequest` | packages/core/src/core/openRouterContentGenerator.ts:86-102 | the request carries the resolved model, the optional system message followed by the converted turns, the token limit, the first group's tools and the sampling values as given; only a streaming request streams and asks for usage; only a single-shot JSON request asks for a JSON object |
| `RequestFormat.DefaultMaxTokens` | packages/core/src/core/openRouterContentGenerator.ts:88-89 | without a limit, the request asks for 4096 or 8192, and for 8192 when the model name contains `gemini-2.5` |
| `RequestFormat.StreamingAndSingleShotAgree` | packages/core/src/core/openRouterContentGenerator.ts:142-156 | the single-shot request equals the streaming one except for the streaming flags and the response format |
| `RequestFormat.SystemMessageLeads` | packages/core/src/core/openRouterContentGenerator.ts:144-146 | the system message comes first exactly when the instruction is truthy, and the turns follow it |
| `RequestFormat.RunCallMessage` | packages/core/src/core/openRouterContentGenerator.ts:286-306 | a model call to `run` with object arguments and without an id goes out with id `call_0` |
| `RequestFormat.HiToGemini25Pro` | packages/core/src/core/openRouterContentGenerator.ts:86-102 | "hi" sent to `gemini-2.5-pro` goes out to `google/gemini-2.5-pro` as one user message, with 8192 tokens and no tools |
| `ResponseAssembly.ConvertUsage` | packages/core/src/core/openRouterContentGenerator.ts:423-428 | usage counts are copied through, and a missing count reads as 0 |
| `ResponseAssembly.FragmentParts` | packages/core/src/core/openRouterContentGenerator.ts:381-400 | at most one part per fragment; every part is a function call with parsed arguments and no id |
| `ResponseAssembly.FragmentPartsAppend` | packages/core/src/core/openRouterContentGenerator.ts:382-399 | fragments are handled independently and in order |
| `ResponseAssembly.FragmentKeptOrDropped` | packages/core/src/core/openRouterContentGenerator.ts:383-397 | a fragment is dropped exactly when it has no name or its arguments fail to parse; absent arguments give `{}` |
| `ResponseAssembly.DeltaParts` | packages/core/src/core/openRouterContentGenerator.ts:374-400 | the delta's text part, if any, comes first, and every later part is a function call |
| `ResponseAssembly.ChunkResponseShape` | packages/core/src/core/openRouterContentGenerator.ts:364-432 | at most one candidate; none exactly when there is no choice, or the choice has no parts and no finish reason (and then no usage); otherwise a model candidate with the delta's parts, the choice's own index, the mapped finish reason and the chunk's usage |
| `ResponseAssembly.ChoicelessChunkDropsUsage` | packages/core/src/core/openRouterContentGenerator.ts:367-372 | a chunk without choices loses the usage it carries |
| `ResponseAssembly.ConvertChunk` | packages/core/src/core/openRouterContentGenerator.ts:364-432 | the push loop computes exactly the chunk's specified response |
| `ResponseAssembly.CompletionToolParts` | packages/core/src/core/openRouterContentGenerator.ts:448-457 | on success, one part per tool call; a failure is always a JSON syntax error |
| `ResponseAssembly.CompletionFailurePersists` | packages/core/src/core/openRouterContentGenerator.ts:448-457 | a parse failure ends the conversion: later calls do not change the error |
| `ResponseAssembly.CompletionToolPartsSucceed` | packages/core/src/core/openRouterContentGenerator.ts:448-457 | the calls convert exactly when every argument string parses, and then into one call part per tool call, in order, with its name and parsed arguments |
| `ResponseAssembly.FirstUnparsableCallFails` | packages/core/src/core/openRouterContentGenerator.ts:453 | the error is the syntax error of the first call whose arguments do not parse |
| `ResponseAssembly.CompletionResponseShape` | packages/core/src/core/openRouterContentGenerator.ts:434-481 | the "no choices" error is raised exactly when there are no choices; otherwise the call succeeds exactly when every argument string parses, and then gives one model candidate at index 0 with a text part exactly when the content is non-empty, followed by one call per tool call, in order, with its name and parsed arguments, the mapped finish reason and the usage; any other failure is a JSON syntax error |
| `ResponseAssembly.ConvertCompletion` | packages/core/src/core/openRouterContentGenerator.ts:434-481 | the push loop, with its early error, computes exactly the completion's specified result |
| `Generator.GenerateContentResult` | packages/core/src/core/openRouterContentGenerator.ts:158-163 | every failure reaching the caller is a normalised error, never a raw API error; an API error carries the status and message; a completion is converted as specified |
| `Generator.GenerateContent` | packages/core/src/core/openRouterContentGenerator.ts:132-164 | builds the single-shot request, sends it, and returns the converted reply or the normalised error |
| `Generator.VisibleResponses` | packages/core/src/core/openRouterContentGenerator.ts:104-111 | no more responses than chunks, each with exactly one candidate |
| `Generator.VisibleResponsesAppend` | packages/core/src/core/openRouterContentGenerator.ts:105-111 | the responses follow chunk order |
| `Generator.NothingVisible` | packages/core/src/core/openRouterContentGenerator.ts:104-114 | no response is visible exactly when no chunk has parts or a finish reason |
| `Generator.StreamNeverEmpty` | packages/core/src/core/openRouterContentGenerator.ts:113-125 | a stream that ends normally yields at least one response, each with one candidate |
| `Generator.ContentlessStreamYieldsEmptyTurn` | packages/core/src/core/openRouterContentGenerator.ts:113-125 | if no chunk has content, the stream yields exactly one response: role `model`, one empty text part, index 0, STOP |
| `Generator.StreamWithContentYieldsVisible` | packages/core/src/core/openRouterContentGenerator.ts:104-114 | if some chunk has content, the stream yields exactly the chunk responses that have a candidate |
| `Generator.TwoDeltasThenStop` | packages/core/src/core/openRouterContentGenerator.ts:104-125 | deltas "a" and "b" and then a STOP chunk with usage yield three responses, the last carrying STOP and the usage |
| `Generator.DoGenerateContentStream` | packages/core/src/core/openRouterContentGenerator.ts:82-129 | the `hasContent` loop yields exactly the visible responses, or the empty STOP turn when there are none; a thrown error is normalised; a normal end never yields nothing |
| `Generator.GenerateContentStream` | packages/core/src/core/openRouterContentGenerator.ts:166-171 | sends the streaming request and assembles the reply's stream |
| `Generator.CountTokens` | packages/core/src/core/openRouterContentGenerator.ts:173-199 | the estimate is the length of the space-joined text divided by four and rounded up |
| `Generator.CountTokensCoversText` | packages/core/src/core/openRouterContentGenerator.ts:179-193 | every character of every text part is counted |
| `Generator.CountTokensOfString` | packages/core/src/core/openRouterContentGenerator.ts:179-193 | for a bare string the estimate is `(len + 3) / 4` |
| `Generator.TextRoundTrip` | packages/core/src/core/openRouterContentGenerator.ts:444-446 | a user turn with one non-empty text goes out as that text, and a reply echoing it comes back as one text part with that text |
| `Generator.EmptyTextNotEchoed` | packages/core/src/core/openRouterContentGenerator.ts:444-446 | an empty user text goes out as an empty message, but its echo comes back with no parts |
| `Generator.ToolCallRoundTrip` | packages/core/src/core/openRouterContentGenerator.ts:286-306 | a model function call sent out and echoed back returns with the same name and arguments (absent or falsy arguments as `{}`), assuming the JSON codec round-trips them; the id is not carried back |

## Left out

- Building the HTTP client is left out: the environment reads for base URL and API key, and the fixed `HTTP-Referer` / `X-Title` headers. This is configuration and I/O.
- The network calls, `async`/`await` and the async generator machinery are left out. The reply is a parameter, and a stream is a finite sequence of chunks with an optional trailing error.
- Releasing the connection when a consumer stops early is not modelled.
- The internals of `JSON.stringify` and `JSON.parse` are not modelled. Both are abstract functions, and round trips are assumed where needed. `JSON.stringify` throwing (cyclic values, BigInt) is not modelled.
- `temperature` and `top_p` are carried as opaque `real` values with no arithmetic. NaN and other non-finite numbers are not modelled, including a NaN `maxOutputTokens`, which is falsy.
- A turn with no role (`undefined`) is left out. Roles are strings.
- Part kinds other than text, function call and function response are left out, for example inline data.
- JSON numbers are integers, so `-0` and NaN are not represented. The falsy values that are represented (null, false, 0 and `""`) become `{}` under `|| {}`, as in the source.
- A text part's missing `text` is the empty string, which is what `text || ''` produces.
- A missing `parts` on a turn is an empty list, as `content.parts || []` makes it. A system instruction object without `parts` is `OtherInstruction` and gives no instruction, as the source's `undefined` does.
- The `.filter(Boolean)` after mapping tool calls never removes anything here, because a function-call part always holds its call.
- A bare part given as `contents` is left out. The source casts it to a turn without parts.
- `modelMap[model]` is a finite map, so prototype keys such as `constructor` are not modelled.
- `DEFAULT_GEMINI_MODEL` lives in `config/models.js`, which is not part of this model. It is the `defaultModel` parameter.
- `response_format: { type: 'json_object' }` is a boolean flag on the wire request.
- `countTokens` also returns `cachedContentTokenCount: 0`, and that constant is not modelled.
- String lengths count characters, while JavaScript counts UTF-16 code units.
- `userPromptId` is unused by the source and left out.
- The `JSON.parse` syntax error is `JsonSyntaxError`, holding the text that failed. The engine's message text is not modelled.
- `packages/cli/src/ui/auth/AuthDialog.tsx` is interactive UI with keypress handling and settings side effects, and is not part of this model.
- `packages/cli/src/ui/commands/modelCommand.ts` is slash-command plumbing, and is not part of this model.
