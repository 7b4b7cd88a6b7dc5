/** The request side: normalising contents, extracting the system instruction,
    converting contents into chat messages, translating tool declarations, and
    assembling the wire request. */
module RequestFormat {
  import opened Wrappers
  import opened Strings
  import opened Json
  import opened Genai
  import opened Wire
  import opened ModelNames

  // ---------------------------------------------------------------------------
  // Contents normalisation

  function NormalizePart(p: PartUnion): (r: Part)
    ensures p.PartString? ==> r == Text(p.text)
    ensures p.PartValue? ==> r == p.part
  {
    match p
    case PartString(text) => Text(text)
    case PartValue(part) => part
  }

  /** A bare string or a bare list of parts becomes a user turn; a content is kept. */
  function NormalizeContent(u: ContentUnion): (r: Content)
    ensures u.ContentValue? ==> r == u.content
    ensures u.ContentString? ==> r == Content("user", [Text(u.text)])
    ensures u.ContentParts? ==> r.role == "user" && |r.parts| == |u.parts|
    ensures u.ContentParts? ==> forall k :: 0 <= k < |r.parts| ==> r.parts[k] == NormalizePart(u.parts[k])
  {
    match u
    case ContentString(text) => Content("user", [Text(text)])
    case ContentParts(parts) => Content("user", seq(|parts|, k requires 0 <= k < |parts| => NormalizePart(parts[k])))
    case ContentValue(content) => content
  }

  /** A bare string becomes one user turn, a list is normalised element by
      element in order, and a single content becomes a one-element list. */
  function NormalizeContents(contents: Contents): (r: seq<Content>)
    ensures contents.ContentsString? ==> r == [Content("user", [Text(contents.text)])]
    ensures contents.ContentsValue? ==> r == [contents.content]
    ensures contents.ContentsList? ==> |r| == |contents.items|
    ensures contents.ContentsList? ==>
              forall k :: 0 <= k < |r| ==> r[k] == NormalizeContent(contents.items[k])
  {
    match contents
    case ContentsString(text) => [Content("user", [Text(text)])]
    case ContentsList(items) => seq(|items|, k requires 0 <= k < |items| => NormalizeContent(items[k]))
    case ContentsValue(content) => [content]
  }

  /** Contents that are already a list of turns are left exactly as they are. */
  lemma NormalizeContentsKeepsTurns(cs: seq<Content>)
    ensures NormalizeContents(ContentsList(seq(|cs|, k requires 0 <= k < |cs| => ContentValue(cs[k])))) == cs
  {
  }

  // ---------------------------------------------------------------------------
  // Text of parts

  /** The text of a part, or "" for a part that holds none. */
  function PartText(p: Part): string {
    if p.Text? then p.text else ""
  }

  /** One string per part: its text, or "" for a non-text part. */
  function PartTexts(parts: seq<Part>): (r: seq<string>)
    ensures |r| == |parts|
    ensures forall k :: 0 <= k < |parts| ==> r[k] == PartText(parts[k])
  {
    if parts == [] then [] else [PartText(parts[0])] + PartTexts(parts[1..])
  }

  /** The texts of the text parts only, in order. */
  function TextsOfTextParts(parts: seq<Part>): (r: seq<string>)
    ensures |r| <= |parts|
    ensures r == [] <==> forall k :: 0 <= k < |parts| ==> !parts[k].Text?
    ensures |parts| == 1 ==> r == (if parts[0].Text? then [parts[0].text] else [])
  {
    if parts == [] then []
    else if parts[0].Text? then [parts[0].text] + TextsOfTextParts(parts[1..])
    else TextsOfTextParts(parts[1..])
  }

  /** The texts of a concatenation are the texts of each side, in order. */
  lemma {:induction false} TextsOfTextPartsAppend(a: seq<Part>, b: seq<Part>)
    ensures TextsOfTextParts(a + b) == TextsOfTextParts(a) + TextsOfTextParts(b)
  {
    if a != [] {
      assert (a + b)[0] == a[0];
      assert (a + b)[1..] == a[1..] + b;
      TextsOfTextPartsAppend(a[1..], b);
    } else {
      assert a + b == b;
    }
  }

  // ---------------------------------------------------------------------------
  // System instruction

  /** A falsy instruction gives none; a string is used as it is; a content's
      parts are joined with newlines, a non-text part counting as "". */
  function ExtractSystemInstruction(instruction: Instruction): (r: Option<string>)
    ensures r.None? <==> instruction.NoInstruction? || instruction.OtherInstruction?
                         || instruction == InstructionString("")
    ensures instruction.InstructionString? && instruction.text != "" ==> r == Some(instruction.text)
    ensures instruction.InstructionContent? ==> r == Some(Join(PartTexts(instruction.content.parts), "\n"))
  {
    match instruction
    case NoInstruction => None
    case InstructionString(text) => if text == "" then None else Some(text)
    case InstructionContent(content) => Some(Join(PartTexts(content.parts), "\n"))
    case OtherInstruction => None
  }

  /** A structured instruction keeps every part's text and puts one newline
      between each two parts. */
  lemma SystemInstructionLength(content: Content)
    requires |content.parts| > 0
    ensures var r := ExtractSystemInstruction(InstructionContent(content));
            |r.value| == TotalLength(PartTexts(content.parts)) + |content.parts| - 1
  {
    JoinLength(PartTexts(content.parts), "\n");
  }

  /** The leading system message: present exactly when the instruction is a non-empty string. */
  function SystemMessages(instruction: Instruction): (r: seq<Message>)
    ensures |r| <= 1
    ensures |r| == 1 <==> ExtractSystemInstruction(instruction).Some? && ExtractSystemInstruction(instruction).value != ""
    ensures |r| == 1 ==> r[0] == TextMessage("system", ExtractSystemInstruction(instruction).value)
  {
    match ExtractSystemInstruction(instruction)
    case Some(text) => if text != "" then [TextMessage("system", text)] else []
    case None => []
  }

  // ---------------------------------------------------------------------------
  // Contents to chat messages

  /** The wire role of a turn: "model" becomes "assistant", every other role passes through. */
  function WireRole(role: string): (r: string)
    ensures r == "assistant" <==> role == "model" || role == "assistant"
    ensures role != "model" ==> r == role
  {
    if role == "model" then "assistant" else role
  }

  predicate IsSingleText(parts: seq<Part>) {
    |parts| == 1 && parts[0].Text?
  }

  /** The function-call parts, in order. */
  function FunctionCalls(parts: seq<Part>): (r: seq<Part>)
    ensures |r| <= |parts|
    ensures forall k :: 0 <= k < |r| ==> r[k].FunctionCall?
    ensures forall p :: p in parts && p.FunctionCall? <==> p in r
    ensures |parts| == 1 ==> r == (if parts[0].FunctionCall? then parts else [])
  {
    if parts == [] then []
    else if parts[0].FunctionCall? then [parts[0]] + FunctionCalls(parts[1..])
    else FunctionCalls(parts[1..])
  }

  /** The function-response parts, in order. */
  function FunctionResponses(parts: seq<Part>): (r: seq<Part>)
    ensures |r| <= |parts|
    ensures forall k :: 0 <= k < |r| ==> r[k].FunctionResponse?
    ensures forall p :: p in parts && p.FunctionResponse? <==> p in r
    ensures |parts| == 1 ==> r == (if parts[0].FunctionResponse? then parts else [])
  {
    if parts == [] then []
    else if parts[0].FunctionResponse? then [parts[0]] + FunctionResponses(parts[1..])
    else FunctionResponses(parts[1..])
  }

  /** Filtering keeps order and multiplicity: the calls of a concatenation are
      the calls of each side, in order. */
  lemma {:induction false} FunctionCallsAppend(a: seq<Part>, b: seq<Part>)
    ensures FunctionCalls(a + b) == FunctionCalls(a) + FunctionCalls(b)
  {
    if a != [] {
      assert (a + b)[0] == a[0];
      assert (a + b)[1..] == a[1..] + b;
      FunctionCallsAppend(a[1..], b);
      assert FunctionCalls(a + b) == (if a[0].FunctionCall? then [a[0]] else []) + FunctionCalls(a[1..] + b);
      assert FunctionCalls(a) == (if a[0].FunctionCall? then [a[0]] else []) + FunctionCalls(a[1..]);
    } else {
      assert a + b == b;
    }
  }

  /** The same for the function responses. */
  lemma {:induction false} FunctionResponsesAppend(a: seq<Part>, b: seq<Part>)
    ensures FunctionResponses(a + b) == FunctionResponses(a) + FunctionResponses(b)
  {
    if a != [] {
      assert (a + b)[0] == a[0];
      assert (a + b)[1..] == a[1..] + b;
      FunctionResponsesAppend(a[1..], b);
      assert FunctionResponses(a + b) == (if a[0].FunctionResponse? then [a[0]] else []) + FunctionResponses(a[1..] + b);
      assert FunctionResponses(a) == (if a[0].FunctionResponse? then [a[0]] else []) + FunctionResponses(a[1..]);
    } else {
      assert a + b == b;
    }
  }

  /** The id synthesised for the `index`-th call or response: `call_<index>`. */
  function CallId(index: nat): string {
    "call_" + NatToString(index)
  }

  /** The wire tool call for the function-call part at position `index` among the function calls. */
  function ToolCallFor(call: Part, index: nat, codec: JsonCodec): ToolCall
    requires call.FunctionCall?
  {
    ToolCall(
      if call.id != "" then call.id else CallId(index),
      call.name,
      codec.stringify(OrEmptyObject(call.args)))
  }

  /** The tool message for the function-response part at position `index` among the responses. */
  function ToolMessageFor(response: Part, index: nat, codec: JsonCodec): Message
    requires response.FunctionResponse?
  {
    ToolMessage(
      if response.name != "" then response.name else CallId(index),
      codec.stringify(OrEmptyObject(response.response)))
  }

  /** The turn takes the tool-call branch: not a single text part, assistant
      role after mapping, and at least one function call. */
  predicate EmitsToolCalls(c: Content) {
    !IsSingleText(c.parts) && |FunctionCalls(c.parts)| > 0 && WireRole(c.role) == "assistant"
  }

  /** The turn takes the function-response branch. */
  predicate EmitsToolResults(c: Content) {
    !IsSingleText(c.parts) && !EmitsToolCalls(c) && |FunctionResponses(c.parts)| > 0
  }

  /** How many messages a turn becomes. */
  function MessageCount(c: Content): nat {
    if EmitsToolResults(c) then |FunctionResponses(c.parts)| else 1
  }

  /** One turn as chat messages. */
  function ConvertContent(c: Content, codec: JsonCodec): (ms: seq<Message>)
    ensures |ms| == MessageCount(c) >= 1
    ensures EmitsToolResults(c) ==> forall k :: 0 <= k < |ms| ==> ms[k].ToolMessage?
    ensures !EmitsToolResults(c) && c.role == "model" ==> ms[0].Role() == "assistant"
    ensures !EmitsToolResults(c) && c.role == "user" ==> ms[0].Role() == "user" && ms[0].TextMessage?
  {
    var role := WireRole(c.role);
    if IsSingleText(c.parts) then
      [TextMessage(role, c.parts[0].text)]
    else
      var calls := FunctionCalls(c.parts);
      if |calls| > 0 && role == "assistant" then
        [ToolCallMessage(seq(|calls|, k requires 0 <= k < |calls| => ToolCallFor(calls[k], k, codec)))]
      else
        var responses := FunctionResponses(c.parts);
        if |responses| > 0 then
          seq(|responses|, k requires 0 <= k < |responses| => ToolMessageFor(responses[k], k, codec))
        else
          [TextMessage(if role == "user" then "user" else "assistant", Join(TextsOfTextParts(c.parts), "\n"))]
  }

  /** A turn whose only part is text becomes one message with the mapped role and that text. */
  lemma SingleTextMessage(c: Content, codec: JsonCodec)
    requires IsSingleText(c.parts)
    ensures ConvertContent(c, codec) == [TextMessage(WireRole(c.role), c.parts[0].text)]
  {
  }

  /** A turn in none of the other branches becomes one message holding the
      texts of its text parts joined with newlines, in order; non-text parts are
      dropped, and every role other than `user` is sent as `assistant`. */
  lemma TextTurnMessage(c: Content, codec: JsonCodec)
    requires !IsSingleText(c.parts) && !EmitsToolCalls(c) && |FunctionResponses(c.parts)| == 0
    ensures ConvertContent(c, codec)
            == [TextMessage(if c.role == "user" then "user" else "assistant", Join(TextsOfTextParts(c.parts), "\n"))]
  {
  }

  /** Two texts around a function call in a user turn: the call is dropped and
      the texts are joined with a newline. */
  lemma UserTextsAroundCall(a: string, b: string, call: Part, codec: JsonCodec)
    requires call.FunctionCall?
    ensures ConvertContent(Content("user", [Text(a), call, Text(b)]), codec) == [TextMessage("user", a + "\n" + b)]
  {
    var parts := [Text(a), call, Text(b)];
    FunctionResponsesAppend([Text(a)], [call, Text(b)]);
    FunctionResponsesAppend([call], [Text(b)]);
    TextsOfTextPartsAppend([Text(a)], [call, Text(b)]);
    TextsOfTextPartsAppend([call], [Text(b)]);
    assert parts == [Text(a)] + ([call] + [Text(b)]);
    assert TextsOfTextParts(parts) == [a, b];
    TextTurnMessage(Content("user", parts), codec);
  }

  /** A user turn holding only a function call sends an empty text. */
  lemma UserCallOnlySendsEmptyText(call: Part, codec: JsonCodec)
    requires call.FunctionCall?
    ensures ConvertContent(Content("user", [call]), codec) == [TextMessage("user", "")]
  {
    FunctionResponsesAppend([call], []);
    TextsOfTextPartsAppend([call], []);
    assert [call] + [] == [call];
  }

  /** An assistant turn with function calls becomes one message with null
      content and one tool call per function-call part, in order; each id is the
      call's own or else `call_<i>`, each argument string the stringified
      arguments, or `{}` when they are absent or falsy. */
  lemma AssistantToolCalls(c: Content, codec: JsonCodec)
    requires EmitsToolCalls(c)
    ensures |ConvertContent(c, codec)| == 1
    ensures ConvertContent(c, codec)[0].ToolCallMessage?
    ensures |ConvertContent(c, codec)[0].toolCalls| == |FunctionCalls(c.parts)|
    ensures forall k :: 0 <= k < |FunctionCalls(c.parts)| ==>
              var call := FunctionCalls(c.parts)[k];
              var tc := ConvertContent(c, codec)[0].toolCalls[k];
              && tc.id == (if call.id != "" then call.id else CallId(k))
              && tc.name == call.name
              && tc.arguments == codec.stringify(if call.args.None? || IsFalsy(call.args.value) then EmptyObject else call.args.value)
  {
  }

  /** A turn holding text and function calls from the model keeps only the
      calls: no text reaches the wire. */
  lemma AssistantTextDropped(c: Content, codec: JsonCodec)
    requires c.role == "model" && |c.parts| >= 2
    requires exists k :: 0 <= k < |c.parts| && c.parts[k].FunctionCall?
    ensures ConvertContent(c, codec) == [ConvertContent(c, codec)[0]]
    ensures ConvertContent(c, codec)[0].ToolCallMessage?
  {
    var k :| 0 <= k < |c.parts| && c.parts[k].FunctionCall?;
    assert c.parts[k] in FunctionCalls(c.parts);
  }

  /** The function-response branch yields one tool message per response, in
      order, answering the response's name or else `call_<i>`. */
  lemma ToolResultMessages(c: Content, codec: JsonCodec)
    requires EmitsToolResults(c)
    ensures |ConvertContent(c, codec)| == |FunctionResponses(c.parts)|
    ensures forall k :: 0 <= k < |FunctionResponses(c.parts)| ==>
              var response := FunctionResponses(c.parts)[k];
              ConvertContent(c, codec)[k] == ToolMessage(
                if response.name != "" then response.name else CallId(k),
                codec.stringify(if response.response.None? || IsFalsy(response.response.value) then EmptyObject else response.response.value))
  {
  }

  /** Falsy arguments (null, false, 0 or "") go out as `{}`, like absent ones. */
  lemma FalsyArgumentsSentAsEmptyObject(name: string, args: Json, codec: JsonCodec)
    requires IsFalsy(args)
    ensures ConvertContent(Content("model", [FunctionCall("", name, Some(args))]), codec)
            == [ToolCallMessage([ToolCall(CallId(0), name, codec.stringify(EmptyObject))])]
  {
    var c := Content("model", [FunctionCall("", name, Some(args))]);
    FunctionCallsAppend(c.parts, []);
    assert c.parts + [] == c.parts;
    AssistantToolCalls(c, codec);
    var tcs := ConvertContent(c, codec)[0].toolCalls;
    assert tcs[0] == ToolCall(CallId(0), name, codec.stringify(EmptyObject));
    assert tcs == [tcs[0]];
  }

  /** Synthesised tool-call ids are pairwise distinct. */
  lemma {:induction false} SynthesizedIdsDistinct(c: Content, codec: JsonCodec, i: nat, j: nat)
    requires EmitsToolCalls(c)
    requires i < j < |FunctionCalls(c.parts)|
    requires FunctionCalls(c.parts)[i].id == "" && FunctionCalls(c.parts)[j].id == ""
    ensures ConvertContent(c, codec)[0].toolCalls[i].id != ConvertContent(c, codec)[0].toolCalls[j].id
  {
    if CallId(i) == CallId(j) {
      assert CallId(i)[5..] == NatToString(i);
      assert CallId(j)[5..] == NatToString(j);
      NatToStringInjective(i, j);
    }
  }

  /** All turns as messages, in turn order. */
  function ConvertAll(cs: seq<Content>, codec: JsonCodec): (ms: seq<Message>)
    ensures |ms| >= |cs|
  {
    if cs == [] then [] else ConvertContent(cs[0], codec) + ConvertAll(cs[1..], codec)
  }

  /** The number of messages all turns become. */
  function TotalMessages(cs: seq<Content>): nat {
    if cs == [] then 0 else MessageCount(cs[0]) + TotalMessages(cs[1..])
  }

  /** Converting a concatenation is concatenating the conversions: each turn's
      messages appear as one block, in turn order. */
  lemma {:induction false} ConvertAllAppend(a: seq<Content>, b: seq<Content>, codec: JsonCodec)
    ensures ConvertAll(a + b, codec) == ConvertAll(a, codec) + ConvertAll(b, codec)
  {
    if a == [] {
      assert a + b == b;
    } else {
      assert (a + b)[1..] == a[1..] + b;
      ConvertAllAppend(a[1..], b, codec);
    }
  }

  /** The message count is the sum of the per-turn counts. */
  lemma {:induction false} ConvertAllLength(cs: seq<Content>, codec: JsonCodec)
    ensures |ConvertAll(cs, codec)| == TotalMessages(cs)
  {
    if cs != [] {
      ConvertAllLength(cs[1..], codec);
    }
  }

  /** Without function responses, there is exactly one message per turn. */
  lemma {:induction false} OneMessagePerTurn(cs: seq<Content>, codec: JsonCodec)
    requires forall k :: 0 <= k < |cs| ==> !EmitsToolResults(cs[k])
    ensures |ConvertAll(cs, codec)| == |cs|
  {
    if cs != [] {
      assert !EmitsToolResults(cs[0]);
      OneMessagePerTurn(cs[1..], codec);
    }
  }

  /** The request's contents as chat messages. */
  function ConvertToOpenAIFormat(contents: Contents, codec: JsonCodec): (ms: seq<Message>)
    ensures |ms| >= |NormalizeContents(contents)|
  {
    ConvertAll(NormalizeContents(contents), codec)
  }

  // ---------------------------------------------------------------------------
  // Tool declarations

  function ToWireTool(d: FunctionDeclaration): WireTool {
    WireTool(d.name, d.description, d.parameters)
  }

  /** The declarations of a tool entry, if it is a group that has them. */
  function GroupTools(t: ToolEntry): (r: Option<seq<WireTool>>)
    ensures r.Some? <==> t.ToolGroup? && t.functionDeclarations.Some?
    ensures r.Some? ==> |r.value| == |t.functionDeclarations.value|
    ensures r.Some? ==> forall k :: 0 <= k < |r.value| ==> r.value[k] == ToWireTool(t.functionDeclarations.value[k])
  {
    match t
    case NotAGroup => None
    case ToolGroup(None) => None
    case ToolGroup(Some(decls)) => Some(seq(|decls|, k requires 0 <= k < |decls| => ToWireTool(decls[k])))
  }

  /** Only the first entry of the tools is translated. */
  function ConvertTools(tools: ToolList): (r: Option<seq<WireTool>>)
    ensures tools.NoTools? || tools == ToolArray([]) ==> r.None?
    ensures tools.SingleTool? ==> r == GroupTools(tools.tool)
    ensures tools.ToolArray? && |tools.tools| > 0 ==> r == GroupTools(tools.tools[0])
  {
    match tools
    case NoTools => None
    case SingleTool(t) => GroupTools(t)
    case ToolArray(ts) => if |ts| == 0 then None else GroupTools(ts[0])
  }

  /** Every entry after the first is ignored. */
  lemma OnlyFirstToolGroup(first: ToolEntry, rest: seq<ToolEntry>)
    ensures ConvertTools(ToolArray([first] + rest)) == ConvertTools(SingleTool(first))
  {
  }

  /** A group whose declaration list is empty gives an empty list, not "no tools". */
  lemma EmptyDeclarationsGiveEmptyList()
    ensures ConvertTools(SingleTool(ToolGroup(Some([])))) == Some([])
  {
  }

  // ---------------------------------------------------------------------------
  // The wire request

  /** The requested model (or the default one when absent), resolved. */
  function RequestModel(request: GenerateRequest, defaultModel: string): string {
    MapModel(if request.model != "" then request.model else defaultModel)
  }

  /** `maxOutputTokens || budget(modelName)` */
  function RequestMaxTokens(request: GenerateRequest, modelName: string): (r: int)
    ensures request.config.maxOutputTokens.Some? && request.config.maxOutputTokens.value != 0
            ==> r == request.config.maxOutputTokens.value
    ensures request.config.maxOutputTokens.None? || request.config.maxOutputTokens.value == 0
            ==> r == MaxTokensForModel(modelName)
  {
    match request.config.maxOutputTokens
    case Some(n) => if n != 0 then n else MaxTokensForModel(modelName)
    case None => MaxTokensForModel(modelName)
  }

  /** The chat-completions request built for a generate call; `streaming`
      selects the streaming variant, which asks for usage in the stream, while
      the single-shot variant may ask for a JSON object response. */
  function BuildRequest(request: GenerateRequest, defaultModel: string, codec: JsonCodec, streaming: bool): (r: WireRequest)
    ensures r.model == RequestModel(request, defaultModel)
    ensures r.messages == SystemMessages(request.config.systemInstruction) + ConvertToOpenAIFormat(request.contents, codec)
    ensures r.maxTokens == RequestMaxTokens(request, r.model)
    ensures r.tools == ConvertTools(request.config.tools)
    ensures r.temperature == request.config.temperature && r.topP == request.config.topP
    ensures r.stream == streaming && r.includeUsage == streaming
    ensures r.jsonResponseFormat <==> !streaming && request.config.responseMimeType == Some("application/json")
  {
    var modelName := RequestModel(request, defaultModel);
    WireRequest(
      modelName,
      SystemMessages(request.config.systemInstruction) + ConvertToOpenAIFormat(request.contents, codec),
      request.config.temperature,
      request.config.topP,
      RequestMaxTokens(request, modelName),
      ConvertTools(request.config.tools),
      !streaming && request.config.responseMimeType == Some("application/json"),
      streaming,
      streaming)
  }

  /** Without an explicit limit, the request asks for the resolved model's
      budget, which is 8192 or 4096; a Gemini 2.5 model always gets 8192. */
  lemma DefaultMaxTokens(request: GenerateRequest, defaultModel: string, codec: JsonCodec, streaming: bool)
    requires request.config.maxOutputTokens.None? || request.config.maxOutputTokens == Some(0)
    ensures BuildRequest(request, defaultModel, codec, streaming).maxTokens in {4096, 8192}
    ensures request.model != "" && Contains(request.model, "gemini-2.5") ==>
              BuildRequest(request, defaultModel, codec, streaming).maxTokens == 8192
  {
    if request.model != "" && Contains(request.model, "gemini-2.5") {
      Gemini25BudgetSurvivesMapping(request.model);
    }
  }

  /** The streaming and single-shot requests differ only in the streaming
      flags and the response format. */
  lemma StreamingAndSingleShotAgree(request: GenerateRequest, defaultModel: string, codec: JsonCodec)
    ensures var s := BuildRequest(request, defaultModel, codec, true);
            var n := BuildRequest(request, defaultModel, codec, false);
            s.(stream := false, includeUsage := false, jsonResponseFormat := n.jsonResponseFormat) == n
  {
  }

  /** The system message leads exactly when the instruction is truthy text,
      and the turns follow it in order. */
  lemma SystemMessageLeads(request: GenerateRequest, defaultModel: string, codec: JsonCodec, streaming: bool)
    ensures var r := BuildRequest(request, defaultModel, codec, streaming);
            var turns := ConvertToOpenAIFormat(request.contents, codec);
            match ExtractSystemInstruction(request.config.systemInstruction)
            case Some(text) =>
              if text != "" then r.messages == [TextMessage("system", text)] + turns else r.messages == turns
            case None => r.messages == turns
  {
  }

  /** A model turn calling `run` with object arguments and without an id
      becomes one assistant message whose only tool call has the id "call_0". */
  lemma RunCallMessage(members: seq<(string, Json)>, codec: JsonCodec)
    ensures ConvertContent(Content("model", [FunctionCall("", "run", Some(JObject(members)))]), codec)
            == [ToolCallMessage([ToolCall("call_0", "run", codec.stringify(JObject(members)))])]
  {
    var c := Content("model", [FunctionCall("", "run", Some(JObject(members)))]);
    assert FunctionCalls(c.parts) == [FunctionCall("", "run", Some(JObject(members)))];
    AssistantToolCalls(c, codec);
    assert CallId(0) == "call_0";
    var tcs := ConvertContent(c, codec)[0].toolCalls;
    assert tcs == [ToolCall("call_0", "run", codec.stringify(JObject(members)))];
  }

  /** "gemini-2.5" occurs at the start of "gemini-2.5-pro". */
  lemma Gemini25ProIsGemini25(name: string)
    requires name == "gemini-2.5-pro"
    ensures Contains(name, "gemini-2.5")
  {
    assert name[..10] == "gemini-2.5";
  }

  /** A user "hi" to "gemini-2.5-pro" goes out to the namespaced model as one
      user message with the 8192-token budget. */
  lemma HiToGemini25Pro(defaultModel: string, codec: JsonCodec, streaming: bool)
    ensures var request := GenerateRequest(
              "gemini-2.5-pro",
              ContentsList([ContentValue(Content("user", [Text("hi")]))]),
              Config(NoInstruction, None, None, None, NoTools, None));
            var r := BuildRequest(request, defaultModel, codec, streaming);
            && r.model == Google("gemini-2.5-pro")
            && r.messages == [TextMessage("user", "hi")]
            && r.maxTokens == 8192
            && r.tools.None?
  {
    var request := GenerateRequest(
      "gemini-2.5-pro",
      ContentsList([ContentValue(Content("user", [Text("hi")]))]),
      Config(NoInstruction, None, None, None, NoTools, None));
    var turn := Content("user", [Text("hi")]);
    Gemini25ProIsGemini25("gemini-2.5-pro");
    Gemini25BudgetSurvivesMapping("gemini-2.5-pro");
    assert NormalizeContents(request.contents) == [turn];
    assert ConvertAll([turn], codec) == ConvertContent(turn, codec) + ConvertAll([], codec);
    SingleTextMessage(turn, codec);
  }
}
