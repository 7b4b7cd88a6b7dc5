/** The response side: a streamed chunk or a whole completion converted back
    into a unified response. Both conversions build their parts list by
    appending inside a loop; each is a method proved equal to a specification
    function, whose properties are proved as lemmas. */
module ResponseAssembly {
  import opened Wrappers
  import opened Json
  import opened Genai
  import opened Wire
  import opened FinishReasons
  import opened Errors

  /** Usage copied through, a missing count reading as 0. */
  function ConvertUsage(u: Usage): (m: UsageMetadata)
    ensures u.promptTokens.None? ==> m.promptTokenCount == 0
    ensures u.completionTokens.None? ==> m.candidatesTokenCount == 0
    ensures u.totalTokens.None? ==> m.totalTokenCount == 0
    ensures u.promptTokens.Some? ==> m.promptTokenCount == u.promptTokens.value
    ensures u.completionTokens.Some? ==> m.candidatesTokenCount == u.completionTokens.value
    ensures u.totalTokens.Some? ==> m.totalTokenCount == u.totalTokens.value
  {
    UsageMetadata(u.promptTokens.GetOr(0), u.completionTokens.GetOr(0), u.totalTokens.GetOr(0))
  }

  function ConvertUsageIfAny(usage: Option<Usage>): Option<UsageMetadata> {
    match usage
    case Some(u) => Some(ConvertUsage(u))
    case None => None
  }

  // ---------------------------------------------------------------------------
  // Streaming: one chunk

  /** The arguments of a streamed fragment: parsed when present, `{}` when absent. */
  function FragmentArgs(d: ToolCallDelta, codec: JsonCodec): Option<Json> {
    if d.arguments != "" then codec.parse(d.arguments) else Some(EmptyObject)
  }

  /** The function-call parts of a chunk's fragments, in order: a fragment without
      a name, or whose arguments do not parse, contributes nothing. */
  function FragmentParts(ds: seq<ToolCallDelta>, codec: JsonCodec): (r: seq<Part>)
    ensures |r| <= |ds|
    ensures forall k :: 0 <= k < |r| ==> r[k].FunctionCall? && r[k].id == "" && r[k].args.Some?
  {
    if ds == [] then []
    else
      var d := ds[|ds| - 1];
      FragmentParts(ds[..|ds| - 1], codec) +
        if d.name != "" && FragmentArgs(d, codec).Some? then [FunctionCall("", d.name, FragmentArgs(d, codec))] else []
  }

  /** The fragments of a concatenation contribute the parts of each half, in order. */
  lemma {:induction false} FragmentPartsAppend(a: seq<ToolCallDelta>, b: seq<ToolCallDelta>, codec: JsonCodec)
    ensures FragmentParts(a + b, codec) == FragmentParts(a, codec) + FragmentParts(b, codec)
    decreases |b|
  {
    if b == [] {
      assert a + b == a;
    } else {
      var b' := b[..|b| - 1];
      assert (a + b)[..|a + b| - 1] == a + b';
      assert (a + b)[|a + b| - 1] == b[|b| - 1];
      FragmentPartsAppend(a, b', codec);
    }
  }

  /** One fragment is kept, as a call with its name and parsed arguments, exactly
      when it has a name and its arguments are absent or parse; otherwise it is dropped. */
  lemma FragmentKeptOrDropped(d: ToolCallDelta, codec: JsonCodec)
    ensures FragmentParts([d], codec) == [] <==>
              d.name == "" || (d.arguments != "" && codec.parse(d.arguments).None?)
    ensures d.name != "" && d.arguments == "" ==>
              FragmentParts([d], codec) == [FunctionCall("", d.name, Some(EmptyObject))]
    ensures d.name != "" && d.arguments != "" && codec.parse(d.arguments).Some? ==>
              FragmentParts([d], codec) == [FunctionCall("", d.name, codec.parse(d.arguments))]
  {
    assert [d][..0] == [];
  }

  /** The parts of a delta: its text first (when non-empty), then its calls. */
  function DeltaParts(delta: Delta, codec: JsonCodec): (r: seq<Part>)
    ensures delta.content != "" ==> |r| >= 1 && r[0] == Text(delta.content)
    ensures forall k :: (if delta.content != "" then 1 else 0) <= k < |r| ==> r[k].FunctionCall?
  {
    (if delta.content != "" then [Text(delta.content)] else []) + FragmentParts(delta.toolCalls, codec)
  }

  /** A finish reason that is absent or empty. */
  predicate NoFinishReason(reason: Option<string>) {
    reason.None? || reason.value == ""
  }

  /** The unified response for one streamed chunk. */
  function ChunkResponse(chunk: Chunk, codec: JsonCodec): Response {
    if |chunk.choices| == 0 then Response([], None)
    else
      var choice := chunk.choices[0];
      var parts := DeltaParts(choice.delta, codec);
      if |parts| == 0 && NoFinishReason(choice.finishReason) then Response([], None)
      else
        Response(
          [Candidate(Content("model", parts), choice.index, MapFinishReason(choice.finishReason))],
          ConvertUsageIfAny(chunk.usage))
  }

  /** A chunk gives no candidate exactly when it has no choice, or its first
      choice has neither parts nor a finish reason; otherwise it gives one model
      candidate holding the delta's parts, with the choice's own index and
      mapped finish reason, and the chunk's usage. */
  lemma ChunkResponseShape(chunk: Chunk, codec: JsonCodec)
    ensures var r := ChunkResponse(chunk, codec);
            |r.candidates| <= 1
    ensures var r := ChunkResponse(chunk, codec);
            |r.candidates| == 0 <==>
              |chunk.choices| == 0
              || (|DeltaParts(chunk.choices[0].delta, codec)| == 0 && NoFinishReason(chunk.choices[0].finishReason))
    ensures var r := ChunkResponse(chunk, codec);
            |r.candidates| == 0 ==> r.usageMetadata.None?
    ensures var r := ChunkResponse(chunk, codec);
            |r.candidates| == 1 ==>
              var choice := chunk.choices[0];
              && r.candidates[0].content == Content("model", DeltaParts(choice.delta, codec))
              && r.candidates[0].index == choice.index
              && r.candidates[0].finishReason == MapFinishReason(choice.finishReason)
              && r.usageMetadata == ConvertUsageIfAny(chunk.usage)
  {
  }

  /** A chunk without choices gives no candidate and loses any usage it carries. */
  lemma ChoicelessChunkDropsUsage(usage: Usage, codec: JsonCodec)
    ensures ChunkResponse(Chunk([], Some(usage)), codec) == Response([], None)
  {
  }

  /** `convertChunkToGeminiResponse`: the parts list is built by appending. */
  method ConvertChunk(chunk: Chunk, codec: JsonCodec) returns (r: Response)
    ensures r == ChunkResponse(chunk, codec)
  {
    if |chunk.choices| == 0 {
      return Response([], None);
    }
    var choice := chunk.choices[0];
    var delta := choice.delta;
    var parts: seq<Part> := [];
    if delta.content != "" {
      parts := parts + [Text(delta.content)];
    }
    var textParts := parts;
    var i := 0;
    while i < |delta.toolCalls|
      invariant 0 <= i <= |delta.toolCalls|
      invariant parts == textParts + FragmentParts(delta.toolCalls[..i], codec)
    {
      var toolCall := delta.toolCalls[i];
      assert delta.toolCalls[..i + 1][..i] == delta.toolCalls[..i];
      if toolCall.name != "" {
        var args := if toolCall.arguments != "" then codec.parse(toolCall.arguments) else Some(EmptyObject);
        if args.Some? {
          parts := parts + [FunctionCall("", toolCall.name, args)];
        }
      }
      i := i + 1;
    }
    assert delta.toolCalls[..i] == delta.toolCalls;
    assert parts == DeltaParts(delta, codec);
    if |parts| == 0 && NoFinishReason(choice.finishReason) {
      return Response([], None);
    }
    var candidate := Candidate(Content("model", parts), choice.index, MapFinishReason(choice.finishReason));
    var usage := None;
    if chunk.usage.Some? {
      usage := Some(ConvertUsage(chunk.usage.value));
    }
    assert usage == ConvertUsageIfAny(chunk.usage);
    r := Response([candidate], usage);
  }

  // ---------------------------------------------------------------------------
  // Single shot: a whole completion

  const NoChoicesMessage: string := "No choices in OpenRouter response"

  /** The function-call parts of a completion's tool calls, in order; the
      first call whose arguments do not parse makes the whole conversion fail. */
  function CompletionToolParts(calls: seq<ToolCall>, codec: JsonCodec): (r: Result<seq<Part>, Thrown>)
    ensures r.Success? ==> |r.value| == |calls|
    ensures r.Failure? ==> r.error.JsonSyntaxError?
  {
    if calls == [] then Success([])
    else
      var call := calls[|calls| - 1];
      match CompletionToolParts(calls[..|calls| - 1], codec)
      case Failure(e) => Failure(e)
      case Success(parts) =>
        match codec.parse(call.arguments)
        case None => Failure(JsonSyntaxError(call.arguments))
        case Some(args) => Success(parts + [FunctionCall("", call.name, Some(args))])
  }

  /** Once a prefix of the calls fails, the whole list fails with the same error. */
  lemma {:induction false} CompletionFailurePersists(calls: seq<ToolCall>, i: nat, codec: JsonCodec)
    requires i <= |calls|
    requires CompletionToolParts(calls[..i], codec).Failure?
    ensures CompletionToolParts(calls, codec) == CompletionToolParts(calls[..i], codec)
    decreases |calls| - i
  {
    if i < |calls| {
      assert calls[..i + 1][..i] == calls[..i];
      CompletionFailurePersists(calls, i + 1, codec);
    } else {
      assert calls[..i] == calls;
    }
  }

  /** The calls convert exactly when every call's arguments parse, and then into
      one call part per tool call, in order, with its name and parsed arguments. */
  lemma {:induction false} CompletionToolPartsSucceed(calls: seq<ToolCall>, codec: JsonCodec)
    ensures CompletionToolParts(calls, codec).Success? <==>
              forall k :: 0 <= k < |calls| ==> codec.parse(calls[k].arguments).Some?
    ensures CompletionToolParts(calls, codec).Success? ==>
              forall k :: 0 <= k < |calls| ==>
                CompletionToolParts(calls, codec).value[k] == FunctionCall("", calls[k].name, codec.parse(calls[k].arguments))
  {
    if calls != [] {
      var prefix := calls[..|calls| - 1];
      CompletionToolPartsSucceed(prefix, codec);
      assert forall k :: 0 <= k < |prefix| ==> prefix[k] == calls[k];
    }
  }

  /** The error is the syntax error for the first call whose arguments do not parse. */
  lemma FirstUnparsableCallFails(calls: seq<ToolCall>, k: nat, codec: JsonCodec)
    requires k < |calls| && codec.parse(calls[k].arguments).None?
    requires forall j :: 0 <= j < k ==> codec.parse(calls[j].arguments).Some?
    ensures CompletionToolParts(calls, codec) == Failure(JsonSyntaxError(calls[k].arguments))
  {
    var prefix := calls[..k];
    assert forall j :: 0 <= j < |prefix| ==> prefix[j] == calls[j];
    CompletionToolPartsSucceed(prefix, codec);
    assert calls[..k + 1][..k] == prefix;
    CompletionFailurePersists(calls, k + 1, codec);
  }

  /** The unified response for a whole completion, or the error it throws. */
  function CompletionResponse(completion: Completion, codec: JsonCodec): Result<Response, Thrown> {
    if |completion.choices| == 0 then Failure(PlainError(NoChoicesMessage))
    else
      var choice := completion.choices[0];
      var text := if choice.message.content != "" then [Text(choice.message.content)] else [];
      match CompletionToolParts(choice.message.toolCalls, codec)
      case Failure(e) => Failure(e)
      case Success(calls) =>
        Success(Response(
          [Candidate(Content("model", text + calls), 0, MapFinishReason(choice.finishReason))],
          ConvertUsageIfAny(completion.usage)))
  }

  /** A completion without choices fails with the "no choices" error, and only
      such a completion does. Any other succeeds exactly when every tool call's
      arguments parse, and then yields one model candidate at index 0 whose
      parts are the text (only when non-empty) followed by one call per tool
      call, in order, with its name and parsed arguments; otherwise it fails
      with a JSON syntax error. */
  lemma CompletionResponseShape(completion: Completion, codec: JsonCodec)
    ensures CompletionResponse(completion, codec) == Failure(PlainError(NoChoicesMessage)) <==> |completion.choices| == 0
    ensures |completion.choices| > 0 ==>
              (CompletionResponse(completion, codec).Success? <==>
                 forall k :: 0 <= k < |completion.choices[0].message.toolCalls| ==>
                   codec.parse(completion.choices[0].message.toolCalls[k].arguments).Some?)
    ensures var r := CompletionResponse(completion, codec);
            r.Success? ==>
              var message := completion.choices[0].message;
              var offset := if message.content != "" then 1 else 0;
              && |r.value.candidates| == 1
              && r.value.candidates[0].index == 0
              && r.value.candidates[0].content.role == "model"
              && |r.value.candidates[0].content.parts| == offset + |message.toolCalls|
              && (message.content != "" ==> r.value.candidates[0].content.parts[0] == Text(message.content))
              && (forall k :: 0 <= k < |message.toolCalls| ==>
                    r.value.candidates[0].content.parts[offset + k]
                    == FunctionCall("", message.toolCalls[k].name, codec.parse(message.toolCalls[k].arguments)))
              && r.value.candidates[0].finishReason == MapFinishReason(completion.choices[0].finishReason)
              && r.value.usageMetadata == ConvertUsageIfAny(completion.usage)
    ensures var r := CompletionResponse(completion, codec);
            r.Failure? && |completion.choices| > 0 ==> r.error.JsonSyntaxError?
  {
    if |completion.choices| > 0 {
      CompletionToolPartsSucceed(completion.choices[0].message.toolCalls, codec);
    }
  }

  /** `convertToGeminiResponse`: the parts list is built by appending, and the
      first unparsable arguments string ends the conversion with an error. */
  method ConvertCompletion(completion: Completion, codec: JsonCodec) returns (r: Result<Response, Thrown>)
    ensures r == CompletionResponse(completion, codec)
  {
    if |completion.choices| == 0 {
      return Failure(PlainError(NoChoicesMessage));
    }
    var choice := completion.choices[0];
    var calls := choice.message.toolCalls;
    var parts: seq<Part> := [];
    if choice.message.content != "" {
      parts := parts + [Text(choice.message.content)];
    }
    var textParts := parts;
    var i := 0;
    while i < |calls|
      invariant 0 <= i <= |calls|
      invariant CompletionToolParts(calls[..i], codec).Success?
      invariant parts == textParts + CompletionToolParts(calls[..i], codec).value
    {
      assert calls[..i + 1][..i] == calls[..i];
      var args := codec.parse(calls[i].arguments);
      if args.None? {
        CompletionFailurePersists(calls, i + 1, codec);
        assert CompletionToolParts(calls, codec) == Failure(JsonSyntaxError(calls[i].arguments));
        return Failure(JsonSyntaxError(calls[i].arguments));
      }
      parts := parts + [FunctionCall("", calls[i].name, args)];
      i := i + 1;
    }
    assert calls[..i] == calls;
    assert parts == (if choice.message.content != "" then [Text(choice.message.content)] else []) + CompletionToolParts(calls, codec).value;
    var candidate := Candidate(Content("model", parts), 0, MapFinishReason(choice.finishReason));
    var usage := None;
    if completion.usage.Some? {
      usage := Some(ConvertUsage(completion.usage.value));
    }
    assert usage == ConvertUsageIfAny(completion.usage);
    r := Success(Response([candidate], usage));
  }
}
