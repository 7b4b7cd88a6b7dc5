/** The generator facade: single-shot generation, streamed generation with its
    at-least-one-item guarantee, the token estimate, and the round trips
    through the wire format. The network call is a parameter: a function from
    the wire request to what the provider answers. */
module Generator {
  import opened Wrappers
  import opened Strings
  import opened Json
  import opened Genai
  import opened Wire
  import opened FinishReasons
  import opened Errors
  import opened RequestFormat
  import opened ResponseAssembly

  // ---------------------------------------------------------------------------
  // Single shot

  /** What a generate call returns for the provider's reply: every failure
      normalised, a completion converted. */
  function GenerateContentResult(reply: Result<Completion, Thrown>, codec: JsonCodec): (r: Result<Response, Thrown>)
    ensures r.Failure? ==> r.error.IsErrorInstance() && !r.error.ApiError?
    ensures reply.Failure? && reply.error.ApiError? ==>
              r == Failure(PlainError(ApiErrorMessage(reply.error.status, reply.error.message)))
    ensures reply.Success? ==> r == CompletionResponse(reply.value, codec)
  {
    match reply
    case Failure(e) => Failure(ConvertError(e))
    case Success(completion) =>
      match CompletionResponse(completion, codec)
      case Failure(e) => Failure(ConvertError(e))
      case Success(response) => Success(response)
  }

  /** `generateContent`: build the single-shot request, send it, convert the reply. */
  method GenerateContent(
    request: GenerateRequest, defaultModel: string, codec: JsonCodec,
    transport: WireRequest -> Result<Completion, Thrown>)
    returns (r: Result<Response, Thrown>)
    ensures r == GenerateContentResult(transport(BuildRequest(request, defaultModel, codec, false)), codec)
  {
    var wireRequest := BuildRequest(request, defaultModel, codec, false);
    var reply := transport(wireRequest);
    if reply.Failure? {
      return Failure(ConvertError(reply.error));
    }
    r := ConvertCompletion(reply.value, codec);
    if r.Failure? {
      r := Failure(ConvertError(r.error));
    }
  }

  // ---------------------------------------------------------------------------
  // Streaming

  /** What the transport delivers for a streaming request: the chunks received,
      then possibly a thrown error (a request that fails outright delivers no chunk). */
  datatype StreamReply = StreamReply(chunks: seq<Chunk>, failure: Option<Thrown>)

  /** The response synthesised when no chunk had content: one empty text part, STOP. */
  const EmptyTurn: Response := Response([Candidate(Content("model", [Text("")]), 0, Some(Stop))], None)

  /** The chunk responses that have a candidate, in chunk order. */
  function VisibleResponses(chunks: seq<Chunk>, codec: JsonCodec): (r: seq<Response>)
    ensures |r| <= |chunks|
    ensures forall k :: 0 <= k < |r| ==> |r[k].candidates| == 1
  {
    if chunks == [] then []
    else
      var response := ChunkResponse(chunks[|chunks| - 1], codec);
      ChunkResponseShape(chunks[|chunks| - 1], codec);
      VisibleResponses(chunks[..|chunks| - 1], codec) + if |response.candidates| > 0 then [response] else []
  }

  /** The visible responses of a concatenation are those of each half, in order. */
  lemma {:induction false} VisibleResponsesAppend(a: seq<Chunk>, b: seq<Chunk>, codec: JsonCodec)
    ensures VisibleResponses(a + b, codec) == VisibleResponses(a, codec) + VisibleResponses(b, codec)
    decreases |b|
  {
    if b == [] {
      assert a + b == a;
    } else {
      var b' := b[..|b| - 1];
      assert (a + b)[..|a + b| - 1] == a + b';
      assert (a + b)[|a + b| - 1] == b[|b| - 1];
      VisibleResponsesAppend(a, b', codec);
    }
  }

  /** A chunk has content when its first choice carries parts or a finish reason. */
  predicate HasContent(chunk: Chunk, codec: JsonCodec) {
    |chunk.choices| > 0
    && (|DeltaParts(chunk.choices[0].delta, codec)| > 0 || !NoFinishReason(chunk.choices[0].finishReason))
  }

  /** No response is visible exactly when no chunk has content. */
  lemma {:induction false} NothingVisible(chunks: seq<Chunk>, codec: JsonCodec)
    ensures VisibleResponses(chunks, codec) == [] <==> forall k :: 0 <= k < |chunks| ==> !HasContent(chunks[k], codec)
  {
    if chunks != [] {
      var prefix := chunks[..|chunks| - 1];
      NothingVisible(prefix, codec);
      ChunkResponseShape(chunks[|chunks| - 1], codec);
      assert forall k :: 0 <= k < |prefix| ==> prefix[k] == chunks[k];
    }
  }

  /** What the stream yields, and the error it ends with, if any. */
  function StreamOutput(reply: StreamReply, codec: JsonCodec): (seq<Response>, Option<Thrown>) {
    var visible := VisibleResponses(reply.chunks, codec);
    match reply.failure
    case Some(e) => (visible, Some(ConvertError(e)))
    case None => (if visible == [] then [EmptyTurn] else visible, None)
  }

  /** A stream that ends normally yields at least one response. */
  lemma StreamNeverEmpty(reply: StreamReply, codec: JsonCodec)
    requires reply.failure.None?
    ensures |StreamOutput(reply, codec).0| >= 1
    ensures forall k :: 0 <= k < |StreamOutput(reply, codec).0| ==> |StreamOutput(reply, codec).0[k].candidates| == 1
  {
  }

  /** A stream whose chunks never carry content or a finish reason yields
      exactly the synthesised empty STOP turn. */
  lemma ContentlessStreamYieldsEmptyTurn(chunks: seq<Chunk>, codec: JsonCodec)
    requires forall k :: 0 <= k < |chunks| ==> !HasContent(chunks[k], codec)
    ensures StreamOutput(StreamReply(chunks, None), codec) == ([EmptyTurn], None)
  {
    NothingVisible(chunks, codec);
  }

  /** A stream with content yields the chunk responses that have a candidate
      and nothing else; an error ends the stream without the synthesised turn. */
  lemma StreamWithContentYieldsVisible(reply: StreamReply, codec: JsonCodec, k: nat)
    requires k < |reply.chunks| && HasContent(reply.chunks[k], codec)
    ensures StreamOutput(reply, codec).0 == VisibleResponses(reply.chunks, codec)
  {
    var chunks := reply.chunks;
    assert chunks == chunks[..k + 1] + chunks[k + 1..];
    VisibleResponsesAppend(chunks[..k + 1], chunks[k + 1..], codec);
    assert chunks[..k + 1][..k] == chunks[..k];
    ChunkResponseShape(chunks[k], codec);
  }

  /** Two text deltas followed by a content-less STOP chunk with usage yield
      three responses, the last one carrying the STOP reason and the usage. */
  lemma TwoDeltasThenStop(u: Usage, codec: JsonCodec)
    ensures var chunks := [
              Chunk([ChunkChoice(0, Delta("a", []), None)], None),
              Chunk([ChunkChoice(0, Delta("b", []), None)], None),
              Chunk([ChunkChoice(0, Delta("", []), Some("stop"))], Some(u))];
            StreamOutput(StreamReply(chunks, None), codec) == ([
              Response([Candidate(Content("model", [Text("a")]), 0, None)], None),
              Response([Candidate(Content("model", [Text("b")]), 0, None)], None),
              Response([Candidate(Content("model", []), 0, Some(Stop))], Some(ConvertUsage(u)))], None)
  {
    var chunks := [
      Chunk([ChunkChoice(0, Delta("a", []), None)], None),
      Chunk([ChunkChoice(0, Delta("b", []), None)], None),
      Chunk([ChunkChoice(0, Delta("", []), Some("stop"))], Some(u))];
    var a := Response([Candidate(Content("model", [Text("a")]), 0, None)], None);
    var b := Response([Candidate(Content("model", [Text("b")]), 0, None)], None);
    var stop := Response([Candidate(Content("model", []), 0, Some(Stop))], Some(ConvertUsage(u)));
    assert FragmentParts([], codec) == [];
    assert DeltaParts(Delta("a", []), codec) == [Text("a")];
    assert DeltaParts(Delta("b", []), codec) == [Text("b")];
    assert DeltaParts(Delta("", []), codec) == [];
    assert ChunkResponse(chunks[0], codec) == a;
    assert ChunkResponse(chunks[1], codec) == b;
    assert ChunkResponse(chunks[2], codec) == stop;
    assert chunks[..1][..0] == [];
    assert VisibleResponses(chunks[..1], codec) == [a];
    assert chunks[..2][..1] == chunks[..1];
    assert VisibleResponses(chunks[..2], codec) == [a, b];
    assert chunks[..2] == chunks[..|chunks| - 1];
    assert VisibleResponses(chunks, codec) == [a, b, stop];
  }

  /** The visible responses grow by at most the next chunk's response. */
  lemma VisibleResponsesStep(chunks: seq<Chunk>, i: nat, codec: JsonCodec)
    requires i < |chunks|
    ensures var response := ChunkResponse(chunks[i], codec);
            VisibleResponses(chunks[..i + 1], codec)
            == VisibleResponses(chunks[..i], codec) + if |response.candidates| > 0 then [response] else []
  {
    assert chunks[..i + 1][..i] == chunks[..i];
  }

  /** The `hasContent` loop of `doGenerateContentStream`: yield every chunk
      response that has a candidate; if none did and the stream ended normally,
      yield the empty STOP turn; a thrown error is normalised. */
  method DoGenerateContentStream(reply: StreamReply, codec: JsonCodec)
    returns (yielded: seq<Response>, failure: Option<Thrown>)
    ensures (yielded, failure) == StreamOutput(reply, codec)
    ensures failure.None? ==> |yielded| >= 1
  {
    var hasContent := false;
    yielded := [];
    var i := 0;
    while i < |reply.chunks|
      invariant 0 <= i <= |reply.chunks|
      invariant yielded == VisibleResponses(reply.chunks[..i], codec)
      invariant hasContent <==> yielded != []
    {
      var response := ConvertChunk(reply.chunks[i], codec);
      VisibleResponsesStep(reply.chunks, i, codec);
      if |response.candidates| > 0 {
        hasContent := true;
        yielded := yielded + [response];
      }
      i := i + 1;
    }
    assert reply.chunks[..i] == reply.chunks;
    assert yielded == VisibleResponses(reply.chunks, codec);
    if reply.failure.Some? {
      return yielded, Some(ConvertError(reply.failure.value));
    }
    if !hasContent {
      yielded := [EmptyTurn];
    }
    failure := None;
  }

  /** `generateContentStream`: build the streaming request, send it, assemble the stream. */
  method GenerateContentStream(
    request: GenerateRequest, defaultModel: string, codec: JsonCodec,
    transport: WireRequest -> StreamReply)
    returns (yielded: seq<Response>, failure: Option<Thrown>)
    ensures (yielded, failure) == StreamOutput(transport(BuildRequest(request, defaultModel, codec, true)), codec)
    ensures failure.None? ==> |yielded| >= 1
  {
    var wireRequest := BuildRequest(request, defaultModel, codec, true);
    yielded, failure := DoGenerateContentStream(transport(wireRequest), codec);
  }

  // ---------------------------------------------------------------------------
  // Token estimate

  /** A turn's text: its parts' texts joined with spaces, a non-text part counting as "". */
  function ContentText(c: Content): string {
    Join(PartTexts(c.parts), " ")
  }

  function ContentTexts(cs: seq<Content>): (r: seq<string>)
    ensures |r| == |cs|
  {
    if cs == [] then [] else [ContentText(cs[0])] + ContentTexts(cs[1..])
  }

  /** All turns' texts joined with spaces. */
  function TotalText(contents: Contents): string {
    Join(ContentTexts(NormalizeContents(contents)), " ")
  }

  /** `countTokens`: one token per four characters, rounded up. */
  function CountTokens(contents: Contents): (r: nat)
    ensures 4 * r >= |TotalText(contents)|
    ensures 4 * r < |TotalText(contents)| + 4
  {
    (|TotalText(contents)| + 3) / 4
  }

  /** The characters of all text parts. */
  function TextChars(cs: seq<Content>): nat {
    if cs == [] then 0 else TotalLength(PartTexts(cs[0].parts)) + TextChars(cs[1..])
  }

  lemma JoinAtLeast(xs: seq<string>, sep: string)
    ensures |Join(xs, sep)| >= TotalLength(xs)
  {
    if xs != [] {
      JoinLength(xs, sep);
    }
  }

  lemma {:induction false} ContentTextsCoverTextChars(cs: seq<Content>)
    ensures TotalLength(ContentTexts(cs)) >= TextChars(cs)
  {
    if cs != [] {
      JoinAtLeast(PartTexts(cs[0].parts), " ");
      ContentTextsCoverTextChars(cs[1..]);
    }
  }

  /** Every character of every text part is counted: the estimate is at
      least a quarter of them. */
  lemma CountTokensCoversText(contents: Contents)
    ensures 4 * CountTokens(contents) >= TextChars(NormalizeContents(contents))
  {
    var cs := NormalizeContents(contents);
    ContentTextsCoverTextChars(cs);
    JoinAtLeast(ContentTexts(cs), " ");
  }

  /** For a bare string the estimate is the string's length divided by four, rounded up. */
  lemma CountTokensOfString(s: string)
    ensures CountTokens(ContentsString(s)) == (|s| + 3) / 4
  {
    assert PartTexts([Text(s)]) == [s];
    assert ContentTexts([Content("user", [Text(s)])]) == [s];
  }

  // ---------------------------------------------------------------------------
  // Round trips through the wire format

  /** A provider reply that echoes `text` and stops. */
  function EchoText(text: string): Completion {
    Completion([CompletionChoice(CompletionMessage(text, []), Some("stop"))], None)
  }

  /** A user turn holding one non-empty text reaches the wire as that text, and
      a reply echoing it comes back as a single text part with that text. */
  lemma TextRoundTrip(text: string, codec: JsonCodec)
    requires text != ""
    ensures ConvertContent(Content("user", [Text(text)]), codec) == [TextMessage("user", text)]
    ensures CompletionResponse(EchoText(ConvertContent(Content("user", [Text(text)]), codec)[0].content), codec)
            == Success(Response([Candidate(Content("model", [Text(text)]), 0, Some(Stop))], None))
  {
    assert CompletionToolParts([], codec) == Success([]);
    assert [Text(text)] + [] == [Text(text)];
  }

  /** An empty user text goes out as an empty message, but an echo of it
      comes back with no parts at all: the empty text is not returned. */
  lemma EmptyTextNotEchoed(codec: JsonCodec)
    ensures ConvertContent(Content("user", [Text("")]), codec) == [TextMessage("user", "")]
    ensures CompletionResponse(EchoText(""), codec)
            == Success(Response([Candidate(Content("model", []), 0, Some(Stop))], None))
  {
    assert CompletionToolParts([], codec) == Success([]);
    var noParts: seq<Part> := [];
    assert noParts + noParts == noParts;
  }

  /** A model function call sent to the wire and echoed back as the reply's
      tool call returns with the same name and arguments (absent or falsy
      arguments coming back as `{}`), provided the JSON codec round-trips them. The id
      is not carried back. */
  lemma ToolCallRoundTrip(id: string, name: string, args: Option<Json>, codec: JsonCodec)
    requires codec.parse(codec.stringify(OrEmptyObject(args))) == Some(OrEmptyObject(args))
    ensures var sent := ConvertContent(Content("model", [FunctionCall(id, name, args)]), codec);
            && |sent| == 1 && sent[0].ToolCallMessage? && |sent[0].toolCalls| == 1
            && CompletionResponse(
                 Completion([CompletionChoice(CompletionMessage("", sent[0].toolCalls), Some("tool_calls"))], None), codec)
               == Success(Response(
                    [Candidate(Content("model", [FunctionCall("", name, Some(OrEmptyObject(args)))]), 0, Some(Stop))],
                    None))
  {
    var c := Content("model", [FunctionCall(id, name, args)]);
    assert FunctionCalls(c.parts) == [FunctionCall(id, name, args)];
    var sent := ConvertContent(c, codec);
    var calls := sent[0].toolCalls;
    assert calls == [ToolCall(if id != "" then id else CallId(0), name, codec.stringify(OrEmptyObject(args)))];
    CompletionToolPartsSucceed(calls, codec);
    assert CompletionToolParts(calls, codec).value == [FunctionCall("", name, Some(OrEmptyObject(args)))];
    assert [] + [FunctionCall("", name, Some(OrEmptyObject(args)))] == [FunctionCall("", name, Some(OrEmptyObject(args)))];
  }
}
