/** The OpenAI-compatible chat-completions wire schema. */
module Wire {
  import opened Wrappers
  import opened Json

  datatype ToolCall = ToolCall(id: string, name: string, arguments: string)

  /** A chat message. `TextMessage` carries a role and string content (system,
      user, assistant, or a role passed through); `ToolCallMessage` is an
      assistant message with `content: null` and tool calls; `ToolMessage`
      answers a tool call. */
  datatype Message =
    | TextMessage(role: string, content: string)
    | ToolCallMessage(toolCalls: seq<ToolCall>)
    | ToolMessage(toolCallId: string, content: string)
  {
    function Role(): string {
      match this
      case TextMessage(role, _) => role
      case ToolCallMessage(_) => "assistant"
      case ToolMessage(_, _) => "tool"
    }
  }

  datatype WireTool = WireTool(name: string, description: string, parameters: Option<Json>)

  datatype WireRequest = WireRequest(
    model: string,
    messages: seq<Message>,
    temperature: Option<real>,
    topP: Option<real>,
    maxTokens: int,
    tools: Option<seq<WireTool>>,
    jsonResponseFormat: bool,
    stream: bool,
    includeUsage: bool)

  /** Token usage as reported by the provider; every field may be missing. */
  datatype Usage = Usage(promptTokens: Option<int>, completionTokens: Option<int>, totalTokens: Option<int>)

  /** A streamed tool-call fragment. An empty name or arguments string stands for an absent one. */
  datatype ToolCallDelta = ToolCallDelta(name: string, arguments: string)

  /** A streamed delta. An empty content string stands for absent or null content. */
  datatype Delta = Delta(content: string, toolCalls: seq<ToolCallDelta>)

  datatype ChunkChoice = ChunkChoice(index: int, delta: Delta, finishReason: Option<string>)

  datatype Chunk = Chunk(choices: seq<ChunkChoice>, usage: Option<Usage>)

  datatype CompletionMessage = CompletionMessage(content: string, toolCalls: seq<ToolCall>)

  datatype CompletionChoice = CompletionChoice(message: CompletionMessage, finishReason: Option<string>)

  datatype Completion = Completion(choices: seq<CompletionChoice>, usage: Option<Usage>)
}
