/** The unified content model on the caller's side of the translation layer:
    multi-part contents, candidates and responses. */
module Genai {
  import opened Wrappers
  import opened Json

  /** One unit of content. Exactly one kind per part. An empty `id` or `name`
      stands for an absent one (both are falsy to the code that reads them). */
  datatype Part =
    | Text(text: string)
    | FunctionCall(id: string, name: string, args: Option<Json>)
    | FunctionResponse(name: string, response: Option<Json>)

  /** One turn. The role is the raw role string ("user", "model", ...). */
  datatype Content = Content(role: string, parts: seq<Part>)

  /** A part given where parts are expected: a bare string or a part. */
  datatype PartUnion = PartString(text: string) | PartValue(part: Part)

  /** One element of a contents list: a bare string, a list of parts, or a content. */
  datatype ContentUnion =
    | ContentString(text: string)
    | ContentParts(parts: seq<PartUnion>)
    | ContentValue(content: Content)

  /** What a request may hold as its contents: a bare string, a list, or one content. */
  datatype Contents =
    | ContentsString(text: string)
    | ContentsList(items: seq<ContentUnion>)
    | ContentsValue(content: Content)

  /** The system instruction of a request's config. `NoInstruction` covers every
      falsy value; `OtherInstruction` an object without a `parts` list. */
  datatype Instruction =
    | NoInstruction
    | InstructionString(text: string)
    | InstructionContent(content: Content)
    | OtherInstruction

  datatype FunctionDeclaration = FunctionDeclaration(name: string, description: string, parameters: Option<Json>)

  /** One entry of the tools list: a tool group with optional function
      declarations, or something that is not one (a string or a falsy value). */
  datatype ToolEntry = ToolGroup(functionDeclarations: Option<seq<FunctionDeclaration>>) | NotAGroup

  /** The tools of a request's config: absent, a single tool, or a list. */
  datatype ToolList = NoTools | SingleTool(tool: ToolEntry) | ToolArray(tools: seq<ToolEntry>)

  /** Sampling parameters are floating-point values passed through untouched. */
  type Sampling = real

  datatype Config = Config(
    systemInstruction: Instruction,
    temperature: Option<Sampling>,
    topP: Option<Sampling>,
    maxOutputTokens: Option<int>,
    tools: ToolList,
    responseMimeType: Option<string>)

  /** A generate request. An empty `model` stands for an absent one. */
  datatype GenerateRequest = GenerateRequest(model: string, contents: Contents, config: Config)

  datatype FinishReason = Stop | MaxTokens | Safety | Other

  datatype Candidate = Candidate(content: Content, index: int, finishReason: Option<FinishReason>)

  datatype UsageMetadata = UsageMetadata(promptTokenCount: int, candidatesTokenCount: int, totalTokenCount: int)

  datatype Response = Response(candidates: seq<Candidate>, usageMetadata: Option<UsageMetadata>)
}
