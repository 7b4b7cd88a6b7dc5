/** Normalisation of whatever a call throws into a plain `Error`, and the
    fixed failure of the unsupported embedding operation. */
module Errors {
  import opened Wrappers
  import opened Strings

  /** A thrown JavaScript value. `ApiError` is an instance of the client
      library's API error (its status may be undefined); `PlainError` any other
      `Error`; `JsonSyntaxError` the `SyntaxError` that `JSON.parse` throws for
      `text`; `NonError` a thrown value that is not an `Error`, given by its
      `String(...)` form. */
  datatype Thrown =
    | ApiError(status: Option<int>, message: string)
    | PlainError(message: string)
    | JsonSyntaxError(text: string)
    | NonError(text: string)
  {
    /** `instanceof Error` */
    predicate IsErrorInstance() {
      !NonError?
    }
  }

  /** `${error.status}` */
  function StatusText(status: Option<int>): string {
    match status
    case Some(code) => IntToString(code)
    case None => "undefined"
  }

  /** The message of a normalised provider error. */
  function ApiErrorMessage(status: Option<int>, message: string): string {
    "OpenRouter API error (" + StatusText(status) + "): " + message
  }

  /** API errors become plain errors carrying status and message; every other
      error passes through unchanged; a non-error value is wrapped. */
  function ConvertError(error: Thrown): (r: Thrown)
    ensures r.IsErrorInstance() && !r.ApiError?
    ensures error.ApiError? ==> r == PlainError(ApiErrorMessage(error.status, error.message))
    ensures error.IsErrorInstance() && !error.ApiError? ==> r == error
    ensures error.NonError? ==> r == PlainError(error.text)
  {
    match error
    case ApiError(status, message) => PlainError(ApiErrorMessage(status, message))
    case NonError(text) => PlainError(text)
    case _ => error
  }

  /** Normalising twice is normalising once. */
  lemma ConvertErrorIdempotent(error: Thrown)
    ensures ConvertError(ConvertError(error)) == ConvertError(error)
  {
  }

  /** The normalised message of an API error holds both its status and its message. */
  lemma ApiErrorFidelity(status: int, message: string)
    ensures exists i :: OccursAt(ConvertError(ApiError(Some(status), message)).message, IntToString(status), i)
    ensures exists i :: OccursAt(ConvertError(ApiError(Some(status), message)).message, message, i)
  {
    var prefix := "OpenRouter API error (";
    var code := IntToString(status);
    var m := ConvertError(ApiError(Some(status), message)).message;
    assert m == prefix + code + "): " + message;
    assert m[|prefix|..|prefix| + |code|] == code;
    assert OccursAt(m, code, |prefix|);
    assert m[|m| - |message|..] == message;
    assert OccursAt(m, message, |m| - |message|);
  }

  /** Status 429 renders as "429". */
  lemma RateLimitStatusText()
    ensures StatusText(Some(429)) == "429"
  {
    assert NatToString(4) == "4";
    assert NatToString(42) == NatToString(4) + [Digit(2)];
    assert NatToString(429) == NatToString(42) + [Digit(9)];
  }

  const EmbeddingsUnsupported: string := "Embeddings are not supported through OpenRouter for Gemini models"

  /** An embedding request, whatever it holds. */
  datatype EmbedRequest = EmbedRequest(model: string, contents: seq<string>)

  /** Embedding always fails with the same error, whatever the request. */
  function EmbedContent(request: EmbedRequest): (r: Result<(), Thrown>)
    ensures r == Failure(PlainError(EmbeddingsUnsupported))
  {
    Failure(PlainError(EmbeddingsUnsupported))
  }
}
