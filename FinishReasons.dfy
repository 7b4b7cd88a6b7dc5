/** Mapping of the wire `finish_reason` onto the unified finish reasons. */
module FinishReasons {
  import opened Wrappers
  import opened Genai

  /** Null and the empty string map to no reason; every other string maps to one. */
  function MapFinishReason(reason: Option<string>): (r: Option<FinishReason>)
    ensures r.None? <==> reason.None? || reason.value == ""
    ensures reason == Some("stop") || reason == Some("function_call") || reason == Some("tool_calls")
            ==> r == Some(Stop)
    ensures reason == Some("length") ==> r == Some(MaxTokens)
    ensures reason == Some("content_filter") ==> r == Some(Safety)
    ensures reason.Some? && reason.value !in {"", "stop", "function_call", "tool_calls", "length", "content_filter"}
            ==> r == Some(Other)
  {
    match reason
    case None => None
    case Some(s) =>
      if s == "" then None
      else if s == "stop" then Some(Stop)
      else if s == "length" then Some(MaxTokens)
      else if s == "content_filter" then Some(Safety)
      else if s == "function_call" || s == "tool_calls" then Some(Stop)
      else Some(Other)
  }
}
