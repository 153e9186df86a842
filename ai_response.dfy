/** The reply flow (src/ai/flows/generate-ai-response.ts): whatever the prompt
    call returns or throws becomes a reply whose text is never blank. The model
    call itself is an input. */
module AiResponse {
  import opened Types
  import opened Text

  /** The runtime value of `output.responseText`. */
  datatype ResponseField = Missing | Str(s: string) | NotAString

  datatype PromptOutput = PromptOutput(responseText: ResponseField)

  /** How the awaited prompt call ended: it threw, or it resolved with an
      `output` that may be missing. */
  datatype PromptCall = Threw | Returned(output: Option<PromptOutput>)

  datatype AiResponseOutput = AiResponseOutput(responseText: string)

  const InvalidOutputFallback :=
    "I seem to be having trouble formulating a full response. Could you try rephrasing or asking something different?"
  const ErrorFallback :=
    "I encountered an unexpected issue processing your request. Please try again in a moment."

  /** The prompt produced a string `responseText` with a non-whitespace character. */
  predicate UsableOutput(call: PromptCall) {
    && call.Returned? && call.output.Some?
    && call.output.value.responseText.Str?
    && Trim(call.output.value.responseText.s) != ""
  }

  /** `generateAiResponse`. It never rejects: a usable output is passed on
      unchanged, an unusable one and an exception each map to a fixed text. */
  function GenerateAiResponse(call: PromptCall): (r: AiResponseOutput)
    ensures Trim(r.responseText) != ""
    ensures UsableOutput(call) ==> r.responseText == call.output.value.responseText.s
    ensures call.Returned? && !UsableOutput(call) ==> r.responseText == InvalidOutputFallback
    ensures call.Threw? ==> r.responseText == ErrorFallback
  {
    match call
    case Threw =>
      assert ErrorFallback[|ErrorFallback| - 1] == '.';
      NonWhitespaceSurvivesTrim(ErrorFallback, |ErrorFallback| - 1);
      AiResponseOutput(ErrorFallback)
    case Returned(output) =>
      if !UsableOutput(call) then
        assert InvalidOutputFallback[|InvalidOutputFallback| - 1] == '?';
        NonWhitespaceSurvivesTrim(InvalidOutputFallback, |InvalidOutputFallback| - 1);
        AiResponseOutput(InvalidOutputFallback)
      else
        AiResponseOutput(output.value.responseText.s)
  }

  /** The reply text is never all whitespace, and so never empty. */
  lemma ReplyNeverBlank(call: PromptCall)
    ensures !Blank(GenerateAiResponse(call).responseText)
    ensures GenerateAiResponse(call).responseText != ""
  {
    TrimEmptyIffBlank(GenerateAiResponse(call).responseText);
  }
}
