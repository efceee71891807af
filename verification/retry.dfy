/** The two-attempt orchestration `identify_intent` and `extract_data` share: prompt the
    primary model, validate its reply, and only when the validated result is the
    failure marker prompt the alternate model once with the same prompt and return its
    validated result, whatever it is. An exception from prompting escapes unchanged.
 */
module Retry {
  import opened Common
  import opened Bedrock

  /** The outcome of an orchestration and the model requests it made, in order. */
  datatype Attempts<T> = Attempts(outcome: Result<T>, calls: seq<LlmRequest>)

  /** Validate one prompting outcome, letting its exception through. */
  function Validated<T>(reply: Result<string>, validate: string -> T): (r: Result<T>)
    ensures r.Ok? <==> reply.Ok?
    ensures reply.Ok? ==> r.value == validate(reply.value)
    ensures reply.Raise? ==> r.error == reply.error
  {
    match reply
    case Ok(text) => Ok(validate(text))
    case Raise(e) => Raise(e)
  }

  /** Prompt with `prompt` and `operationType`, retrying once on the alternate model when
      the first validated result is `failed`. */
  function TwoAttempts<T>(
    prompt: string, operationType: string,
    llm: LlmRequest -> Result<string>, validate: string -> T, failed: T -> bool): (run: Attempts<T>)
    ensures 1 <= |run.calls| <= 2
    ensures run.calls[0] == LlmRequest(prompt, operationType, false)
    ensures |run.calls| == 2 <==>
              llm(run.calls[0]).Ok? && failed(validate(llm(run.calls[0]).value))
    ensures |run.calls| == 2 ==> run.calls[1] == LlmRequest(prompt, operationType, true)
    ensures run.outcome == Validated(llm(run.calls[|run.calls| - 1]), validate)
  {
    var first := LlmRequest(prompt, operationType, false);
    match llm(first)
    case Raise(e) => Attempts(Raise(e), [first])
    case Ok(reply) =>
      var result := validate(reply);
      if !failed(result) then Attempts(Ok(result), [first])
      else
        var second := LlmRequest(prompt, operationType, true);
        Attempts(Validated(llm(second), validate), [first, second])
  }

  /** A successful outcome that is still the failure marker means both models were asked. */
  lemma FailedOutcomeMeansTwoCalls<T>(
    prompt: string, operationType: string,
    llm: LlmRequest -> Result<string>, validate: string -> T, failed: T -> bool)
    requires TwoAttempts(prompt, operationType, llm, validate, failed).outcome.Ok?
    requires failed(TwoAttempts(prompt, operationType, llm, validate, failed).outcome.value)
    ensures |TwoAttempts(prompt, operationType, llm, validate, failed).calls| == 2
  {
  }

  /** Both attempts carry the same prompt and task; only the model choice differs. */
  lemma AttemptsShareThePrompt<T>(
    prompt: string, operationType: string,
    llm: LlmRequest -> Result<string>, validate: string -> T, failed: T -> bool)
    ensures var calls := TwoAttempts(prompt, operationType, llm, validate, failed).calls;
      forall k :: 0 <= k < |calls| ==>
        calls[k].prompt == prompt && calls[k].operationType == operationType && calls[k].changeLlm == (k == 1)
  {
  }
}
