/** `src/intent_identification_service.py`: build the intent prompt, read the intent
    number out of the model's reply, look it up in the catalog, and retry once on the
    alternate model when the lookup fails.
 */
module IntentService {
  import opened Common
  import opened Text
  import opened Config
  import opened Models
  import opened Bedrock
  import opened Retry

  /** The in-band failure marker returned instead of a slug. */
  const InvalidIntent: string := "invalid_intent"

  /** What `extract_integer` returns for a reply without digits. */
  const InvalidResponse: string := "invalid_response"

  /** `run` is the first maximal run of digits of `s`, and it starts at `i`. */
  predicate IsFirstDigitRun(s: string, i: int, run: string) {
    && 0 <= i && i + |run| <= |s|
    && s[i..i + |run|] == run
    && |run| >= 1 && AllDigits(run)
    && NoDigits(s[..i])
    && (i + |run| == |s| || !IsDigit(s[i + |run|]))
  }

  /** Index of the first digit of `s`, or `|s|` when there is none. */
  function FirstDigit(s: string): (i: nat)
    ensures i <= |s|
    ensures NoDigits(s[..i])
    ensures i < |s| ==> IsDigit(s[i])
  {
    if |s| == 0 || IsDigit(s[0]) then 0
    else
      var j := FirstDigit(s[1..]);
      assert s[..1 + j] == [s[0]] + s[1..][..j];
      1 + j
  }

  /** Length of the run of digits `s` starts with. */
  function LeadingDigits(s: string): (n: nat)
    ensures n <= |s|
    ensures AllDigits(s[..n])
    ensures n < |s| ==> !IsDigit(s[n])
  {
    if |s| == 0 || !IsDigit(s[0]) then 0
    else
      var n := LeadingDigits(s[1..]);
      assert s[..1 + n] == [s[0]] + s[1..][..n];
      1 + n
  }

  /** `extract_integer`: the first maximal run of digits, as text, or "invalid_response". */
  function ExtractInteger(s: string): (r: string)
    ensures NoDigits(s) <==> r == InvalidResponse
    ensures !NoDigits(s) ==> IsFirstDigitRun(s, FirstDigit(s), r)
  {
    var i := FirstDigit(s);
    if i == |s| then
      assert s[..i] == s;
      InvalidResponse
    else
      var n := LeadingDigits(s[i..]);
      var r := s[i..i + n];
      assert r == s[i..][..n];
      assert !IsDigit(InvalidResponse[0]);
      r
  }

  /** There is only one first digit run, so any run meeting the description is the one
      `ExtractInteger` returns. */
  lemma FirstDigitRunIsExtracted(s: string, i: int, run: string)
    requires IsFirstDigitRun(s, i, run)
    ensures ExtractInteger(s) == run
  {
    FirstRunStartsAtFirstDigit(s, i, run);
    FirstRunsAgree(s, i, run, ExtractInteger(s));
  }

  /** A first digit run starts at the first digit. */
  lemma FirstRunStartsAtFirstDigit(s: string, i: int, run: string)
    requires IsFirstDigitRun(s, i, run)
    ensures FirstDigit(s) == i
  {
    assert IsDigit(s[i]) by { assert s[i] == run[0]; }
    var j := FirstDigit(s);
    if j < i {
      assert false;
    } else if i < j {
      assert false;
    }
  }

  /** Two first digit runs from the same start are the same run. */
  lemma FirstRunsAgree(s: string, i: int, run1: string, run2: string)
    requires IsFirstDigitRun(s, i, run1) && IsFirstDigitRun(s, i, run2)
    ensures run1 == run2
  {
    assert forall n :: 0 <= n < |run1| ==> s[i + n] == run1[n];
    assert forall n :: 0 <= n < |run2| ==> s[i + n] == run2[n];
    assert |run1| == |run2|;
  }

  /** Pydantic's lax reading of the reply text as the integer `intent_id`: a run of
      digits reads as its decimal value, the marker text fails validation. */
  function ParseIntentId(text: string): (r: Option<nat>)
    ensures r.Some? <==> |text| >= 1 && AllDigits(text)
  {
    if |text| >= 1 && AllDigits(text) then Some(DecimalValue(text)) else None
  }

  /** Rendering a number and reading it back gives the number. */
  lemma ParseIntentIdRoundTrip(n: nat)
    ensures ParseIntentId(NatToString(n)) == Some(n)
    ensures ParseIntentId(InvalidResponse).None?
  {
    assert !IsDigit(InvalidResponse[0]);
  }

  /** `k` is the first catalog entry, in catalog order, whose id is `id`. */
  predicate IsFirstMatch(intents: seq<Intent>, id: int, k: int) {
    && 0 <= k < |intents|
    && intents[k].id == id
    && forall j :: 0 <= j < k ==> intents[j].id != id
  }

  /** Index of the first entry with id `id`, or `|intents|`. */
  function FindIntent(intents: seq<Intent>, id: int): (k: nat)
    ensures k <= |intents|
    ensures k < |intents| ==> IsFirstMatch(intents, id, k)
    ensures k == |intents| ==> forall j :: 0 <= j < |intents| ==> intents[j].id != id
  {
    if |intents| == 0 then 0
    else if intents[0].id == id then 0
    else
      var k := FindIntent(intents[1..], id);
      assert forall j :: 1 <= j < |intents| ==> intents[j] == intents[1..][j - 1];
      1 + k
  }

  /** `validate_llm_response`: the slug of the first catalog entry whose id is the
      reply's first number, else "invalid_intent". */
  function ValidateLlmResponse(response: string, intents: seq<Intent>): (r: string)
    ensures NoDigits(response) ==> r == InvalidIntent
    ensures !NoDigits(response) && (forall k :: 0 <= k < |intents| ==> intents[k].id != DecimalValue(ExtractInteger(response))) ==>
              r == InvalidIntent
    ensures r != InvalidIntent ==>
              !NoDigits(response) &&
              exists k :: IsFirstMatch(intents, DecimalValue(ExtractInteger(response)), k) && intents[k].slug == r
  {
    match ParseIntentId(ExtractInteger(response))
    case None => InvalidIntent
    case Some(id) =>
      var k := FindIntent(intents, id);
      if k < |intents| then intents[k].slug else InvalidIntent
  }

  /** The result is fixed by the first digit run alone: whenever `run` is that run and
      `k` the first entry with its value, the result is entry `k`'s slug. */
  lemma ValidateSelectsFirstMatch(response: string, intents: seq<Intent>, i: int, run: string, k: int)
    requires IsFirstDigitRun(response, i, run)
    requires IsFirstMatch(intents, DecimalValue(run), k)
    ensures ValidateLlmResponse(response, intents) == intents[k].slug
  {
    FirstDigitRunIsExtracted(response, i, run);
    var f := FindIntent(intents, DecimalValue(run));
    if f < k {
      assert false;
    } else if k < f {
      assert false;
    }
  }

  /** A first number that no catalog entry carries yields the marker. */
  lemma ValidateRejectsUnknownId(response: string, intents: seq<Intent>, i: int, run: string)
    requires IsFirstDigitRun(response, i, run)
    requires forall k :: 0 <= k < |intents| ==> intents[k].id != DecimalValue(run)
    ensures ValidateLlmResponse(response, intents) == InvalidIntent
  {
    FirstDigitRunIsExtracted(response, i, run);
  }

  /** Whatever follows the number, if it does not begin with a digit, is ignored. */
  lemma TextAfterNumberIgnored(n: nat, rest: string, intents: seq<Intent>)
    requires |rest| == 0 || !IsDigit(rest[0])
    ensures ValidateLlmResponse(NatToString(n) + rest, intents) == ValidateLlmResponse(NatToString(n), intents)
  {
    var d := NatToString(n);
    assert (d + rest)[..|d|] == d;
    assert d[..0] == [] && (d + rest)[..0] == [];
    assert IsFirstDigitRun(d + rest, 0, d);
    assert d[..|d|] == d;
    assert IsFirstDigitRun(d, 0, d);
    FirstDigitRunIsExtracted(d + rest, 0, d);
    FirstDigitRunIsExtracted(d, 0, d);
  }

  /** A leading minus sign is not part of the number: "-n" selects what "n" selects. */
  lemma SignIsDropped(n: nat, intents: seq<Intent>)
    ensures ValidateLlmResponse("-" + NatToString(n), intents) == ValidateLlmResponse(NatToString(n), intents)
  {
    var d := NatToString(n);
    var s := "-" + d;
    assert s[1..1 + |d|] == d;
    assert s[..1] == "-";
    assert IsFirstDigitRun(s, 1, d);
    assert d[..|d|] == d;
    assert d[..0] == [];
    assert IsFirstDigitRun(d, 0, d);
    FirstDigitRunIsExtracted(s, 1, d);
    FirstDigitRunIsExtracted(d, 0, d);
  }

  /** A catalog line echoed back by the model selects the first entry with its id; the
      slug and description in the echo play no part. */
  lemma EchoedEntrySelects(intents: seq<Intent>, k: int)
    requires 0 <= k < |intents| && intents[k].id >= 0
    requires IsFirstMatch(intents, intents[k].id, k)
    ensures ValidateLlmResponse(IntentText(intents[k]), intents) == intents[k].slug
  {
    var d := NatToString(intents[k].id);
    var rest := " = " + intents[k].slug + ": " + intents[k].description;
    assert IntentText(intents[k]) == d + rest;
    TextAfterNumberIgnored(intents[k].id, rest, intents);
    assert d[..|d|] == d;
    assert d[..0] == [];
    assert IsFirstDigitRun(d, 0, d);
    ValidateSelectsFirstMatch(d, intents, 0, d, k);
  }

  /** Numbers read from replies are never negative, so an entry with a negative id can
      never be selected. */
  lemma NegativeIdsNeverMatch(response: string, intents: seq<Intent>)
    requires forall k :: 0 <= k < |intents| ==> intents[k].id < 0
    ensures ValidateLlmResponse(response, intents) == InvalidIntent
  {
  }

  /** A two-entry sample catalog (request_translation, interpreter_booking). */
  const SampleCatalog: seq<Intent> := [
    Intent(1, "request_translation", "Request translation"),
    Intent(2, "interpreter_booking", "Interpreter booking")]

  /** "1" selects the first entry. */
  lemma SampleReplySelects()
    ensures ValidateLlmResponse("1", SampleCatalog) == "request_translation"
  {
    assert IsFirstDigitRun("1", 0, "1");
    ValidateSelectsFirstMatch("1", SampleCatalog, 0, "1", 0);
  }

  /** "3" selects nothing, and an empty catalog selects nothing. */
  lemma SampleRepliesReject()
    ensures ValidateLlmResponse("3", SampleCatalog) == InvalidIntent
    ensures ValidateLlmResponse("1", []) == InvalidIntent
  {
    assert IsFirstDigitRun("3", 0, "3");
    ValidateRejectsUnknownId("3", SampleCatalog, 0, "3");
    assert IsFirstDigitRun("1", 0, "1");
    ValidateRejectsUnknownId("1", [], 0, "1");
  }

  /** `generate_prompt`: the intent template of the Mistral family exactly when the
      primary model id contains "mistral", filled with the intent list and the
      conversation. */
  function GeneratePrompt(format: Formatter, models: ModelConfig, req: IntentRequest): (p: string)
    ensures Contains(models.primary, "mistral") ==>
              p == format(Template(MistralFamily, IntentTask), RenderIntents(req.intents), RenderMessages(req.messages))
    ensures !Contains(models.primary, "mistral") ==>
              p == format(Template(LlamaFamily, IntentTask), RenderIntents(req.intents), RenderMessages(req.messages))
  {
    format(Template(PromptFamily(models.primary), IntentTask), RenderIntents(req.intents), RenderMessages(req.messages))
  }

  /** `identify_intent`: one prompt, at most two model calls, the second on the alternate
      model only after the marker; the last validated result is returned. */
  function IdentifyIntent(llm: LlmRequest -> Result<string>, format: Formatter, models: ModelConfig, req: IntentRequest): (run: Attempts<string>)
    ensures 1 <= |run.calls| <= 2
    ensures forall k :: 0 <= k < |run.calls| ==>
              run.calls[k] == LlmRequest(GeneratePrompt(format, models, req), IntentOperation, k == 1)
    ensures |run.calls| == 2 <==>
              llm(run.calls[0]).Ok? && ValidateLlmResponse(llm(run.calls[0]).value, req.intents) == InvalidIntent
    ensures run.outcome.Raise? <==> llm(run.calls[|run.calls| - 1]).Raise?
    ensures run.outcome.Raise? ==> run.outcome.error == llm(run.calls[|run.calls| - 1]).error
    ensures run.outcome.Ok? ==> run.outcome.value == ValidateLlmResponse(llm(run.calls[|run.calls| - 1]).value, req.intents)
    ensures run.outcome.Ok? && run.outcome.value != InvalidIntent ==>
              exists k :: 0 <= k < |req.intents| && req.intents[k].slug == run.outcome.value
  {
    TwoAttempts(GeneratePrompt(format, models, req), IntentOperation, llm,
                s => ValidateLlmResponse(s, req.intents), s => s == InvalidIntent)
  }

  /** A catalog entry whose slug is literally "invalid_intent", when selected on the first
      attempt, is mistaken for failure and causes the retry. */
  lemma SentinelSlugTriggersRetry(llm: LlmRequest -> Result<string>, format: Formatter, models: ModelConfig, req: IntentRequest, k: int)
    requires 0 <= k < |req.intents| && req.intents[k].id >= 0
    requires IsFirstMatch(req.intents, req.intents[k].id, k)
    requires req.intents[k].slug == InvalidIntent
    requires llm(LlmRequest(GeneratePrompt(format, models, req), IntentOperation, false)) == Ok(NatToString(req.intents[k].id))
    ensures |IdentifyIntent(llm, format, models, req).calls| == 2
  {
    var d := NatToString(req.intents[k].id);
    assert d[..|d|] == d;
    assert d[..0] == [];
    assert IsFirstDigitRun(d, 0, d);
    ValidateSelectsFirstMatch(d, req.intents, 0, d, k);
  }

  /** The prompt depends on the primary model id, never on the alternate one; so with
      the default models the retry sends a Llama-template prompt to a Mistral model. */
  lemma RetryKeepsPrimaryTemplate(format: Formatter, models: ModelConfig, alternate: string, req: IntentRequest)
    ensures GeneratePrompt(format, models, req) == GeneratePrompt(format, ModelConfig(models.primary, alternate), req)
    ensures GeneratePrompt(format, DefaultModels, req) ==
              format(Template(LlamaFamily, IntentTask), RenderIntents(req.intents), RenderMessages(req.messages))
    ensures SetupModelKwargs(DefaultModels.alternate, IntentOperation) == Ok(MistralIntentKwargs)
  {
    DefaultModelFamilies();
    DefaultProfiles();
  }
}
