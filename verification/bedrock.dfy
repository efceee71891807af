/** `src/bedrock_wrapper.py`: choosing the model id and generation profile and
    prompting the model.

    The cloud side is a `Backend` of three collaborators: the outcome of creating the
    service client, the outcome of constructing the model object, and the model
    invocation itself.
 */
module Bedrock {
  import opened Common
  import opened Text
  import opened Config

  const IntentOperation: string := "intent"
  const ParsingOperation: string := "parsing"

  /** A request to prompt the model: what `prompt_llm(prompt, operation_type, change_llm)` is given. */
  datatype LlmRequest = LlmRequest(prompt: string, operationType: string, changeLlm: bool)

  /** A constructed model object: the id it serves and the profile it was built with. */
  datatype Llm = Llm(modelId: string, kwargs: Kwargs)

  /** The cloud collaborators. `clientFailure` is the message of the exception `boto3.client`
      raises, if it raises; `constructFailure` likewise for constructing the model object;
      `invoke` is the model call, whose exceptions escape unchanged. */
  datatype Backend = Backend(
    clientFailure: Option<string>,
    constructFailure: Llm -> Option<string>,
    invoke: (Llm, string) -> Result<string>)

  /** The profile family a model id belongs to, when it belongs to one: "mistral" is
      tested before "llama", both case-sensitively. */
  function IdFamily(modelId: string): Option<Family> {
    if Contains(modelId, "mistral") then Some(MistralFamily)
    else if Contains(modelId, "llama") then Some(LlamaFamily)
    else None
  }

  /** The family a generation profile is written for. */
  function KwargsFamily(kw: Kwargs): Family {
    match kw
    case LlamaKwargs(_) => LlamaFamily
    case MistralKwargs(_, _) => MistralFamily
  }

  /** The (model family x task) lookup of `setup_model_kwargs`, with its two error cases. */
  function SetupModelKwargs(modelId: string, operationType: string): (r: Result<Kwargs>)
    ensures r == Raise(ValueError("Invalid model ID.")) <==> IdFamily(modelId).None?
    ensures r == Raise(ValueError("Invalid operation type.")) <==>
                IdFamily(modelId).Some? && operationType != IntentOperation && operationType != ParsingOperation
    ensures r.Ok? ==> IdFamily(modelId) == Some(KwargsFamily(r.value))
    ensures r.Ok? ==> MaxOutput(r.value) == (if operationType == IntentOperation then 1 else 200)
    ensures r.Ok? && r.value.MistralKwargs? ==> r.value.topK == LlmTopK
    ensures r.Ok? ==> PromptFamily(modelId) == KwargsFamily(r.value)
    ensures IdFamily(modelId) == Some(MistralFamily) && operationType == IntentOperation ==> r == Ok(MistralIntentKwargs)
    ensures IdFamily(modelId) == Some(MistralFamily) && operationType == ParsingOperation ==> r == Ok(MistralParsingKwargs)
    ensures IdFamily(modelId) == Some(LlamaFamily) && operationType == IntentOperation ==> r == Ok(LlamaIntentKwargs)
    ensures IdFamily(modelId) == Some(LlamaFamily) && operationType == ParsingOperation ==> r == Ok(LlamaParsingKwargs)
  {
    if Contains(modelId, "mistral") then
      if operationType == IntentOperation then Ok(MistralIntentKwargs)
      else if operationType == ParsingOperation then Ok(MistralParsingKwargs)
      else Raise(ValueError("Invalid operation type."))
    else if Contains(modelId, "llama") then
      if operationType == IntentOperation then Ok(LlamaIntentKwargs)
      else if operationType == ParsingOperation then Ok(LlamaParsingKwargs)
      else Raise(ValueError("Invalid operation type."))
    else Raise(ValueError("Invalid model ID."))
  }

  /** The model id `setup_llm` serves: the alternate exactly when it is asked for. */
  function SelectModelId(models: ModelConfig, alternate: bool): string {
    if alternate then models.alternate else models.primary
  }

  /** `setup_llm`: the profile is derived from the same id the model object is built
      for; a profile error escapes as it is, while a construction failure is wrapped. */
  function SetupLlm(backend: Backend, models: ModelConfig, operationType: string, alternate: bool): (r: Result<Llm>)
    ensures r.Ok? ==> r.value.modelId == SelectModelId(models, alternate)
    ensures r.Ok? ==> SetupModelKwargs(r.value.modelId, operationType) == Ok(r.value.kwargs)
    ensures r.Ok? ==> backend.constructFailure(r.value).None?
    ensures SetupModelKwargs(SelectModelId(models, alternate), operationType).Raise? ==>
                r == SetupModelKwargs(SelectModelId(models, alternate), operationType).PropagateFailure()
    ensures var id := SelectModelId(models, alternate);
            SetupModelKwargs(id, operationType).Ok? ==>
              var llm := Llm(id, SetupModelKwargs(id, operationType).value);
              && (backend.constructFailure(llm).None? ==> r == Ok(llm))
              && (backend.constructFailure(llm).Some? ==>
                    r == Raise(RuntimeError("Failed to setup Bedrock: " + backend.constructFailure(llm).value)))
    ensures r.Raise? ==> r.error.ValueError? || r.error.RuntimeError?
  {
    var modelId := SelectModelId(models, alternate);
    var kwargs :- SetupModelKwargs(modelId, operationType);
    var llm := Llm(modelId, kwargs);
    match backend.constructFailure(llm)
    case Some(m) => Raise(RuntimeError("Failed to setup Bedrock: " + m))
    case None => Ok(llm)
  }

  /** `prompt_llm`: create the client, set up the model (the alternate one exactly when
      `changeLlm`), and pass the prompt and the reply through unchanged. */
  function PromptLlm(backend: Backend, models: ModelConfig, req: LlmRequest): (r: Result<string>)
    ensures backend.clientFailure.Some? ==>
                r == Raise(RuntimeError("Failed to setup Bedrock client: " + backend.clientFailure.value))
    ensures backend.clientFailure.None? && SetupLlm(backend, models, req.operationType, req.changeLlm).Raise? ==>
                r.Raise? && r.error == SetupLlm(backend, models, req.operationType, req.changeLlm).error
    ensures backend.clientFailure.None? && SetupLlm(backend, models, req.operationType, req.changeLlm).Ok? ==>
                r == backend.invoke(SetupLlm(backend, models, req.operationType, req.changeLlm).value, req.prompt)
  {
    match backend.clientFailure
    case Some(m) => Raise(RuntimeError("Failed to setup Bedrock client: " + m))
    case None =>
      var llm :- SetupLlm(backend, models, req.operationType, req.changeLlm);
      backend.invoke(llm, req.prompt)
  }

  /** The model object `prompt_llm` would invoke for a request, when setup succeeds. */
  function InvokedModel(backend: Backend, models: ModelConfig, req: LlmRequest): Option<Llm> {
    if backend.clientFailure.Some? then None
    else
      var s := SetupLlm(backend, models, req.operationType, req.changeLlm);
      if s.Ok? then Some(s.value) else None
  }

  /** Whenever a model is invoked, it is the alternate exactly when `changeLlm` is set,
      its profile fits its family and the task, and the reply is passed back unchanged. */
  lemma PromptLlmInvokesSelectedModel(backend: Backend, models: ModelConfig, req: LlmRequest)
    requires InvokedModel(backend, models, req).Some?
    ensures var llm := InvokedModel(backend, models, req).value;
      && llm.modelId == (if req.changeLlm then models.alternate else models.primary)
      && KwargsFamily(llm.kwargs) == PromptFamily(llm.modelId)
      && MaxOutput(llm.kwargs) == (if req.operationType == IntentOperation then MaxTokenOutputForIntent else MaxTokenOutputForParsing)
      && PromptLlm(backend, models, req) == backend.invoke(llm, req.prompt)
  {
  }

  /** The default primary id is a Llama id. */
  lemma LlamaIdIsLlama()
    ensures Contains(Llama3_70bModelId, "llama")
  {
    ContainsInContext("meta.", "llama", "3-70b-instruct-v1:0");
    assert Llama3_70bModelId == "meta." + "llama" + "3-70b-instruct-v1:0";
  }

  /** With the default configuration the first attempt is served by the Llama profile
      and the retry by the Mistral profile of the same task. */
  lemma DefaultProfiles()
    ensures SetupModelKwargs(DefaultModels.primary, IntentOperation) == Ok(LlamaIntentKwargs)
    ensures SetupModelKwargs(DefaultModels.alternate, IntentOperation) == Ok(MistralIntentKwargs)
    ensures SetupModelKwargs(DefaultModels.primary, ParsingOperation) == Ok(LlamaParsingKwargs)
    ensures SetupModelKwargs(DefaultModels.alternate, ParsingOperation) == Ok(MistralParsingKwargs)
  {
    LlamaIdIsNotMistral();
    LlamaIdIsLlama();
    DefaultModelFamilies();
  }
}
