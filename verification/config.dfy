/** The process-wide configuration of `src/config.py`, as constants.

    Environment variables are read once at start; the model ids and the
    downstream base URL are therefore parameters (`ModelConfig`, `baseUrl`) elsewhere,
    with the defaults below. Generation parameters that are floats (temperature,
    top_p) are not represented.
 */
module Config {
  import opened Text

  const Mixtral8x7bModelId: string := "mistral.mixtral-8x7b-instruct-v0:1"
  const Llama3_70bModelId: string := "meta.llama3-70b-instruct-v1:0"

  /** The primary model (`LLM_MODEL_ID`) and the one used on retry (`ALTERNATE_LLM_MODEL_ID`). */
  datatype ModelConfig = ModelConfig(primary: string, alternate: string)

  /** The defaults when neither environment variable is set. */
  const DefaultModels: ModelConfig := ModelConfig(Llama3_70bModelId, Mixtral8x7bModelId)

  const MaxTokenOutputForIntent: nat := 1
  const MaxTokenOutputForParsing: nat := 200
  const LlmTopK: nat := 5

  /** A generation profile: Llama models take `max_gen_len`, Mistral models `max_tokens` and `top_k`. */
  datatype Kwargs = LlamaKwargs(maxGenLen: nat) | MistralKwargs(maxTokens: nat, topK: nat)

  /** The output-length ceiling of a profile, whatever the model family calls it. */
  function MaxOutput(kw: Kwargs): nat {
    match kw
    case LlamaKwargs(n) => n
    case MistralKwargs(n, _) => n
  }

  const LlamaIntentKwargs: Kwargs := LlamaKwargs(MaxTokenOutputForIntent)
  const MistralIntentKwargs: Kwargs := MistralKwargs(MaxTokenOutputForIntent, LlmTopK)
  const LlamaParsingKwargs: Kwargs := LlamaKwargs(MaxTokenOutputForParsing)
  const MistralParsingKwargs: Kwargs := MistralKwargs(MaxTokenOutputForParsing, LlmTopK)

  /** The two prompt-template families and the two tasks; one template per pair. */
  datatype Family = MistralFamily | LlamaFamily
  datatype Task = IntentTask | ParsingTask
  datatype Template = Template(family: Family, task: Task)

  /** Filling a template's two named slots (langchain's `PromptTemplate.format`), left opaque. */
  type Formatter = (Template, string, string) -> string

  /** The template family for a model id: a case-sensitive test for "mistral", Llama otherwise. */
  function PromptFamily(modelId: string): Family {
    if Contains(modelId, "mistral") then MistralFamily else LlamaFamily
  }

  /** The default primary id is not a Mistral id. */
  lemma LlamaIdIsNotMistral()
    ensures !Contains(Llama3_70bModelId, "mistral")
  {
    var tail1 := "instruct-v1:0";
    var tail2 := "70b-instruct-v1:0";
    var tail3 := "llama3-70b-instruct-v1:0";
    assert tail2 == "70b" + ['-'] + tail1;
    assert tail3 == "llama3" + ['-'] + tail2;
    assert Llama3_70bModelId == "meta" + ['.'] + tail3;
    MissingCharExcludes("meta", "mistral", 1);
    MissingCharExcludes("llama3", "mistral", 1);
    MissingCharExcludes("70b", "mistral", 0);
    MissingCharExcludes(tail1, "mistral", 0);
    ForeignCharSeparates("70b", '-', tail1, "mistral");
    ForeignCharSeparates("llama3", '-', tail2, "mistral");
    ForeignCharSeparates("meta", '.', tail3, "mistral");
  }

  /** With the default configuration the first attempt uses a Llama model and the
      retry a Mistral model. */
  lemma DefaultModelFamilies()
    ensures PromptFamily(DefaultModels.primary) == LlamaFamily
    ensures PromptFamily(DefaultModels.alternate) == MistralFamily
  {
    LlamaIdIsNotMistral();
    ContainsInContext("", "mistral", ".mixtral-8x7b-instruct-v0:1");
    assert Mixtral8x7bModelId == "" + "mistral" + ".mixtral-8x7b-instruct-v0:1";
  }

  const SmartDraftBaseUrl: string := "http://localhost:8000"

  /** The three downstream endpoint formats, each split around its one placeholder. */
  const DetectIntentPrefix: string := "/conversations/"
  const DetectIntentSuffix: string := "/intent-detected"
  const IntentsPrefix: string := "/intents/"
  const ValidateSuffix: string := "/validate"
  const ExecuteSuffix: string := "/execute"
}
