# Support-Copilot core, modelled in Dafny

Support-Copilot is a queue-driven worker. Each queue event points at a JSON payload
in object storage. The worker does one of two jobs, chosen by the event's source
ARN:

- **Intent identification.** It renders an intent catalog and an e-mail conversation
  into a prompt. It asks a language model for the number of the matching intent and
  maps that number back to the intent's slug. The slug is sent to the downstream
  "Smart Draft" API.
- **Parameter extraction.** It renders the parameters to extract into a prompt. It
  cuts the first `{...}` object out of the model's reply, repairs a trailing comma
  and decodes it. It keeps the declared, non-null keys. The result is posted for
  validation, and an execution report follows.

Both jobs prompt the primary model first. They prompt the alternate model once more
only when the first result is the failure marker: `"invalid_intent"` for intents, an
`"error"` key for extraction. Failures are reported downstream according to the ARN,
or logged.

The model is a set of pure functions, one module per source file:

- `Common`: `Option`, `Result`, Python exceptions as data, JSON values.
- `Text`: the string built-ins used (`in`, `lower`, `split`, `join`, digits).
- `Config`: the configuration constants.
- `Models`: the request records and their renderers.
- `Bedrock`: model setup and prompting.
- `Retry`: the two-attempt orchestration both services share.
- `IntentService`, `ExtractionService`.
- `SmartDraftApi`: URLs, payloads and the send functions.
- `S3Wrapper`: payload retrieval.
- `LambdaHandler`: one event end to end.

Everything outside the process is a function-typed parameter. That covers the model
invocation, storage reads, HTTP requests, JSON decoding, the request models'
validation and prompt-template formatting. A run returns every request it made, in
order, so call counts, arguments and ordering are stated about real results.

## Model

| member | source | states |
|---|---|---|
| Models.MessageText | src/models.py:27-30 | a rendered message is non-empty and ends with a newline |
| Models.MessageTextIsLines | src/models.py:27-30 | a message renders as its sender/recipient, subject/role and body lines, each ended by "\n" |
| Models.TranscriptSplitsIntoLines | src/models.py:51-52 | splitting a rendered conversation at "\n" gives back each message's three lines and a blank line, in message order, when no field holds a line break |
| Models.RenderMessagesIsJoinOfLines | src/models.py:84-85 | the conversation text is the "\n"-join of the per-message lines |
| Models.MissingSubjectShowsNone | src/models.py:20-30 | a message without a subject renders "Subject: None, Role: <role>" |
| Models.IntentListSplitsIntoEntries | src/models.py:41-55 | the intent list splits back into one "id = slug: description" line per catalog entry, in catalog order |
| Models.IntentTextsAt | src/models.py:54-55 | the k-th line of the intent list renders the k-th entry and holds no line break |
| Models.ParameterListSplitsIntoEntries | src/models.py:71-88 | the parameter list splits back into one "key [type]: description" line per parameter, in order |
| Models.ParameterTextsAt | src/models.py:87-88 | the k-th parameter line renders the k-th parameter |
| Models.EmptyListsRenderEmpty | src/models.py:51-55 | empty lists render as empty text |
| Config.LlamaIdIsNotMistral | src/config.py:16-19 | the default primary model id does not contain "mistral" |
| Config.DefaultModelFamilies | src/config.py:13-21 | with the defaults, the primary id uses the Llama template family and the alternate id the Mistral family |
| Bedrock.SetupModelKwargs | src/bedrock_wrapper.py:68-85 | ValueError("Invalid model ID.") exactly when the id contains neither "mistral" nor "llama"; ValueError("Invalid operation type.") exactly when the id is known and the task is neither "intent" nor "parsing"; otherwise the profile of that (family, task) pair: one of four, with output ceiling 1 for intents and 200 for parsing, and top_k 5 for Mistral |
| Bedrock.SetupLlm | src/bedrock_wrapper.py:47-65 | the alternate id is used exactly when asked for; the profile comes from the same id; a profile error escapes unwrapped; with a valid profile the model object is returned when construction succeeds, and a construction failure m becomes RuntimeError("Failed to setup Bedrock: " + m) |
| Bedrock.PromptLlm | src/bedrock_wrapper.py:13-44 | a client failure is RuntimeError("Failed to setup Bedrock client: …"); a setup error escapes as it is; otherwise the prompt goes to the set-up model and its reply comes back unchanged |
| Bedrock.PromptLlmInvokesSelectedModel | src/bedrock_wrapper.py:13-28 | whenever a model is invoked, it is the alternate exactly when `change_llm` is set, its profile fits its family and task, and the reply passes through |
| Bedrock.LlamaIdIsLlama | src/config.py:16 | the default primary id contains "llama" |
| Bedrock.DefaultProfiles | src/config.py:47-73 | with the defaults, the primary model gets the Llama profiles and the alternate the Mistral profiles, for both tasks |
| Retry.TwoAttempts | src/intent_identification_service.py:14-37 | one or two model calls with the same prompt and task; the second, on the alternate model, happens exactly when the first reply validates to the failure marker; the last validated result or the first exception is returned |
| Retry.FailedOutcomeMeansTwoCalls | src/data_extraction_service.py:17-43 | a result that is still the failure marker means both models were asked |
| Retry.AttemptsShareThePrompt | src/intent_identification_service.py:15-27 | every call carries the same prompt and task, and only the second asks for the alternate model |
| IntentService.ExtractInteger | src/intent_identification_service.py:79-81 | "invalid_response" exactly when the text has no digit; otherwise the first maximal run of digits |
| IntentService.FirstDigitRunIsExtracted | src/intent_identification_service.py:79-81 | any run meeting the "first maximal digit run" description is the one returned |
| IntentService.ParseIntentId | src/intent_identification_service.py:63-65 | reading the extracted text as the integer intent id succeeds exactly on non-empty digit strings |
| IntentService.ParseIntentIdRoundTrip | src/intent_identification_service.py:63-73 | a rendered number reads back as itself; "invalid_response" fails validation |
| IntentService.FindIntent | src/intent_identification_service.py:67-69 | the catalog scan stops at the first entry carrying the id, or reports that none does |
| IntentService.ValidateLlmResponse | src/intent_identification_service.py:60-76 | "invalid_intent" when the reply has no digit or no entry has its number; any other result is the slug of an entry |
| IntentService.ValidateSelectsFirstMatch | src/intent_identification_service.py:60-76 | the reply's first number selects the slug of the first catalog entry with that id |
| IntentService.ValidateRejectsUnknownId | src/intent_identification_service.py:67-76 | a first number no entry carries yields "invalid_intent" |
| IntentService.TextAfterNumberIgnored | src/intent_identification_service.py:79-81 | text after the number, unless it starts with a digit, does not change the result |
| IntentService.SignIsDropped | src/intent_identification_service.py:79-81 | "-n" selects what "n" selects |
| IntentService.EchoedEntrySelects | src/intent_identification_service.py:60-69 | a catalog line echoed back by the model selects the first entry with its id |
| IntentService.NegativeIdsNeverMatch | src/intent_identification_service.py:63-69 | an entry with a negative id can never be selected |
| IntentService.SampleReplySelects | src/intent_identification_service.py:60-69 | "1" selects the first entry of a sample catalog |
| IntentService.SampleRepliesReject | src/intent_identification_service.py:67-76 | an unknown number, or an empty catalog, yields "invalid_intent" |
| IntentService.GeneratePrompt | src/intent_identification_service.py:40-57 | the prompt fills the Mistral intent template exactly when the primary model id contains "mistral", and the Llama one otherwise, with the rendered intent list and the rendered conversation |
| IntentService.IdentifyIntent | src/intent_identification_service.py:14-37 | at most two intent calls, the second on the alternate model exactly after "invalid_intent"; the result is the last validated reply, and anything but the marker is a catalog slug; when the last call raises, its exception escapes unchanged |
| IntentService.SentinelSlugTriggersRetry | src/intent_identification_service.py:20-27 | a catalog entry whose slug is literally "invalid_intent", once selected, still causes the retry |
| IntentService.RetryKeepsPrimaryTemplate | src/intent_identification_service.py:44-47 | the prompt depends only on the primary id, so by default the retry sends a Llama-template prompt to a Mistral model |
| ExtractionService.ClassifyKind | src/data_extraction_service.py:116-130 | a declared type is int, date, time or bool exactly when its lower-cased text contains "int", "date", "time" or "bool", tested in that order; str otherwise |
| ExtractionService.DatetimeIsDate | src/data_extraction_service.py:117-121 | "datetime" is a date kind, because "date" is tested before "time" |
| ExtractionService.UpperCaseDateIsDate | src/data_extraction_service.py:120-121 | the type test ignores case |
| ExtractionService.DeclaredTypes | src/data_extraction_service.py:110-112 | every declared key has a type in the key-to-type dict |
| ExtractionService.DeclaredKeysAreDeclared | src/data_extraction_service.py:110-112 | every key of the dict is some parameter's key |
| ExtractionService.LastDeclarationWins | src/data_extraction_service.py:110-112 | a key declared twice takes the type of its last declaration |
| ExtractionService.DynamicModelFields | src/data_extraction_service.py:109-133 | one field per declared key, of the kind its (last) declared type names |
| ExtractionService.RemoveNewlines | src/data_extraction_service.py:73-74 | the result has no newline and keeps every other character; text without a newline is unchanged |
| ExtractionService.RemoveNewlinesAppend | src/data_extraction_service.py:73-74 | newline removal distributes over concatenation |
| ExtractionService.FindBraceSpan | src/data_extraction_service.py:100 | the leftmost match of `\{.*?\}`: a '{', no '}' or newline, then a '}'; none exists when it reports none |
| ExtractionService.BraceSpanEndsAtStop | src/data_extraction_service.py:100 | a match from a '{' can only end at the first '}' or newline after it |
| ExtractionService.RepairTrailingComma | src/data_extraction_service.py:106 | a comma followed only by whitespace before the closing '}' is dropped with that whitespace; without one the span is unchanged |
| ExtractionService.TrailingCommaUnique | src/data_extraction_service.py:106 | a span has at most one such comma |
| ExtractionService.ExtractJsonLikeContent | src/data_extraction_service.py:99-106 | text without a match comes back unchanged; otherwise the result is brace-delimited |
| ExtractionService.ExtractTakesFirstSpan | src/data_extraction_service.py:99-106 | the result is the leftmost brace span, repaired |
| ExtractionService.ExtractRepairsFoundSpan | src/data_extraction_service.py:105-106 | a found span is what the comma repair is applied to |
| ExtractionService.WholeSpanIsRepaired | src/data_extraction_service.py:99-106 | text that is one span end to end is repaired as a whole |
| ExtractionService.TrailingCommaEquivalence | src/data_extraction_service.py:99-106 | "{body, }" yields exactly what "{body}" yields |
| ExtractionService.TrailingCommaIsDropped | src/data_extraction_service.py:106 | "{body,ws}" is repaired to "{body}" |
| ExtractionService.NestedObjectIsCut | src/data_extraction_service.py:100-105 | a nested object is cut at its first '}', so the candidate is not the whole object |
| ExtractionService.Project | src/data_extraction_service.py:79-88 | the declared keys present with non-null values, values as decoded |
| ExtractionService.ValidateLlmResponse | src/data_extraction_service.py:68-92 | on a decode failure, {"error": "invalid_response: " + candidate}; otherwise exactly the declared, non-null keys, values as decoded |
| ExtractionService.ClosedKeySet | src/data_extraction_service.py:79-92 | only declared keys appear, plus "error" when decoding failed or "error" is declared |
| ExtractionService.ExtraKeysInert | src/data_extraction_service.py:79-83 | undeclared keys in the reply have no effect |
| ExtractionService.DecodedObjectRoundTrip | src/data_extraction_service.py:79-88 | a decoded object with only declared, non-null keys comes back as decoded |
| ExtractionService.KindsAreIgnored | src/data_extraction_service.py:79-88 | two requests declaring the same keys validate every reply alike, whatever the declared types |
| ExtractionService.IntegerIsInt | src/data_extraction_service.py:117-118 | "integer" is an int kind |
| ExtractionService.NoCoercion | src/data_extraction_service.py:79-88 | a string for an int-kind key stays the decoded string |
| ExtractionService.GeneratePrompt | src/data_extraction_service.py:46-65 | the prompt fills the Mistral parsing template exactly when the primary model id contains "mistral", and the Llama one otherwise, with the rendered parameter list and the rendered conversation |
| ExtractionService.RetryKeepsPrimaryTemplate | src/data_extraction_service.py:49-53 | the prompt is the same whatever the alternate id, so by default the retry sends a Llama-template prompt to a Mistral model |
| ExtractionService.ExtractData | src/data_extraction_service.py:17-43 | at most two parsing calls, the second on the alternate model exactly after a result with an "error" key; the last validated result is returned, or, when the last call raises, its exception unchanged |
| ExtractionService.ErrorParameterTriggersRetry | src/data_extraction_service.py:23-31 | a declared "error" parameter that the model fills in is mistaken for a failure and causes the retry |
| SmartDraftApi.GenerateApiEndpoint | src/smart_draft_api.py:78-94 | ValueError("Invalid endpoint specified.") exactly for an unknown endpoint name; otherwise a URL under the base URL |
| SmartDraftApi.UrlsAreGenerated | src/smart_draft_api.py:78-94 | the three URLs the send functions use are the ones the endpoint builder produces |
| SmartDraftApi.IntentDetectionPathNamesConversation | src/smart_draft_api.py:80-82 | the intent-detection path splits into "conversations", the conversation id and "intent-detected" |
| SmartDraftApi.IntentPathNamesIntent | src/smart_draft_api.py:83-88 | a validation or execution path splits into "intents", the intent and "validate" or "execute", when the intent holds no '/' |
| SmartDraftApi.MissingConversationIdRendersNone | src/smart_draft_api.py:78-82 | without a conversation id the path reads "/conversations/None/intent-detected" |
| SmartDraftApi.NullIntentNamesNone | src/smart_draft_api.py:83-88 | an intent given as JSON null is formatted as "None", giving the paths "/intents/None/validate" and "/intents/None/execute" |
| SmartDraftApi.SendIntentResponse | src/smart_draft_api.py:12-25 | one PUT of {"detected_intent": intent} to the conversation's URL; a failed request becomes RuntimeError("Failed to send intent response: …") |
| SmartDraftApi.SendExecutionResponse | src/smart_draft_api.py:55-75 | one POST of the execution body; a failed request becomes RuntimeError("Failed to send execution response: …") |
| SmartDraftApi.SendValidationResponse | src/smart_draft_api.py:28-52 | POST the parameters; exactly when that is answered, send one execution report, flagged incomplete exactly when `missing_parameters` is truthy, and pass its outcome through; otherwise RuntimeError("Failed to send validation response: …") |
| SmartDraftApi.ExecutionBodyCarriesParameters | src/smart_draft_api.py:60-65 | the execution body carries the conversation id and the parameters unchanged, and says "Complete." exactly when nothing is missing |
| S3Wrapper.SplitPayloadPath | src/s3_wrapper.py:9-30 | ValueError("Invalid S3 payload path.") exactly when the path has no '/'; otherwise a slash-free bucket and a key that ends the path |
| S3Wrapper.PathDecomposes | src/s3_wrapper.py:11-13 | the path is its first piece, "/", the bucket, then "/" and the key when there is a third piece |
| S3Wrapper.PayloadPathRoundTrip | src/s3_wrapper.py:11-13 | "/bucket/key" names that bucket and that key, whatever slashes the key holds |
| S3Wrapper.LeadingPieceIgnored | src/s3_wrapper.py:11-12 | whatever precedes the first '/' is discarded |
| S3Wrapper.SingleSlashGivesEmptyKey | src/s3_wrapper.py:11-13 | a path with a single '/' names the text after it as bucket and an empty key |
| S3Wrapper.RetrieveS3Payload | src/s3_wrapper.py:9-38 | nothing is requested for a path without '/'; otherwise exactly the named object is requested, and a decode failure or a service failure becomes the matching RuntimeError |
| S3Wrapper.RetrievalFetchesNamedObject | src/s3_wrapper.py:15-26 | a well-formed path fetches its bucket and key and returns the document unchanged |
| LambdaHandler.SuccessRoute | src/lambda_handler.py:24-34 | intent exactly when the lower-cased ARN contains "intent"; extraction when it contains "extraction" and not "intent" |
| LambdaHandler.ErrorRoute | src/lambda_handler.py:36-58 | the same tests on the ARN as written |
| LambdaHandler.ErrorRouteImpliesSuccessRoute | src/lambda_handler.py:24-52 | an ARN naming a pipeline as written names one once lower-cased, so an ARN naming neither lower-cased gets no error report |
| LambdaHandler.RetrieveData | src/lambda_handler.py:61-74 | a body without `message_type` or `payload_path` is a ValidationError with nothing fetched; otherwise the payload path is retrieved |
| LambdaHandler.HandleIntentRequest | src/lambda_handler.py:77-82 | a document that is not an object raises TypeError, and an invalid request raises ValidationError, both before any model call; otherwise the identified intent is sent unless identification raised |
| LambdaHandler.HandleExtractionRequest | src/lambda_handler.py:85-92 | a document that is not an object raises TypeError, and an invalid request raises ValidationError, both before any model call; otherwise extraction runs first, then a missing "intent" raises KeyError, else the parameters are sent for validation to the intent's paths, whatever JSON value the intent is, formatted as `str.format` shows it |
| LambdaHandler.Process | src/lambda_handler.py:21-34 | retrieval comes first and its failure stops the run; then the lower-cased ARN chooses the pipeline, and an unknown ARN raises "Unknown event source ARN." |
| LambdaHandler.ReportError | src/lambda_handler.py:36-58 | `str(error)` is sent as the intent for an "intent" ARN, or posted as {"error": …} for an "extraction" ARN (a missing intent raises KeyError); otherwise only a non-validation error logs "Failed to handle request : <id>" |
| LambdaHandler.Handle | src/lambda_handler.py:14-58 | the try block's requests, then the except block's report when it raised; the report's own exception escapes |
| LambdaHandler.RetrievalPrecedesRouting | src/lambda_handler.py:21-28 | which object is fetched does not depend on the ARN, and a failed retrieval prompts no model |
| LambdaHandler.UnknownArnIsLogged | src/lambda_handler.py:32-58 | an ARN naming neither pipeline prompts nothing and sends nothing; it is logged as unhandled unless the body failed validation |
| LambdaHandler.IntentTakesPrecedence | src/lambda_handler.py:24-30 | an ARN whose lower-cased form contains "intent" only ever makes intent calls, even when it names extraction too |
| LambdaHandler.DetectedIntentDeliveredVerbatim | src/lambda_handler.py:77-82 | the identified intent, "invalid_intent" included, is what the first PUT carries |
| LambdaHandler.NoReportWithoutLowerCaseName | src/lambda_handler.py:36-58 | an ARN naming a pipeline only once lower-cased gets no error report; nothing escapes, and only non-validation failures are logged |
| LambdaHandler.IntentFailureIsReported | src/lambda_handler.py:46-50 | a failure on an "intent" ARN adds one PUT of the error text to the same conversation |
| LambdaHandler.ExtractionFailureIsReported | src/lambda_handler.py:46-55 | a failure on an "extraction" ARN posts {"error": text} for validation, or lets KeyError escape when the body has no intent |
| LambdaHandler.MissingIntentFailsAfterExtraction | src/lambda_handler.py:85-90 | without an intent, the model is still prompted, nothing is sent, and KeyError escapes |
| LambdaHandler.FailedDeliveryIsReportedAsIntent | src/lambda_handler.py:46-50 | when sending the identified intent fails, a second PUT carries "Failed to send intent response: …" as the intent |
| LambdaHandler.NonObjectDocumentRaisesTypeError | src/lambda_handler.py:46-87 | a document that is not a JSON object raises TypeError before any model is prompted; on an ARN that names a pipeline only once lower-cased, the request is logged as unhandled |
| LambdaHandler.NullIntentIsSentAsNone | src/lambda_handler.py:85-92 | an extraction body whose "intent" is null has its parameters posted to "/intents/None/validate" |

## Left out

- Logging, the network, the cloud SDKs and environment variables. Logging is left out except the "unhandled" line of the handler. Model ids and the base URL are parameters; their defaults are constants.
- Floating-point settings (temperature, top_p). Only the integer settings of each generation profile are modelled.
- Prompt-template text. Filling a template is an opaque formatter of (template, first slot, second slot).
- The JSON grammar. Decoding is a collaborator that yields an object or fails.
- The generic-exception branch of the extraction validator (src/data_extraction_service.py:94-96). It cannot arise once decoding yields an object. A model reply whose candidate decodes to a JSON value that is not an object is not modelled.
- Pydantic and the regular-expression engine.
  - Request validation is a collaborator that yields the request or the error text.
  - `SQSMessage` validation is modelled only as "both string fields present". Its error text is a collaborator too.
  - `\d` and `str.lower` are modelled on ASCII. Python also matches other Unicode digits and letters.
- Event parsing (`event["Records"][0]`, the body's JSON). It happens before the handler's try block, and `conversation_id` is taken as present and integral.
- Interpreter text. Python's `repr` of floats, lists and dicts and the message of the `TypeError` raised by `**` on a non-mapping are parameters. An intent given as a float, a list or a dict is therefore formatted by that parameter.
- The downstream reply is modelled directly as its `missing_parameters` value or a request failure. That includes the HTTP status check. A malformed reply body (a KeyError from `response.json()`) is left out.
- The Bedrock client is created afresh on every prompt. Its failure is modelled as one fixed outcome for the whole run.
- Dictionary key order, which does not affect any modelled outcome.
- SmartDraftApi.GenerateApiEndpoint: its contract only states the error case and the base-URL prefix. The full paths are stated by SmartDraftApi.UrlsAreGenerated and the path lemmas, to keep the literal text out of the function's contract.
- IntentService.ParseIntentId: reads only digit strings and fails otherwise. Pydantic's lax integer parsing also accepts signs, spaces and underscores, but the text given to it is always a digit run or "invalid_response". The model does not apply Python's limit of 4300 digits on reading an integer from text (`sys.int_max_str_digits`). So a reply whose first digit run is longer than that is read here as a number, where the source fails validation and answers "invalid_intent".
