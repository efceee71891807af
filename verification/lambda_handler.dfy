/** `src/lambda_handler.py`: one queue event end to end. The payload document is
    retrieved first; the lower-cased event-source ARN then chooses the intent or the
    extraction pipeline; any exception is reported downstream according to the ARN
    as written (case-sensitively), or logged when the ARN names neither pipeline.

    Every collaborator the handler reaches is a field of `Services`; a run yields the
    exception that escapes the handler, if any, everything it requested from storage,
    the model and the downstream API, in order, and the "unhandled" log line, if any.
 */
module LambdaHandler {
  import opened Common
  import opened Text
  import opened Config
  import opened Models
  import opened Bedrock
  import opened Retry
  import IntentService
  import ExtractionService
  import opened SmartDraftApi
  import opened S3Wrapper

  const UnknownArnMessage: string := "Unknown event source ARN."
  const UnhandledPrefix: string := "Failed to handle request : "
  /** `str(KeyError("intent"))`. */
  const MissingIntentMessage: string := "'intent'"

  /** The queue message body as the handler reads it: the conversation id, the two
      fields `SQSMessage` requires, and the "intent" field extraction requests carry.
      Nothing checks the intent's type, so it is whatever JSON value the body holds. */
  datatype SqsBody = SqsBody(
    conversationId: int,
    messageType: Option<string>,
    payloadPath: Option<string>,
    intent: Option<Json>)

  /** The first record of the event: its source ARN and its body. */
  datatype Event = Event(sourceArn: string, body: SqsBody)

  /** Building a request model from the fields of a document: the request, or the text
      of the `ValidationError` raised. */
  datatype Decoded<T> = Decoded(request: T) | Invalid(message: string)

  /** The two request classes, as named in the interpreter's text for `**` applied to a
      document that is not an object. */
  const IntentRequestClass: string := "IntentRequest"
  const ExtractRequestClass: string := "ExtractRequest"

  /** The collaborators. `mappingErrorText(cls, doc)` is the interpreter's text for the
      `TypeError` of `cls(**doc)`; `repr` is Python's `repr` of a JSON value. */
  datatype Services = Services(
    s3: S3,
    sqsValidationMessage: SqsBody -> string,
    mappingErrorText: (string, Json) -> string,
    decodeIntentRequest: map<string, Json> -> Decoded<IntentRequest>,
    decodeExtractRequest: map<string, Json> -> Decoded<ExtractRequest>,
    repr: Json -> string,
    backend: Backend,
    models: ModelConfig,
    format: Formatter,
    parse: ExtractionService.JsonParser,
    http: Http,
    baseUrl: string)

  /** Everything requested during a run, per collaborator, in order. */
  datatype Trace = Trace(fetches: seq<S3Location>, llmCalls: seq<LlmRequest>, requests: seq<HttpRequest>)

  /** The outcome of the part of the handler inside its `try`, with its requests. */
  datatype Stage = Stage(outcome: Result<()>, trace: Trace)

  /** What an `except` branch did: the exception it let escape, the requests it made
      and the line it logged. */
  datatype Report = Report(escaped: Option<Error>, requests: seq<HttpRequest>, unhandledLog: Option<string>)

  datatype HandlerRun = HandlerRun(escaped: Option<Error>, trace: Trace, unhandledLog: Option<string>)

  /** Which pipeline an ARN names. */
  datatype Route = IntentRoute | ExtractionRoute | NoRoute

  /** The routing of the `try` block: on the lower-cased ARN, "intent" first. */
  function SuccessRoute(arn: string): (r: Route)
    ensures r == IntentRoute <==> Contains(ToLower(arn), "intent")
    ensures r == ExtractionRoute <==> !Contains(ToLower(arn), "intent") && Contains(ToLower(arn), "extraction")
  {
    if Contains(ToLower(arn), "intent") then IntentRoute
    else if Contains(ToLower(arn), "extraction") then ExtractionRoute
    else NoRoute
  }

  /** The routing of the `except` blocks: on the ARN as written, "intent" first. */
  function ErrorRoute(arn: string): (r: Route)
    ensures r == IntentRoute <==> Contains(arn, "intent")
    ensures r == ExtractionRoute <==> !Contains(arn, "intent") && Contains(arn, "extraction")
  {
    if Contains(arn, "intent") then IntentRoute
    else if Contains(arn, "extraction") then ExtractionRoute
    else NoRoute
  }

  /** An ARN that names a pipeline as written names one when lower-cased too. */
  lemma ErrorRouteImpliesSuccessRoute(arn: string)
    ensures ErrorRoute(arn) == IntentRoute ==> SuccessRoute(arn) == IntentRoute
    ensures ErrorRoute(arn) == ExtractionRoute ==> SuccessRoute(arn) != NoRoute
    ensures SuccessRoute(arn) == NoRoute ==> ErrorRoute(arn) == NoRoute
  {
    if Contains(arn, "intent") {
      ContainsLowered(arn, "intent");
    }
    if Contains(arn, "extraction") {
      ContainsLowered(arn, "extraction");
    }
  }

  /** The model as the services prompt it. */
  function Prompting(svc: Services): LlmRequest -> Result<string> {
    req => PromptLlm(svc.backend, svc.models, req)
  }

  /** `retrieve_data`: validate the body as an `SQSMessage`, then fetch its payload path. */
  function RetrieveData(svc: Services, body: SqsBody): (f: Fetch)
    ensures body.messageType.None? || body.payloadPath.None? ==>
              f == Fetch(Raise(ValidationError(svc.sqsValidationMessage(body))), [])
    ensures body.messageType.Some? && body.payloadPath.Some? ==>
              f == RetrieveS3Payload(svc.s3, body.payloadPath.value)
  {
    if body.messageType.None? || body.payloadPath.None? then
      Fetch(Raise(ValidationError(svc.sqsValidationMessage(body))), [])
    else RetrieveS3Payload(svc.s3, body.payloadPath.value)
  }

  /** `handle_intent_request`: build the request, identify the intent and send whatever
      string identification returned. A document that is not an object cannot be
      unpacked into the request and raises `TypeError`. */
  function HandleIntentRequest(svc: Services, conversationId: int, payload: Json): (s: Stage)
    ensures s.trace.fetches == []
    ensures !payload.JObject? ==>
              s == Stage(Raise(TypeError(svc.mappingErrorText(IntentRequestClass, payload))), Trace([], [], []))
    ensures payload.JObject? && svc.decodeIntentRequest(payload.fields).Invalid? ==>
              s == Stage(Raise(ValidationError(svc.decodeIntentRequest(payload.fields).message)), Trace([], [], []))
    ensures payload.JObject? && svc.decodeIntentRequest(payload.fields).Decoded? ==>
              var run := IntentService.IdentifyIntent(Prompting(svc), svc.format, svc.models,
                                                      svc.decodeIntentRequest(payload.fields).request);
              && s.trace.llmCalls == run.calls
              && (run.outcome.Raise? ==> s.outcome == Raise(run.outcome.error) && s.trace.requests == [])
              && (run.outcome.Ok? ==>
                    var d := SendIntentResponse(svc.http, svc.baseUrl, conversationId, run.outcome.value);
                    s.outcome == d.outcome && s.trace.requests == d.requests)
  {
    if !payload.JObject? then
      Stage(Raise(TypeError(svc.mappingErrorText(IntentRequestClass, payload))), Trace([], [], []))
    else
      match svc.decodeIntentRequest(payload.fields)
      case Invalid(m) => Stage(Raise(ValidationError(m)), Trace([], [], []))
      case Decoded(req) =>
        var run := IntentService.IdentifyIntent(Prompting(svc), svc.format, svc.models, req);
        match run.outcome
        case Raise(e) => Stage(Raise(e), Trace([], run.calls, []))
        case Ok(intent) =>
          var d := SendIntentResponse(svc.http, svc.baseUrl, conversationId, intent);
          Stage(d.outcome, Trace([], run.calls, d.requests))
  }

  /** `handle_extraction_request`: build the request and extract the parameters; only
      then is the body's "intent" read, and the parameters are sent for validation to
      the intent's paths, the intent formatted as `str.format` shows it. A document that
      is not an object raises `TypeError`. */
  function HandleExtractionRequest(svc: Services, body: SqsBody, payload: Json): (s: Stage)
    ensures s.trace.fetches == []
    ensures !payload.JObject? ==>
              s == Stage(Raise(TypeError(svc.mappingErrorText(ExtractRequestClass, payload))), Trace([], [], []))
    ensures payload.JObject? && svc.decodeExtractRequest(payload.fields).Invalid? ==>
              s == Stage(Raise(ValidationError(svc.decodeExtractRequest(payload.fields).message)), Trace([], [], []))
    ensures payload.JObject? && svc.decodeExtractRequest(payload.fields).Decoded? ==>
              var run := ExtractionService.ExtractData(Prompting(svc), svc.format, svc.models,
                                                       svc.decodeExtractRequest(payload.fields).request, svc.parse);
              && s.trace.llmCalls == run.calls
              && (run.outcome.Raise? ==> s.outcome == Raise(run.outcome.error) && s.trace.requests == [])
              && (run.outcome.Ok? && body.intent.None? ==>
                    s.outcome == Raise(KeyError(MissingIntentMessage)) && s.trace.requests == [])
              && (run.outcome.Ok? && body.intent.Some? ==>
                    var d := SendValidationResponse(svc.http, svc.baseUrl, FormatValue(body.intent.value, svc.repr),
                                                    run.outcome.value, body.conversationId);
                    s.outcome == d.outcome && s.trace.requests == d.requests)
  {
    if !payload.JObject? then
      Stage(Raise(TypeError(svc.mappingErrorText(ExtractRequestClass, payload))), Trace([], [], []))
    else
      match svc.decodeExtractRequest(payload.fields)
      case Invalid(m) => Stage(Raise(ValidationError(m)), Trace([], [], []))
      case Decoded(req) =>
        var run := ExtractionService.ExtractData(Prompting(svc), svc.format, svc.models, req, svc.parse);
        match run.outcome
        case Raise(e) => Stage(Raise(e), Trace([], run.calls, []))
        case Ok(params) =>
          match body.intent
          case None => Stage(Raise(KeyError(MissingIntentMessage)), Trace([], run.calls, []))
          case Some(intent) =>
            var d := SendValidationResponse(svc.http, svc.baseUrl, FormatValue(intent, svc.repr), params, body.conversationId);
            Stage(d.outcome, Trace([], run.calls, d.requests))
  }

  /** The `try` block: retrieve, then route on the lower-cased ARN. */
  function Process(svc: Services, event: Event): (s: Stage)
    ensures s.trace.fetches == RetrieveData(svc, event.body).requested
    ensures RetrieveData(svc, event.body).outcome.Raise? ==>
              s == Stage(Raise(RetrieveData(svc, event.body).outcome.error), Trace(s.trace.fetches, [], []))
    ensures RetrieveData(svc, event.body).outcome.Ok? && SuccessRoute(event.sourceArn) == NoRoute ==>
              s == Stage(Raise(GenericError(UnknownArnMessage)), Trace(s.trace.fetches, [], []))
    ensures RetrieveData(svc, event.body).outcome.Ok? && SuccessRoute(event.sourceArn) == IntentRoute ==>
              var h := HandleIntentRequest(svc, event.body.conversationId, RetrieveData(svc, event.body).outcome.value);
              s == Stage(h.outcome, Trace(s.trace.fetches, h.trace.llmCalls, h.trace.requests))
    ensures RetrieveData(svc, event.body).outcome.Ok? && SuccessRoute(event.sourceArn) == ExtractionRoute ==>
              var h := HandleExtractionRequest(svc, event.body, RetrieveData(svc, event.body).outcome.value);
              s == Stage(h.outcome, Trace(s.trace.fetches, h.trace.llmCalls, h.trace.requests))
  {
    var fetched := RetrieveData(svc, event.body);
    match fetched.outcome
    case Raise(e) => Stage(Raise(e), Trace(fetched.requested, [], []))
    case Ok(payload) =>
      var h := match SuccessRoute(event.sourceArn)
        case IntentRoute => HandleIntentRequest(svc, event.body.conversationId, payload)
        case ExtractionRoute => HandleExtractionRequest(svc, event.body, payload)
        case NoRoute => Stage(Raise(GenericError(UnknownArnMessage)), Trace([], [], []));
      Stage(h.outcome, Trace(fetched.requested, h.trace.llmCalls, h.trace.requests))
  }

  /** The exception a delivery lets escape. */
  function Escaping(outcome: Result<()>): Option<Error> {
    if outcome.Raise? then Some(outcome.error) else None
  }

  /** The `except` blocks: report `str(error)` to the pipeline the ARN names as written;
      only the generic block logs an ARN that names neither. */
  function ReportError(svc: Services, event: Event, e: Error): (r: Report)
    ensures ErrorRoute(event.sourceArn) == IntentRoute ==>
              var d := SendIntentResponse(svc.http, svc.baseUrl, event.body.conversationId, e.msg);
              r == Report(Escaping(d.outcome), d.requests, None)
    ensures ErrorRoute(event.sourceArn) == ExtractionRoute && event.body.intent.None? ==>
              r == Report(Some(KeyError(MissingIntentMessage)), [], None)
    ensures ErrorRoute(event.sourceArn) == ExtractionRoute && event.body.intent.Some? ==>
              var d := SendValidationResponse(svc.http, svc.baseUrl, FormatValue(event.body.intent.value, svc.repr),
                                              map[ExtractionService.ErrorKey := JStr(e.msg)], event.body.conversationId);
              r == Report(Escaping(d.outcome), d.requests, None)
    ensures ErrorRoute(event.sourceArn) == NoRoute ==> r.escaped.None? && r.requests == []
    ensures r.unhandledLog.Some? <==> ErrorRoute(event.sourceArn) == NoRoute && !e.ValidationError?
    ensures r.unhandledLog.Some? ==> r.unhandledLog.value == UnhandledPrefix + IntToString(event.body.conversationId)
  {
    match ErrorRoute(event.sourceArn)
    case IntentRoute =>
      var d := SendIntentResponse(svc.http, svc.baseUrl, event.body.conversationId, e.msg);
      Report(Escaping(d.outcome), d.requests, None)
    case ExtractionRoute =>
      (match event.body.intent
       case None => Report(Some(KeyError(MissingIntentMessage)), [], None)
       case Some(intent) =>
         var d := SendValidationResponse(svc.http, svc.baseUrl, FormatValue(intent, svc.repr),
                                         map[ExtractionService.ErrorKey := JStr(e.msg)], event.body.conversationId);
         Report(Escaping(d.outcome), d.requests, None))
    case NoRoute =>
      if e.ValidationError? then Report(None, [], None)
      else Report(None, [], Some(UnhandledPrefix + IntToString(event.body.conversationId)))
  }

  /** `lambda_handler`: the `try` block, then, if it raised, the `except` block. */
  function Handle(svc: Services, event: Event): (run: HandlerRun)
    ensures run.trace.fetches == RetrieveData(svc, event.body).requested
    ensures run.trace.llmCalls == Process(svc, event).trace.llmCalls
    ensures Process(svc, event).outcome.Ok? ==> run == HandlerRun(None, Process(svc, event).trace, None)
    ensures Process(svc, event).outcome.Raise? ==>
              var report := ReportError(svc, event, Process(svc, event).outcome.error);
              && run.escaped == report.escaped
              && run.trace.requests == Process(svc, event).trace.requests + report.requests
              && run.unhandledLog == report.unhandledLog
  {
    var s := Process(svc, event);
    match s.outcome
    case Ok(_) => HandlerRun(None, s.trace, None)
    case Raise(e) =>
      var report := ReportError(svc, event, e);
      HandlerRun(report.escaped, Trace(s.trace.fetches, s.trace.llmCalls, s.trace.requests + report.requests),
                 report.unhandledLog)
  }

  /** The payload is fetched before the ARN is looked at: which object is requested does
      not depend on the ARN, and a failed retrieval prompts no model. */
  lemma RetrievalPrecedesRouting(svc: Services, arn1: string, arn2: string, body: SqsBody)
    ensures Handle(svc, Event(arn1, body)).trace.fetches == Handle(svc, Event(arn2, body)).trace.fetches
    ensures RetrieveData(svc, body).outcome.Raise? ==> Handle(svc, Event(arn1, body)).trace.llmCalls == []
  {
  }

  /** An ARN naming neither pipeline prompts no model and sends nothing; the request is
      logged as unhandled unless the failure was the body's validation error. */
  lemma UnknownArnIsLogged(svc: Services, event: Event)
    requires SuccessRoute(event.sourceArn) == NoRoute
    ensures var run := Handle(svc, event);
      && run.escaped.None?
      && run.trace.llmCalls == []
      && run.trace.requests == []
      && (run.unhandledLog == Some(UnhandledPrefix + IntToString(event.body.conversationId)) <==>
            !RetrieveData(svc, event.body).outcome.Raise? ||
            !RetrieveData(svc, event.body).outcome.error.ValidationError?)
      && (run.unhandledLog.None? ==> RetrieveData(svc, event.body).outcome == Raise(ValidationError(svc.sqsValidationMessage(event.body))))
  {
    ErrorRouteImpliesSuccessRoute(event.sourceArn);
    var f := RetrieveData(svc, event.body);
    if f.outcome.Raise? && f.outcome.error.ValidationError? {
      assert event.body.messageType.None? || event.body.payloadPath.None?;
    }
  }

  /** An ARN whose lower-cased form contains "intent" is handled as an intent request
      even when it names extraction too: every model request is an intent request. */
  lemma IntentTakesPrecedence(svc: Services, event: Event)
    requires Contains(ToLower(event.sourceArn), "intent")
    ensures forall k :: 0 <= k < |Handle(svc, event).trace.llmCalls| ==>
              Handle(svc, event).trace.llmCalls[k].operationType == IntentOperation
  {
  }

  /** The identified intent is sent exactly as identification returned it, the failure
      marker "invalid_intent" included. */
  lemma DetectedIntentDeliveredVerbatim(svc: Services, event: Event, payload: Json, req: IntentRequest)
    requires SuccessRoute(event.sourceArn) == IntentRoute
    requires RetrieveData(svc, event.body).outcome == Ok(payload)
    requires payload.JObject? && svc.decodeIntentRequest(payload.fields) == Decoded(req)
    requires IntentService.IdentifyIntent(Prompting(svc), svc.format, svc.models, req).outcome.Ok?
    ensures var intent := IntentService.IdentifyIntent(Prompting(svc), svc.format, svc.models, req).outcome.value;
      Handle(svc, event).trace.requests[0] ==
        Put(DetectIntentUrl(svc.baseUrl, event.body.conversationId), IntentBody(intent))
  {
  }

  /** A mixed-case ARN that names a pipeline only once lower-cased gets no error report:
      the requests are those the pipeline made, nothing escapes, and only a failure
      other than a validation error is logged. */
  lemma NoReportWithoutLowerCaseName(svc: Services, event: Event)
    requires ErrorRoute(event.sourceArn) == NoRoute
    ensures var run := Handle(svc, event);
      && run.escaped.None?
      && run.trace == Process(svc, event).trace
      && (run.unhandledLog.Some? <==>
            Process(svc, event).outcome.Raise? && !Process(svc, event).outcome.error.ValidationError?)
  {
  }

  /** A failure on an ARN naming "intent" as written is reported as the detected intent:
      one more PUT to the same conversation, carrying the error text. */
  lemma IntentFailureIsReported(svc: Services, event: Event)
    requires ErrorRoute(event.sourceArn) == IntentRoute
    requires Process(svc, event).outcome.Raise?
    ensures var e := Process(svc, event).outcome.error;
      Handle(svc, event).trace.requests ==
        Process(svc, event).trace.requests +
        [Put(DetectIntentUrl(svc.baseUrl, event.body.conversationId), IntentBody(e.msg))]
  {
  }

  /** A failure on an ARN naming "extraction" as written is posted for validation as
      `{"error": <text>}`, which is then reported for execution as well when answered;
      without an intent in the body the `KeyError` escapes instead. */
  lemma ExtractionFailureIsReported(svc: Services, event: Event)
    requires ErrorRoute(event.sourceArn) == ExtractionRoute
    requires Process(svc, event).outcome.Raise?
    ensures var e := Process(svc, event).outcome.error;
      var run := Handle(svc, event);
      && (event.body.intent.None? ==> run.escaped == Some(KeyError(MissingIntentMessage)))
      && (event.body.intent.Some? ==>
            run.trace.requests[|Process(svc, event).trace.requests|] ==
              Post(ValidateUrl(svc.baseUrl, FormatValue(event.body.intent.value, svc.repr)),
                   JObject(map["error" := JStr(e.msg)])))
  {
  }

  /** Without an intent in the body, an extraction request still prompts the model and
      only then fails; the `KeyError` is raised again while reporting it and escapes. */
  lemma MissingIntentFailsAfterExtraction(svc: Services, event: Event, payload: Json, req: ExtractRequest)
    requires SuccessRoute(event.sourceArn) == ExtractionRoute
    requires ErrorRoute(event.sourceArn) == ExtractionRoute
    requires event.body.intent.None?
    requires RetrieveData(svc, event.body).outcome == Ok(payload)
    requires payload.JObject? && svc.decodeExtractRequest(payload.fields) == Decoded(req)
    requires ExtractionService.ExtractData(Prompting(svc), svc.format, svc.models, req, svc.parse).outcome.Ok?
    ensures var run := Handle(svc, event);
      && |run.trace.llmCalls| >= 1
      && run.trace.requests == []
      && run.escaped == Some(KeyError(MissingIntentMessage))
  {
  }

  /** When sending the detected intent fails, that failure is itself sent as the intent:
      a second PUT carries the message of the first one's `RuntimeError`. */
  lemma FailedDeliveryIsReportedAsIntent(svc: Services, event: Event, payload: Json, req: IntentRequest, reason: string)
    requires ErrorRoute(event.sourceArn) == IntentRoute
    requires RetrieveData(svc, event.body).outcome == Ok(payload)
    requires payload.JObject? && svc.decodeIntentRequest(payload.fields) == Decoded(req)
    requires IntentService.IdentifyIntent(Prompting(svc), svc.format, svc.models, req).outcome.Ok?
    requires svc.http(Put(DetectIntentUrl(svc.baseUrl, event.body.conversationId),
                          IntentBody(IntentService.IdentifyIntent(Prompting(svc), svc.format, svc.models, req).outcome.value)))
             == RequestFailed(reason)
    ensures var run := Handle(svc, event);
      && |run.trace.requests| == 2
      && run.trace.requests[1] ==
           Put(DetectIntentUrl(svc.baseUrl, event.body.conversationId),
               IntentBody("Failed to send intent response: " + reason))
  {
    ErrorRouteImpliesSuccessRoute(event.sourceArn);
  }

  /** A document that is not a JSON object fails before any model is prompted, with a
      `TypeError`; that is not a validation error, so an ARN naming a pipeline only
      once lower-cased gets the "unhandled" log line. */
  lemma NonObjectDocumentRaisesTypeError(svc: Services, event: Event, payload: Json)
    requires RetrieveData(svc, event.body).outcome == Ok(payload)
    requires !payload.JObject?
    requires SuccessRoute(event.sourceArn) != NoRoute
    ensures Process(svc, event).outcome.Raise? && Process(svc, event).outcome.error.TypeError?
    ensures Handle(svc, event).trace.llmCalls == []
    ensures ErrorRoute(event.sourceArn) == NoRoute ==>
              Handle(svc, event).unhandledLog == Some(UnhandledPrefix + IntToString(event.body.conversationId))
  {
  }

  /** An extraction body whose "intent" is `null` has its parameters posted to the
      "None" intent's validation path. */
  lemma NullIntentIsSentAsNone(svc: Services, event: Event, payload: Json, req: ExtractRequest)
    requires SuccessRoute(event.sourceArn) == ExtractionRoute
    requires event.body.intent == Some(JNull)
    requires RetrieveData(svc, event.body).outcome == Ok(payload)
    requires payload.JObject? && svc.decodeExtractRequest(payload.fields) == Decoded(req)
    requires ExtractionService.ExtractData(Prompting(svc), svc.format, svc.models, req, svc.parse).outcome.Ok?
    ensures var params := ExtractionService.ExtractData(Prompting(svc), svc.format, svc.models, req, svc.parse).outcome.value;
      Handle(svc, event).trace.requests[0] == Post(svc.baseUrl + "/intents/None/validate", JObject(params))
  {
    NullIntentNamesNone(svc.baseUrl, svc.repr);
  }
}
