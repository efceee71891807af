/** `src/smart_draft_api.py`: building the downstream service's URLs and delivering the
    intent and extraction results to it.

    HTTP delivery is a collaborator (`Http`): it maps a request to the reply's
    `data.missing_parameters` value, or to the message of the `RequestException` the
    request raised. Each delivery returns the requests it made, in order.
 */
module SmartDraftApi {
  import opened Common
  import opened Text
  import opened Config
  import opened Models

  const IntentDetectionEndpoint: string := "intent-detection"
  const ValidationEndpoint: string := "validation"
  const ExecutionEndpoint: string := "execution"

  const IncompleteResponse: string := "Incomplete, but we don't care, do we?"
  const CompleteResponse: string := "Complete."

  datatype HttpRequest = Put(url: string, body: Json) | Post(url: string, body: Json)

  /** What a request came back with: the reply's `data.missing_parameters`, or the text
      of the `RequestException` raised. */
  datatype HttpReply = Replied(missingParameters: Json) | RequestFailed(reason: string)

  type Http = HttpRequest -> HttpReply

  /** The outcome of a delivery and the requests it made, in order. */
  datatype Delivery = Delivery(outcome: Result<()>, requests: seq<HttpRequest>)

  /** How `str.format` shows a decoded JSON value passed where an intent name is
      expected: a string as itself, `null` as "None", booleans as "True" and "False",
      integers in decimal. Floats, lists and dicts are shown by Python's `repr`, which
      is a parameter here. */
  function FormatValue(j: Json, repr: Json -> string): (r: string)
    ensures j.JStr? ==> r == j.s
    ensures j.JNull? ==> r == "None"
    ensures j.JBool? ==> r == (if j.b then "True" else "False")
    ensures j.JInt? ==> r == IntToString(j.i)
    ensures j.JFloat? || j.JArray? || j.JObject? ==> r == repr(j)
  {
    match j
    case JNull => "None"
    case JBool(b) => if b then "True" else "False"
    case JInt(i) => IntToString(i)
    case JStr(s) => s
    case _ => repr(j)
  }

  /** `generate_api_endpoint`: the base URL followed by the named endpoint's path, its
      placeholder filled in; an unknown endpoint name is a `ValueError`. */
  function GenerateApiEndpoint(baseUrl: string, endpoint: string, intent: Option<string>, conversationId: Option<int>): (r: Result<string>)
    ensures r.Raise? <==>
              endpoint != IntentDetectionEndpoint && endpoint != ValidationEndpoint && endpoint != ExecutionEndpoint
    ensures r.Raise? ==> r.error == ValueError("Invalid endpoint specified.")
    ensures r.Ok? ==> StartsWith(r.value, baseUrl)
  {
    var part :=
      if endpoint == IntentDetectionEndpoint then
        Ok(DetectIntentPrefix + OptionalText(OptionMap(conversationId)) + DetectIntentSuffix)
      else if endpoint == ValidationEndpoint then Ok(IntentsPrefix + OptionalText(intent) + ValidateSuffix)
      else if endpoint == ExecutionEndpoint then Ok(IntentsPrefix + OptionalText(intent) + ExecuteSuffix)
      else Raise(ValueError("Invalid endpoint specified."));
    match part
    case Raise(e) => Raise(e)
    case Ok(p) =>
      assert (baseUrl + p)[..|baseUrl|] == baseUrl;
      Ok(baseUrl + p)
  }

  /** The conversation id as the format call sees it. */
  function OptionMap(conversationId: Option<int>): Option<string> {
    match conversationId
    case Some(id) => Some(IntToString(id))
    case None => None
  }

  /** A rendered integer holds no '/'. */
  lemma IntToStringHasNoSlash(i: int)
    ensures '/' !in IntToString(i)
  {
    var d := NatToString(if i < 0 then -i else i);
    assert forall k :: 0 <= k < |d| ==> IsDigit(d[k]);
  }

  /** Two slash-free segments joined by '/' split back into them. */
  lemma SplitTwoSegments(b: string, c: string)
    requires '/' !in b && '/' !in c
    ensures Split(b + ['/'] + c, '/') == [b, c]
  {
    SplitCons(b, '/', c);
    assert Split(c, '/') == [c];
  }

  /** Three slash-free segments joined by '/' split back into them. */
  lemma SplitThreeSegments(a: string, b: string, c: string)
    requires '/' !in a && '/' !in b && '/' !in c
    ensures Split(a + ['/'] + (b + ['/'] + c), '/') == [a, b, c]
  {
    SplitTwoSegments(b, c);
    SplitCons(a, '/', b + ['/'] + c);
    assert [a] + [b, c] == [a, b, c];
  }

  /** A path "/a/" + b + "/c" of slash-free segments splits back into them. */
  lemma PathSegments(a: string, b: string, c: string)
    requires '/' !in a && '/' !in b && '/' !in c
    ensures Split((['/'] + a + ['/']) + b + (['/'] + c), '/') == ["", a, b, c]
  {
    SlashPathShape(a, b, c);
    RootedPathSegments(a, b, c);
  }

  lemma RootedPathSegments(a: string, b: string, c: string)
    requires '/' !in a && '/' !in b && '/' !in c
    ensures Split(['/'] + (a + ['/'] + (b + ['/'] + c)), '/') == ["", a, b, c]
  {
    var rest := a + ['/'] + (b + ['/'] + c);
    SplitThreeSegments(a, b, c);
    SplitLeadingSeparator(rest, '/');
    assert [""] + [a, b, c] == ["", a, b, c];
  }

  /** A leading separator splits off an empty first piece. */
  lemma SplitLeadingSeparator(rest: string, c: char)
    ensures Split([c] + rest, c) == [""] + Split(rest, c)
  {
    SplitCons("", c, rest);
    assert "" + [c] + rest == [c] + rest;
  }

  lemma SlashPathShape(a: string, b: string, c: string)
    ensures (['/'] + a + ['/']) + b + (['/'] + c) == ['/'] + (a + ['/'] + (b + ['/'] + c))
  {
  }

  /** The path of an intent-detection URL names the conversation, and the downstream
      service can read the id back from it. */
  lemma IntentDetectionPathNamesConversation(baseUrl: string, id: int)
    ensures GenerateApiEndpoint(baseUrl, IntentDetectionEndpoint, None, Some(id)).Ok?
    ensures var url := GenerateApiEndpoint(baseUrl, IntentDetectionEndpoint, None, Some(id)).value;
      Split(url[|baseUrl|..], '/') == ["", "conversations", IntToString(id), "intent-detected"]
  {
    UrlsAreGenerated(baseUrl, id, "");
    var d := IntToString(id);
    var path := DetectIntentPrefix + d + DetectIntentSuffix;
    IntToStringHasNoSlash(id);
    DetectPathSegments(d);
    assert DetectIntentUrl(baseUrl, id) == baseUrl + path;
    assert (baseUrl + path)[|baseUrl|..] == path;
  }

  /** The intent-detection path around a slash-free conversation id splits into its
      segments. */
  lemma DetectPathSegments(d: string)
    requires '/' !in d
    ensures Split(DetectIntentPrefix + d + DetectIntentSuffix, '/') == ["", "conversations", d, "intent-detected"]
  {
    assert DetectIntentPrefix == ['/'] + "conversations" + ['/'];
    assert DetectIntentSuffix == ['/'] + "intent-detected";
    PathSegments("conversations", d, "intent-detected");
  }

  /** The path of a validation or execution URL names the intent, as long as the intent
      holds no '/'; the two endpoints differ only in the last segment. */
  lemma IntentPathNamesIntent(baseUrl: string, endpoint: string, intent: string)
    requires endpoint == ValidationEndpoint || endpoint == ExecutionEndpoint
    requires '/' !in intent
    ensures GenerateApiEndpoint(baseUrl, endpoint, Some(intent), None).Ok?
    ensures var url := GenerateApiEndpoint(baseUrl, endpoint, Some(intent), None).value;
      Split(url[|baseUrl|..], '/') ==
        ["", "intents", intent, if endpoint == ValidationEndpoint then "validate" else "execute"]
  {
    var last := if endpoint == ValidationEndpoint then "validate" else "execute";
    var suffix := if endpoint == ValidationEndpoint then ValidateSuffix else ExecuteSuffix;
    var path := IntentsPrefix + intent + suffix;
    UrlsAreGenerated(baseUrl, 0, intent);
    assert GenerateApiEndpoint(baseUrl, endpoint, Some(intent), None) == Ok(baseUrl + path);
    assert (baseUrl + path)[|baseUrl|..] == path;
    assert IntentsPrefix == ['/'] + "intents" + ['/'];
    assert suffix == ['/'] + last;
    PathSegments("intents", intent, last);
  }

  /** Without a conversation id the path says "None", as Python's formatting does. */
  lemma MissingConversationIdRendersNone(baseUrl: string)
    ensures GenerateApiEndpoint(baseUrl, IntentDetectionEndpoint, None, None) ==
              Ok(baseUrl + "/conversations/None/intent-detected")
  {
    assert DetectIntentPrefix + "None" + DetectIntentSuffix == "/conversations/None/intent-detected";
  }

  /** An intent given as JSON `null` is sent to the "None" intent's paths. */
  lemma NullIntentNamesNone(baseUrl: string, repr: Json -> string)
    ensures ValidateUrl(baseUrl, FormatValue(JNull, repr)) == baseUrl + "/intents/None/validate"
    ensures ExecuteUrl(baseUrl, FormatValue(JNull, repr)) == baseUrl + "/intents/None/execute"
  {
    assert IntentsPrefix + "None" + ValidateSuffix == "/intents/None/validate";
    assert IntentsPrefix + "None" + ExecuteSuffix == "/intents/None/execute";
  }

  /** The body of an intent report. */
  function IntentBody(intent: string): Json {
    JObject(map["detected_intent" := JStr(intent)])
  }

  /** The body of an execution report: the parameters as given, and a fixed reply text
      that depends only on whether parameters are missing. */
  function ExecutionBody(conversationId: int, params: map<string, Json>, missingParameters: bool): Json {
    JObject(map[
      "conversation_id" := JInt(conversationId),
      "payload" := JObject(params),
      "generated_response" := JStr(if missingParameters then IncompleteResponse else CompleteResponse)])
  }

  function DetectIntentUrl(baseUrl: string, conversationId: int): string {
    baseUrl + (DetectIntentPrefix + IntToString(conversationId) + DetectIntentSuffix)
  }

  function ValidateUrl(baseUrl: string, intent: string): string {
    baseUrl + (IntentsPrefix + intent + ValidateSuffix)
  }

  function ExecuteUrl(baseUrl: string, intent: string): string {
    baseUrl + (IntentsPrefix + intent + ExecuteSuffix)
  }

  /** The three fixed URLs are what `generate_api_endpoint` builds. */
  lemma UrlsAreGenerated(baseUrl: string, conversationId: int, intent: string)
    ensures GenerateApiEndpoint(baseUrl, IntentDetectionEndpoint, None, Some(conversationId)) == Ok(DetectIntentUrl(baseUrl, conversationId))
    ensures GenerateApiEndpoint(baseUrl, ValidationEndpoint, Some(intent), None) == Ok(ValidateUrl(baseUrl, intent))
    ensures GenerateApiEndpoint(baseUrl, ExecutionEndpoint, Some(intent), None) == Ok(ExecuteUrl(baseUrl, intent))
  {
  }

  /** `send_intent_response`: one PUT of the intent; a request failure becomes a
      `RuntimeError`. */
  function SendIntentResponse(http: Http, baseUrl: string, conversationId: int, intent: string): (d: Delivery)
    ensures d.requests == [Put(DetectIntentUrl(baseUrl, conversationId), IntentBody(intent))]
    ensures d.outcome.Ok? <==> http(d.requests[0]).Replied?
    ensures d.outcome.Raise? ==>
              d.outcome.error == RuntimeError("Failed to send intent response: " + http(d.requests[0]).reason)
  {
    var request := Put(DetectIntentUrl(baseUrl, conversationId), IntentBody(intent));
    match http(request)
    case RequestFailed(e) => Delivery(Raise(RuntimeError("Failed to send intent response: " + e)), [request])
    case Replied(_) => Delivery(Ok(()), [request])
  }

  /** `send_execution_response`: one POST of the execution body. */
  function SendExecutionResponse(
    http: Http, baseUrl: string, intent: string, params: map<string, Json>,
    conversationId: int, missingParameters: bool): (d: Delivery)
    ensures d.requests == [Post(ExecuteUrl(baseUrl, intent), ExecutionBody(conversationId, params, missingParameters))]
    ensures d.outcome.Ok? <==> http(d.requests[0]).Replied?
    ensures d.outcome.Raise? ==>
              d.outcome.error == RuntimeError("Failed to send execution response: " + http(d.requests[0]).reason)
  {
    var request := Post(ExecuteUrl(baseUrl, intent), ExecutionBody(conversationId, params, missingParameters));
    match http(request)
    case RequestFailed(e) => Delivery(Raise(RuntimeError("Failed to send execution response: " + e)), [request])
    case Replied(_) => Delivery(Ok(()), [request])
  }

  /** `send_validation_response`: POST the parameters, then, if that was answered, send
      exactly one execution report, flagged incomplete iff the answer's
      `missing_parameters` is truthy. The execution report's own error passes through. */
  function SendValidationResponse(
    http: Http, baseUrl: string, intent: string, params: map<string, Json>, conversationId: int): (d: Delivery)
    ensures 1 <= |d.requests| <= 2
    ensures d.requests[0] == Post(ValidateUrl(baseUrl, intent), JObject(params))
    ensures |d.requests| == 2 <==> http(d.requests[0]).Replied?
    ensures |d.requests| == 2 ==>
              d.requests[1] == Post(ExecuteUrl(baseUrl, intent),
                                    ExecutionBody(conversationId, params, Truthy(http(d.requests[0]).missingParameters)))
    ensures |d.requests| == 1 ==>
              d.outcome == Raise(RuntimeError("Failed to send validation response: " + http(d.requests[0]).reason))
    ensures |d.requests| == 2 ==>
              d.outcome == SendExecutionResponse(http, baseUrl, intent, params, conversationId,
                                                 Truthy(http(d.requests[0]).missingParameters)).outcome
  {
    var request := Post(ValidateUrl(baseUrl, intent), JObject(params));
    match http(request)
    case RequestFailed(e) => Delivery(Raise(RuntimeError("Failed to send validation response: " + e)), [request])
    case Replied(missing) =>
      var execution := SendExecutionResponse(http, baseUrl, intent, params, conversationId, Truthy(missing));
      Delivery(execution.outcome, [request] + execution.requests)
  }

  /** The execution body carries the parameters unchanged, and says "Complete." exactly
      when no parameters are missing. */
  lemma ExecutionBodyCarriesParameters(conversationId: int, params: map<string, Json>, missingParameters: bool)
    ensures ExecutionBody(conversationId, params, missingParameters).fields["payload"] == JObject(params)
    ensures ExecutionBody(conversationId, params, missingParameters).fields["conversation_id"] == JInt(conversationId)
    ensures ExecutionBody(conversationId, params, missingParameters).fields["generated_response"] == JStr(CompleteResponse) <==>
              !missingParameters
  {
  }
}
