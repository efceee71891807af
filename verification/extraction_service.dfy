/** `src/data_extraction_service.py`: build the parsing prompt, cut a JSON object out of
    the model's reply, keep the declared parameters it carries, and retry once on the
    alternate model when the result holds an "error" key.

    The JSON parser is a collaborator: `JsonParser` maps a candidate text to the object
    it decodes to, or to `None` when decoding fails.
 */
module ExtractionService {
  import opened Common
  import opened Text
  import opened Config
  import opened Models
  import opened Bedrock
  import opened Retry

  type JsonParser = string -> Option<map<string, Json>>

  /** The key that marks a failed validation, in band with the parameter keys. */
  const ErrorKey: string := "error"
  const InvalidResponsePrefix: string := "invalid_response: "

  /** The Python type a declared parameter's field is given. */
  datatype Kind = IntKind | DateKind | TimeKind | BoolKind | StrKind

  /** The classification of `generate_dynamic_model`: case-insensitive substring tests
      for "int", "date", "time" and "bool", in that order, else string. */
  function ClassifyKind(dataType: string): (k: Kind)
    ensures k == IntKind <==> Contains(ToLower(dataType), "int")
    ensures k == DateKind <==> !Contains(ToLower(dataType), "int") && Contains(ToLower(dataType), "date")
    ensures k == TimeKind <==>
              !Contains(ToLower(dataType), "int") && !Contains(ToLower(dataType), "date") && Contains(ToLower(dataType), "time")
    ensures k == BoolKind <==>
              !Contains(ToLower(dataType), "int") && !Contains(ToLower(dataType), "date") &&
              !Contains(ToLower(dataType), "time") && Contains(ToLower(dataType), "bool")
  {
    var t := ToLower(dataType);
    if Contains(t, "int") then IntKind
    else if Contains(t, "date") then DateKind
    else if Contains(t, "time") then TimeKind
    else if Contains(t, "bool") then BoolKind
    else StrKind
  }

  /** "datetime" holds both "date" and "time" and is classified by the earlier test. */
  lemma DatetimeIsDate()
    ensures ClassifyKind("datetime") == DateKind
  {
    assert ToLower("datetime") == "datetime";
    MissingCharExcludes("datetime", "int", 1);
    ContainsInContext("", "date", "time");
    assert "datetime" == "" + "date" + "time";
  }

  /** Case does not matter: "DATE" is a date. */
  lemma UpperCaseDateIsDate()
    ensures ClassifyKind("DATE") == DateKind
  {
    assert ToLower("DATE") == "date";
    MissingCharExcludes("date", "int", 0);
    ContainsInContext("", "date", "");
  }

  /** Entry `k` is the last declaration of its key. */
  predicate IsLastDeclaration(ps: seq<DataParameter>, k: int) {
    0 <= k < |ps| && forall j :: k < j < |ps| ==> ps[j].key != ps[k].key
  }

  /** The declared type of each key, the last declaration of a key winning, as in the
      dict comprehension that opens `generate_dynamic_model`. */
  function DeclaredTypes(ps: seq<DataParameter>): (types: map<string, string>)
    ensures forall k :: 0 <= k < |ps| ==> ps[k].key in types
  {
    if |ps| == 0 then map[]
    else
      var init := ps[..|ps| - 1];
      assert forall j :: 0 <= j < |init| ==> init[j] == ps[j];
      DeclaredTypes(init)[ps[|ps| - 1].key := ps[|ps| - 1].dataType]
  }

  /** Every key of the declared types was declared. */
  lemma {:induction false} DeclaredKeysAreDeclared(ps: seq<DataParameter>, key: string)
    requires key in DeclaredTypes(ps)
    ensures exists k :: 0 <= k < |ps| && ps[k].key == key
  {
    var init := ps[..|ps| - 1];
    if key != ps[|ps| - 1].key {
      DeclaredKeysAreDeclared(init, key);
      var k :| 0 <= k < |init| && init[k].key == key;
      assert ps[k].key == key;
    }
  }

  /** The last declaration of a key fixes its type. */
  lemma {:induction false} LastDeclarationWins(ps: seq<DataParameter>, k: int)
    requires IsLastDeclaration(ps, k)
    ensures DeclaredTypes(ps)[ps[k].key] == ps[k].dataType
  {
    var init := ps[..|ps| - 1];
    if k < |ps| - 1 {
      assert ps[|ps| - 1].key != ps[k].key;
      assert init[k] == ps[k];
      assert IsLastDeclaration(init, k) by {
        forall j | k < j < |init| ensures init[j].key != init[k].key {
          assert init[j] == ps[j];
        }
      }
      LastDeclarationWins(init, k);
    }
  }

  /** The fields of the model `generate_dynamic_model` builds: one per declared key,
      of the kind its declared type classifies as. */
  function DynamicModelFields(ps: seq<DataParameter>): (fields: map<string, Kind>)
    ensures fields.Keys == DeclaredTypes(ps).Keys
    ensures forall key :: key in fields ==> fields[key] == ClassifyKind(DeclaredTypes(ps)[key])
  {
    var types := DeclaredTypes(ps);
    map key | key in types :: ClassifyKind(types[key])
  }

  /** The declared keys, the fields a reply is validated against. */
  function SchemaKeys(req: ExtractRequest): set<string> {
    DynamicModelFields(req.dataParameters).Keys
  }

  /** `response.replace("\n", "")`. */
  function RemoveNewlines(s: string): (r: string)
    ensures '\n' !in r
    ensures |r| <= |s|
    ensures '\n' !in s ==> r == s
    ensures forall c :: c != '\n' ==> multiset(r)[c] == multiset(s)[c]
  {
    if |s| == 0 then ""
    else
      assert s == [s[0]] + s[1..];
      (if s[0] == '\n' then "" else [s[0]]) + RemoveNewlines(s[1..])
  }

  /** Removing newlines from a concatenation removes them from each part, so the
      order of everything else is kept. */
  lemma {:induction false} RemoveNewlinesAppend(a: string, b: string)
    ensures RemoveNewlines(a + b) == RemoveNewlines(a) + RemoveNewlines(b)
    decreases |a|
  {
    if |a| > 0 {
      assert (a + b)[1..] == a[1..] + b;
      RemoveNewlinesAppend(a[1..], b);
    } else {
      assert a + b == b;
    }
  }

  /** Index of the first '}' or newline at or after `from`, or `|s|`: where the pattern
      `\{.*?\}` stops looking once it has passed a '{'. */
  function StopAfter(s: string, from: nat): (j: nat)
    requires from <= |s|
    ensures from <= j <= |s|
    ensures j < |s| ==> s[j] == '}' || s[j] == '\n'
    ensures forall m :: from <= m < j ==> s[m] != '}' && s[m] != '\n'
    decreases |s| - from
  {
    if from == |s| then from
    else if s[from] == '}' || s[from] == '\n' then from
    else StopAfter(s, from + 1)
  }

  /** `s[i..j + 1]` is a match of `\{.*?\}`: a '{', then no '}' or newline, then a '}'. */
  predicate IsBraceSpanAt(s: string, i: int, j: int) {
    && 0 <= i < j < |s|
    && s[i] == '{' && s[j] == '}'
    && forall m :: i < m < j ==> s[m] != '}' && s[m] != '\n'
  }

  /** A span starting at `i` can only end at the first stop after `i`. */
  lemma BraceSpanEndsAtStop(s: string, i: int, j: int)
    requires 0 <= i < |s|
    ensures IsBraceSpanAt(s, i, j) <==>
              s[i] == '{' && j == StopAfter(s, i + 1) && j < |s| && s[j] == '}'
  {
  }

  /** The leftmost match of `\{.*?\}` at or after `from`, as (start, end) indices. */
  function FindBraceSpan(s: string, from: nat): (r: Option<(nat, nat)>)
    requires from <= |s|
    ensures r.Some? ==> from <= r.value.0 && IsBraceSpanAt(s, r.value.0, r.value.1)
    ensures r.Some? ==> forall i, j :: from <= i < r.value.0 ==> !IsBraceSpanAt(s, i, j)
    ensures r.None? ==> forall i, j :: from <= i ==> !IsBraceSpanAt(s, i, j)
    decreases |s| - from
  {
    if from == |s| then None
    else
      var stop := StopAfter(s, from + 1);
      forall j ensures IsBraceSpanAt(s, from, j) <==> s[from] == '{' && j == stop && j < |s| && s[j] == '}' {
        BraceSpanEndsAtStop(s, from, j);
      }
      if s[from] == '{' && stop < |s| && s[stop] == '}' then Some((from, stop))
      else FindBraceSpan(s, from + 1)
  }

  /** `c` is a comma followed only by whitespace up to the final '}': a match of `,\s*}`. */
  predicate TrailingCommaAt(span: string, c: int) {
    && 0 <= c < |span| - 1
    && span[c] == ','
    && forall m :: c < m < |span| - 1 ==> IsSpace(span[m])
  }

  /** Start of the run of whitespace that ends just before index `end`. */
  function SpaceRunStart(s: string, end: nat): (k: nat)
    requires end <= |s|
    ensures k <= end
    ensures forall m :: k <= m < end ==> IsSpace(s[m])
    ensures k > 0 ==> !IsSpace(s[k - 1])
  {
    if end == 0 || !IsSpace(s[end - 1]) then end else SpaceRunStart(s, end - 1)
  }

  /** `re.sub(r',\s*}', '}', span)` on a span whose only '}' is its last character: the
      comma that is followed by nothing but whitespace is dropped together with that
      whitespace; nothing else changes. */
  function RepairTrailingComma(span: string): (r: string)
    requires |span| >= 1 && span[|span| - 1] == '}' && '}' !in span[..|span| - 1]
    ensures forall c :: TrailingCommaAt(span, c) ==> r == span[..c] + "}"
    ensures (forall c :: !TrailingCommaAt(span, c)) ==> r == span
  {
    var k := SpaceRunStart(span, |span| - 1);
    if k > 0 && span[k - 1] == ',' then
      assert TrailingCommaAt(span, k - 1);
      TrailingCommaUnique(span, k - 1);
      span[..k - 1] + "}"
    else
      assert forall c :: !TrailingCommaAt(span, c) by {
        forall c | 0 <= c < |span| - 1 && span[c] == ','
          ensures !TrailingCommaAt(span, c)
        {
          if c < k - 1 {
            assert !IsSpace(span[k - 1]);
          }
        }
      }
      span
  }

  /** A span has at most one trailing comma. */
  lemma TrailingCommaUnique(span: string, c: int)
    requires TrailingCommaAt(span, c)
    ensures forall d :: TrailingCommaAt(span, d) ==> d == c
  {
    assert !IsSpace(',');
  }

  /** A brace span holds no '}' but its last character. */
  lemma BraceSpanHasOneClose(s: string, i: int, j: int)
    requires IsBraceSpanAt(s, i, j)
    ensures var span := s[i..j + 1]; |span| >= 2 && span[0] == '{' && span[|span| - 1] == '}' && '}' !in span[..|span| - 1]
  {
    var span := s[i..j + 1];
    assert forall m :: 0 <= m < |span| ==> span[m] == s[i + m];
    assert forall m :: 0 <= m < |span| - 1 ==> span[..|span| - 1][m] == span[m];
  }

  /** `extract_json_like_content`: the first brace span with its trailing comma repaired,
      or the whole text when there is no span. */
  function ExtractJsonLikeContent(s: string): (r: string)
    ensures FindBraceSpan(s, 0).None? ==> r == s
    ensures FindBraceSpan(s, 0).Some? ==> |r| >= 2 && r[0] == '{' && r[|r| - 1] == '}'
  {
    var found := FindBraceSpan(s, 0);
    if found.None? then s
    else
      BraceSpanHasOneClose(s, found.value.0, found.value.1);
      RepairTrailingComma(s[found.value.0..found.value.1 + 1])
  }

  /** `FindBraceSpan` finds the leftmost span. */
  lemma FirstSpanFound(s: string, i: int, j: int)
    requires IsBraceSpanAt(s, i, j)
    requires forall i', j' :: 0 <= i' < i ==> !IsBraceSpanAt(s, i', j')
    ensures FindBraceSpan(s, 0) == Some((i, j))
  {
    var r := FindBraceSpan(s, 0);
    assert r.Some?;
    assert r.value.0 == i;
    BraceSpanEndsAtStop(s, i, j);
    BraceSpanEndsAtStop(s, i, r.value.1);
  }

  /** The first brace span of any text, repaired, is what `extract_json_like_content`
      returns: the leftmost '{' that a '}' closes before any newline, up to that '}'. */
  lemma ExtractTakesFirstSpan(s: string, i: int, j: int)
    requires IsBraceSpanAt(s, i, j)
    requires forall i', j' :: 0 <= i' < i ==> !IsBraceSpanAt(s, i', j')
    ensures '}' !in s[i..j + 1][..j - i]
    ensures ExtractJsonLikeContent(s) == RepairTrailingComma(s[i..j + 1])
  {
    BraceSpanHasOneClose(s, i, j);
    FirstSpanFound(s, i, j);
    ExtractRepairsFoundSpan(s);
  }

  /** When a span is found, the result is that span repaired. */
  lemma ExtractRepairsFoundSpan(s: string)
    requires FindBraceSpan(s, 0).Some?
    ensures var found := FindBraceSpan(s, 0).value;
      var span := s[found.0..found.1 + 1];
      && |span| >= 1 && span[|span| - 1] == '}' && '}' !in span[..|span| - 1]
      && ExtractJsonLikeContent(s) == RepairTrailingComma(span)
  {
    var found := FindBraceSpan(s, 0).value;
    BraceSpanHasOneClose(s, found.0, found.1);
  }

  /** A text that is one brace span from end to end is repaired as a whole. */
  lemma WholeSpanIsRepaired(s: string)
    requires |s| >= 2 && IsBraceSpanAt(s, 0, |s| - 1)
    ensures '}' !in s[..|s| - 1]
    ensures ExtractJsonLikeContent(s) == RepairTrailingComma(s)
  {
    ExtractTakesFirstSpan(s, 0, |s| - 1);
    assert s[0..|s|] == s;
  }

  /** "{body}" is one brace span when `body` holds no '}' and no newline. */
  lemma BracedBodyIsSpan(body: string)
    requires '}' !in body && '\n' !in body
    ensures IsBraceSpanAt("{" + body + "}", 0, |body| + 1)
  {
    var t := "{" + body + "}";
    forall m | 0 < m < |t| - 1 ensures t[m] != '}' && t[m] != '\n' {
      assert t[m] == body[m - 1];
    }
  }

  /** A trailing comma, with any whitespace after it, is invisible: "{body,}" yields
      exactly what "{body}" yields. */
  lemma TrailingCommaEquivalence(body: string, ws: string)
    requires '}' !in body && '\n' !in body && '\n' !in ws
    requires forall m :: 0 <= m < |ws| ==> IsSpace(ws[m])
    requires forall c :: !TrailingCommaAt("{" + body + "}", c)
    ensures ExtractJsonLikeContent("{" + body + "," + ws + "}") == "{" + body + "}"
    ensures ExtractJsonLikeContent("{" + body + "}") == "{" + body + "}"
  {
    TrailingCommaIsDropped(body, ws);
    BracedBodyIsSpan(body);
    WholeSpanIsRepaired("{" + body + "}");
  }

  /** "{body,ws}" is repaired to "{body}". */
  lemma TrailingCommaIsDropped(body: string, ws: string)
    requires '}' !in body && '\n' !in body && '\n' !in ws
    requires forall m :: 0 <= m < |ws| ==> IsSpace(ws[m])
    ensures ExtractJsonLikeContent("{" + body + "," + ws + "}") == "{" + body + "}"
  {
    var s := "{" + body + "," + ws + "}";
    CommaBodyIsSpan(body, ws);
    WholeSpanIsRepaired(s);
    assert TrailingCommaAt(s, |body| + 1);
    assert s[..|body| + 1] == "{" + body;
  }

  /** "{body,ws}" is one brace span. */
  lemma CommaBodyIsSpan(body: string, ws: string)
    requires '}' !in body && '\n' !in body && '\n' !in ws
    requires forall m :: 0 <= m < |ws| ==> IsSpace(ws[m])
    ensures var s := "{" + body + "," + ws + "}"; |s| >= 2 && IsBraceSpanAt(s, 0, |s| - 1)
  {
    var inner := body + "," + ws;
    assert '}' !in inner && '\n' !in inner by {
      forall m | 0 <= m < |inner| ensures inner[m] != '}' && inner[m] != '\n' {
        if m > |body| { assert IsSpace(ws[m - |body| - 1]); }
      }
    }
    assert "{" + inner + "}" == "{" + body + "," + ws + "}";
    BracedBodyIsSpan(inner);
  }

  /** The object the first span's text cuts a nested object short: the span stops at the
      inner '}'. */
  lemma NestedObjectIsCut()
    ensures ExtractJsonLikeContent("{\"a\":{\"b\":1}}") == "{\"a\":{\"b\":1}"
  {
    var s := "{\"a\":{\"b\":1}}";
    assert IsBraceSpanAt(s, 0, 11);
    assert s[0..12] == "{\"a\":{\"b\":1}";
    var span := s[0..12];
    var k := SpaceRunStart(span, 11);
    assert !IsSpace(span[10]);
  }

  /** Keep the declared keys whose parsed values are not null, with their values as
      parsed. */
  function Project(obj: map<string, Json>, keys: set<string>): (r: map<string, Json>)
    ensures r.Keys == set k | k in keys && k in obj && obj[k] != JNull
    ensures forall k :: k in r ==> r[k] == obj[k]
  {
    map k | k in keys && k in obj && obj[k] != JNull :: obj[k]
  }

  /** The text `validate_llm_response` hands to the parser. */
  function Candidate(response: string): string {
    ExtractJsonLikeContent(RemoveNewlines(response))
  }

  /** `validate_llm_response`: on a decode failure, the error map naming the candidate
      text; otherwise the declared, non-null keys of the decoded object, values as
      decoded. */
  function ValidateLlmResponse(response: string, req: ExtractRequest, parse: JsonParser): (r: map<string, Json>)
    ensures parse(Candidate(response)).None? ==>
              r == map[ErrorKey := JStr(InvalidResponsePrefix + Candidate(response))]
    ensures parse(Candidate(response)).Some? ==>
              var obj := parse(Candidate(response)).value;
              && r.Keys == (set k | k in SchemaKeys(req) && k in obj && obj[k] != JNull)
              && forall k :: k in r ==> r[k] == obj[k]
  {
    var candidate := Candidate(response);
    match parse(candidate)
    case None => map[ErrorKey := JStr(InvalidResponsePrefix + candidate)]
    case Some(obj) => Project(obj, SchemaKeys(req))
  }

  /** The result only ever holds declared keys, plus "error" when decoding failed. */
  lemma ClosedKeySet(response: string, req: ExtractRequest, parse: JsonParser)
    ensures ValidateLlmResponse(response, req, parse).Keys <= SchemaKeys(req) + {ErrorKey}
    ensures ErrorKey in ValidateLlmResponse(response, req, parse) ==>
              parse(Candidate(response)).None? || ErrorKey in SchemaKeys(req)
  {
  }

  /** Keys the request does not declare have no effect on the result. */
  lemma ExtraKeysInert(obj: map<string, Json>, key: string, v: Json, req: ExtractRequest)
    requires key !in SchemaKeys(req)
    ensures Project(obj[key := v], SchemaKeys(req)) == Project(obj, SchemaKeys(req))
  {
  }

  /** An object with only declared keys and no nulls comes back as it was decoded. */
  lemma DecodedObjectRoundTrip(response: string, req: ExtractRequest, parse: JsonParser)
    requires parse(Candidate(response)).Some?
    requires parse(Candidate(response)).value.Keys <= SchemaKeys(req)
    requires forall k :: k in parse(Candidate(response)).value ==> parse(Candidate(response)).value[k] != JNull
    ensures ValidateLlmResponse(response, req, parse) == parse(Candidate(response)).value
  {
  }

  /** The declared kinds play no part: two requests declaring the same keys validate
      every reply the same way. */
  lemma KindsAreIgnored(response: string, req1: ExtractRequest, req2: ExtractRequest, parse: JsonParser)
    requires SchemaKeys(req1) == SchemaKeys(req2)
    ensures ValidateLlmResponse(response, req1, parse) == ValidateLlmResponse(response, req2, parse)
  {
  }

  /** "integer" is an integer kind. */
  lemma IntegerIsInt()
    ensures ClassifyKind("integer") == IntKind
  {
    assert ToLower("integer") == "integer";
    ContainsInContext("", "int", "eger");
    assert "integer" == "" + "int" + "eger";
  }

  /** No coercion: a string for an integer-kind key stays the string it was decoded as. */
  lemma NoCoercion(response: string, parse: JsonParser, v: string)
    requires parse(Candidate(response)) == Some(map["duration" := JStr(v)])
    ensures DynamicModelFields([DataParameter("duration", "integer", "Length in minutes")]) == map["duration" := IntKind]
    ensures ValidateLlmResponse(response, ExtractRequest([], [DataParameter("duration", "integer", "Length in minutes")]), parse)
              == map["duration" := JStr(v)]
  {
    IntegerIsInt();
    var ps := [DataParameter("duration", "integer", "Length in minutes")];
    assert ps[0].key == "duration";
    assert SchemaKeys(ExtractRequest([], ps)) == {"duration"};
  }

  /** `generate_prompt`: the parsing template of the Mistral family exactly when the
      primary model id contains "mistral", filled with the parameter list and the
      conversation. */
  function GeneratePrompt(format: Formatter, models: ModelConfig, req: ExtractRequest): (p: string)
    ensures Contains(models.primary, "mistral") ==>
              p == format(Template(MistralFamily, ParsingTask), RenderParameters(req.dataParameters), RenderMessages(req.messages))
    ensures !Contains(models.primary, "mistral") ==>
              p == format(Template(LlamaFamily, ParsingTask), RenderParameters(req.dataParameters), RenderMessages(req.messages))
  {
    format(Template(PromptFamily(models.primary), ParsingTask), RenderParameters(req.dataParameters), RenderMessages(req.messages))
  }

  /** The prompt depends on the primary model id, never on the alternate one; so with
      the default models the retry sends a Llama-template prompt to a Mistral model. */
  lemma RetryKeepsPrimaryTemplate(format: Formatter, primary: string, alternate1: string, alternate2: string, req: ExtractRequest)
    ensures GeneratePrompt(format, ModelConfig(primary, alternate1), req) == GeneratePrompt(format, ModelConfig(primary, alternate2), req)
    ensures GeneratePrompt(format, DefaultModels, req) ==
              format(Template(LlamaFamily, ParsingTask), RenderParameters(req.dataParameters), RenderMessages(req.messages))
    ensures SetupModelKwargs(DefaultModels.alternate, ParsingOperation) == Ok(MistralParsingKwargs)
  {
    DefaultModelFamilies();
    DefaultProfiles();
  }

  /** Whether a validated result counts as failed: it has an "error" key. */
  predicate HasErrorKey(m: map<string, Json>) {
    ErrorKey in m
  }

  /** `extract_data`: one prompt, at most two model calls, the second on the alternate
      model only after a result with an "error" key; the last result is returned. */
  function ExtractData(
    llm: LlmRequest -> Result<string>, format: Formatter, models: ModelConfig,
    req: ExtractRequest, parse: JsonParser): (run: Attempts<map<string, Json>>)
    ensures 1 <= |run.calls| <= 2
    ensures forall k :: 0 <= k < |run.calls| ==>
              run.calls[k] == LlmRequest(GeneratePrompt(format, models, req), ParsingOperation, k == 1)
    ensures |run.calls| == 2 <==>
              llm(run.calls[0]).Ok? && ErrorKey in ValidateLlmResponse(llm(run.calls[0]).value, req, parse)
    ensures run.outcome.Raise? <==> llm(run.calls[|run.calls| - 1]).Raise?
    ensures run.outcome.Raise? ==> run.outcome.error == llm(run.calls[|run.calls| - 1]).error
    ensures run.outcome.Ok? ==>
              run.outcome.value == ValidateLlmResponse(llm(run.calls[|run.calls| - 1]).value, req, parse)
  {
    TwoAttempts(GeneratePrompt(format, models, req), ParsingOperation, llm,
                s => ValidateLlmResponse(s, req, parse), HasErrorKey)
  }

  /** A declared parameter named "error" that the model fills in is mistaken for a
      failure and causes the retry. */
  lemma ErrorParameterTriggersRetry(
    llm: LlmRequest -> Result<string>, format: Formatter, models: ModelConfig,
    req: ExtractRequest, parse: JsonParser, v: Json)
    requires ErrorKey in SchemaKeys(req)
    requires v != JNull
    requires llm(LlmRequest(GeneratePrompt(format, models, req), ParsingOperation, false)).Ok?
    requires parse(Candidate(llm(LlmRequest(GeneratePrompt(format, models, req), ParsingOperation, false)).value))
               == Some(map[ErrorKey := v])
    ensures |ExtractData(llm, format, models, req, parse).calls| == 2
  {
  }
}
