/** The request records of `src/models.py` and the text they render into prompts.

    Each record's `__str__` becomes a `...Text` function; the list renderers join
    those texts with a newline, in list order.
 */
module Models {
  import opened Common
  import opened Text

  /** One e-mail of the conversation. A missing subject is Python's `None`. */
  datatype Message = Message(
    sender: string,
    recipient: string,
    subject: Option<string>,
    role: string,
    message: string)

  /** One entry of the intent catalog. */
  datatype Intent = Intent(id: int, slug: string, description: string)

  datatype IntentRequest = IntentRequest(messages: seq<Message>, intents: seq<Intent>)

  /** One parameter to extract; `dataType` is free text such as "integer" or "date". */
  datatype DataParameter = DataParameter(key: string, dataType: string, description: string)

  datatype ExtractRequest = ExtractRequest(messages: seq<Message>, dataParameters: seq<DataParameter>)

  /** How an f-string shows an optional string field. */
  function OptionalText(s: Option<string>): string {
    match s
    case None => "None"
    case Some(t) => t
  }

  /** The three text lines of a message, before the newlines that end each of them. */
  function MessageLines(m: Message): seq<string> {
    [ "Sender: " + m.sender + ", Recipient: " + m.recipient + " ",
      "Subject: " + OptionalText(m.subject) + ", Role: " + m.role + " ",
      "Message: " + m.message ]
  }

  /** `str(message)`. */
  function MessageText(m: Message): (r: string)
    ensures |r| > 0 && r[|r| - 1] == '\n'
  {
    "Sender: " + m.sender + ", Recipient: " + m.recipient + " \n"
    + "Subject: " + OptionalText(m.subject) + ", Role: " + m.role + " \n"
    + "Message: " + m.message + "\n"
  }

  /** `str(intent)`. */
  function IntentText(i: Intent): string {
    IntToString(i.id) + " = " + i.slug + ": " + i.description
  }

  /** `str(parameter)`. */
  function ParameterText(p: DataParameter): string {
    p.key + " [" + p.dataType + "]: " + p.description
  }

  function MessageTexts(ms: seq<Message>): (r: seq<string>)
    ensures |r| == |ms|
  {
    if |ms| == 0 then [] else [MessageText(ms[0])] + MessageTexts(ms[1..])
  }

  function IntentTexts(intents: seq<Intent>): (r: seq<string>)
    ensures |r| == |intents|
  {
    if |intents| == 0 then [] else [IntentText(intents[0])] + IntentTexts(intents[1..])
  }

  function ParameterTexts(ps: seq<DataParameter>): (r: seq<string>)
    ensures |r| == |ps|
  {
    if |ps| == 0 then [] else [ParameterText(ps[0])] + ParameterTexts(ps[1..])
  }

  /** `output_stringified_messages`, shared by both request kinds. */
  function RenderMessages(ms: seq<Message>): string {
    Join("\n", MessageTexts(ms))
  }

  /** `output_stringified_intents`. */
  function RenderIntents(intents: seq<Intent>): string {
    Join("\n", IntentTexts(intents))
  }

  /** `output_stringified_data_parameters`. */
  function RenderParameters(ps: seq<DataParameter>): string {
    Join("\n", ParameterTexts(ps))
  }

  /** No field of the message holds a line break. */
  predicate SingleLineFields(m: Message) {
    && '\n' !in m.sender
    && '\n' !in m.recipient
    && '\n' !in OptionalText(m.subject)
    && '\n' !in m.role
    && '\n' !in m.message
  }

  /** The lines of a rendered transcript: each message's three lines, then a blank line. */
  function TranscriptLines(ms: seq<Message>): (r: seq<string>)
    ensures |r| == 4 * |ms|
    ensures (forall k :: 0 <= k < |ms| ==> SingleLineFields(ms[k])) ==>
              forall j :: 0 <= j < |r| ==> '\n' !in r[j]
  {
    if |ms| == 0 then []
    else MessageLines(ms[0]) + [""] + TranscriptLines(ms[1..])
  }

  /** A message renders as its three lines, each ended by a newline. */
  lemma MessageTextIsLines(m: Message)
    ensures MessageText(m) == Join("\n", MessageLines(m) + [""])
  {
    var ls := MessageLines(m);
    assert ls + [""] == [ls[0]] + [ls[1], ls[2], ""];
    JoinCons("\n", ls[0], [ls[1], ls[2], ""]);
    assert [ls[1], ls[2], ""] == [ls[1]] + [ls[2], ""];
    JoinCons("\n", ls[1], [ls[2], ""]);
    assert [ls[2], ""] == [ls[2]] + [""];
    JoinCons("\n", ls[2], [""]);
  }

  /** Splitting a rendered transcript at line breaks gives four lines per message, in
      order: sender line, subject line, body line, and a blank line, so that two
      consecutive messages are separated by an empty line. */
  lemma {:induction false} TranscriptSplitsIntoLines(ms: seq<Message>)
    requires |ms| >= 1
    requires forall k :: 0 <= k < |ms| ==> SingleLineFields(ms[k])
    ensures Split(RenderMessages(ms), '\n') == TranscriptLines(ms)
  {
    RenderMessagesIsJoinOfLines(ms);
    SplitJoin(TranscriptLines(ms), '\n');
  }

  lemma {:induction false} RenderMessagesIsJoinOfLines(ms: seq<Message>)
    requires |ms| >= 1
    ensures RenderMessages(ms) == Join("\n", TranscriptLines(ms))
    decreases |ms|
  {
    MessageTextIsLines(ms[0]);
    var head := MessageLines(ms[0]) + [""];
    if |ms| == 1 {
      assert TranscriptLines(ms) == head;
      assert MessageTexts(ms) == [MessageText(ms[0])];
    } else {
      RenderMessagesIsJoinOfLines(ms[1..]);
      assert MessageTexts(ms) == [MessageText(ms[0])] + MessageTexts(ms[1..]);
      JoinCons("\n", MessageText(ms[0]), MessageTexts(ms[1..]));
      JoinAppend("\n", head, TranscriptLines(ms[1..]));
    }
  }

  /** A missing subject is shown as the word None. */
  lemma MissingSubjectShowsNone(m: Message)
    requires m.subject == None
    ensures Contains(MessageText(m), "Subject: None, Role: " + m.role)
  {
    var a := "Sender: " + m.sender + ", Recipient: " + m.recipient + " \n";
    var b := " \n" + "Message: " + m.message + "\n";
    assert MessageText(m) == a + ("Subject: None, Role: " + m.role) + b;
    ContainsInContext(a, "Subject: None, Role: " + m.role, b);
  }

  /** The intent list has one line per catalog entry, in catalog order, and no
      trailing newline: splitting it at line breaks gives back exactly the entries. */
  lemma IntentListSplitsIntoEntries(intents: seq<Intent>)
    requires |intents| >= 1
    requires forall k :: 0 <= k < |intents| ==> '\n' !in intents[k].slug && '\n' !in intents[k].description
    ensures Split(RenderIntents(intents), '\n') == IntentTexts(intents)
  {
    forall k | 0 <= k < |intents|
      ensures '\n' !in IntentTexts(intents)[k]
    {
      IntentTextsAt(intents, k);
    }
    SplitJoin(IntentTexts(intents), '\n');
  }

  lemma {:induction false} IntentTextsAt(intents: seq<Intent>, k: nat)
    requires k < |intents|
    requires '\n' !in intents[k].slug && '\n' !in intents[k].description
    ensures IntentTexts(intents)[k] == IntentText(intents[k])
    ensures '\n' !in IntentText(intents[k])
    decreases k
  {
    if k > 0 {
      IntentTextsAt(intents[1..], k - 1);
    }
    var i := intents[k];
    var num := if i.id < 0 then NatToString(-i.id) else NatToString(i.id);
    assert forall j :: 0 <= j < |num| ==> IsDigit(num[j]);
  }

  /** The parameter list has one line per parameter, in order. */
  lemma {:induction false} ParameterListSplitsIntoEntries(ps: seq<DataParameter>)
    requires |ps| >= 1
    requires forall k :: 0 <= k < |ps| ==> '\n' !in ParameterText(ps[k])
    ensures Split(RenderParameters(ps), '\n') == ParameterTexts(ps)
  {
    ParameterTextsAt(ps);
    SplitJoin(ParameterTexts(ps), '\n');
  }

  lemma {:induction false} ParameterTextsAt(ps: seq<DataParameter>)
    ensures forall k :: 0 <= k < |ps| ==> ParameterTexts(ps)[k] == ParameterText(ps[k])
    decreases |ps|
  {
    if |ps| > 0 {
      ParameterTextsAt(ps[1..]);
    }
  }

  /** Empty lists render as empty text. */
  lemma EmptyListsRenderEmpty()
    ensures RenderMessages([]) == "" && RenderIntents([]) == "" && RenderParameters([]) == ""
  {
  }
}
