/** Reading a stored line back from its JSON text, as clients of a result File and startup recovery do. */
module LineReading {
  import opened Common
  import opened Json
  import opened BatchLines

  /** What a reader finds in a line: the answer or the error of an OpenAI Batch request, or the result of a Message
      Batch request, whose content is the text of the message or of the error response. */
  datatype Entry =
    | Answer(customId: string, id: string, requestId: string, status: nat, body: string)
    | Error(customId: string, id: string, code: string, message: string)
    | Ending(customId: string, kind: string, content: Option<string>)

  /** Reading an OpenAI Batch line. */
  function ReadOpenAI(text: string): Option<Entry> {
    match (StringField(text, "custom_id"), StringField(text, "id"), Field(text, "error"), Field(text, "response"))
    case (Some(customId), Some(id), Some(error), Some(response)) =>
      if error == "null" then ReadResponse(customId, id, response) else ReadError(customId, id, error)
    case _ => None
  }

  function ReadResponse(customId: string, id: string, response: string): Option<Entry> {
    match (StringField(response, "request_id"), Field(response, "status_code"), Field(response, "body"))
    case (Some(requestId), Some(status), Some(body)) =>
      (match Number(status)
       case Some(n) => Some(Answer(customId, id, requestId, n, body))
       case None => None)
    case _ => None
  }

  function ReadError(customId: string, id: string, error: string): Option<Entry> {
    match (StringField(error, "code"), StringField(error, "message"))
    case (Some(code), Some(message)) => Some(Error(customId, id, code, message))
    case _ => None
  }

  /** Reading a Message Batch line. */
  function ReadMessage(text: string): Option<Entry> {
    match (StringField(text, "custom_id"), Field(text, "result"))
    case (Some(customId), Some(result)) =>
      (match StringField(result, "type")
       case Some(kind) =>
         Some(Ending(customId, kind,
                     if kind == "succeeded" then Field(result, "message") else if kind == "errored" then Field(result, "error") else None))
       case None => None)
    case _ => None
  }

  /** What the reader of a line is to find. */
  function EntryOf(line: Line): Entry {
    match line
    case OpenAI(Success(id, customId, status, requestId, body)) => Answer(customId, id, requestId, status, body)
    case OpenAI(Failure(id, customId, code, message)) => Error(customId, id, code, message)
    case OpenAI(Gateway(id, customId, n)) => Error(customId, id, Code(n), Text(n))
    case Anthropic(Result(customId, canceled)) => Ending(customId, if canceled then "canceled" else "expired", None)
    case Anthropic(Message(customId, message)) => Ending(customId, "succeeded", Some(message))
    case Anthropic(Errored(customId, error)) => Ending(customId, "errored", Some(error))
    case Anthropic(GatewayError(customId, n)) => Ending(customId, "errored", Some(ErrorObject(n)))
  }

  function ReadLine(text: string, openai: bool): Option<Entry> { if openai then ReadOpenAI(text) else ReadMessage(text) }

  lemma ResponseReads(status: nat, requestId: string, body: JsonText)
    ensures var text := Object(Response(status, requestId, body));
            Value(text) && StringField(text, "request_id") == Some(requestId)
            && Field(text, "status_code") == Some(Decimal(status)) && Number(Decimal(status)) == Some(status)
            && Field(text, "body") == Some(body)
  {
    hide Object, Quote, Decimal, Value, Field, StringField, Number;
    QuotedIsRead(requestId);
    NumberIsRead(status);
    var fields := Response(status, requestId, body);
    ObjectIsValue(fields);
    FieldIsRead(fields, 0);
    StringFieldIsRead(fields, 1, requestId);
    FieldIsRead(fields, 2);
  }

  lemma NullIsValue()
    ensures Value("null")
  {
  }

  lemma OuterReads(customId: string, error: string, id: string, response: string)
    requires Value(error) && Value(response)
    ensures var text := Object([("custom_id", Quote(customId)), ("error", error), ("id", Quote(id)), ("response", response)]);
            StringField(text, "custom_id") == Some(customId) && Field(text, "error") == Some(error)
            && StringField(text, "id") == Some(id) && Field(text, "response") == Some(response)
  {
    hide Object, Quote, Value, Field, StringField;
    QuotedIsRead(customId);
    QuotedIsRead(id);
    var fields := [("custom_id", Quote(customId)), ("error", error), ("id", Quote(id)), ("response", response)];
    StringFieldIsRead(fields, 0, customId);
    FieldIsRead(fields, 1);
    StringFieldIsRead(fields, 2, id);
    FieldIsRead(fields, 3);
  }

  lemma ErrorReads(code: string, message: string)
    ensures var text := Object([("code", Quote(code)), ("message", Quote(message))]);
            Value(text) && text != "null" && StringField(text, "code") == Some(code) && StringField(text, "message") == Some(message)
  {
    hide Quote, Value, Field, StringField, Members;
    QuotedIsRead(code);
    QuotedIsRead(message);
    var fields := [("code", Quote(code)), ("message", Quote(message))];
    ObjectIsValue(fields);
    StringFieldIsRead(fields, 0, code);
    StringFieldIsRead(fields, 1, message);
    assert Object(fields)[0] == '{';
  }

  lemma RenderErrorReads(id: string, customId: string, code: string, message: string)
    ensures ReadOpenAI(RenderError(id, customId, code, message)) == Some(Error(customId, id, code, message))
  {
    hide Object, Quote, Value, Field, StringField;
    ErrorReads(code, message);
    NullIsValue();
    OuterReads(customId, Object([("code", Quote(code)), ("message", Quote(message))]), id, "null");
  }

  /** An OpenAI Batch line reads back as its ids and either the status, request id and body or the code and message. */
  lemma OpenAIReadsBack(line: OpenAILine)
    ensures ReadOpenAI(RenderOpenAI(line)) == Some(EntryOf(OpenAI(line)))
  {
    hide Object, Quote, Value, Field, StringField, RenderError, Code, Text, Number, Decimal, Response;
    match line
    case Success(id, customId, status, requestId, body) =>
      ResponseReads(status, requestId, body);
      NullIsValue();
      OuterReads(customId, "null", id, Object(Response(status, requestId, body)));
    case Failure(id, customId, code, message) => RenderErrorReads(id, customId, code, message);
    case Gateway(id, customId, n) => RenderErrorReads(id, customId, Code(n), Text(n));
  }

  lemma OneReads(kind: string)
    ensures var text := Object([("type", Quote(kind))]); Value(text) && StringField(text, "type") == Some(kind)
  {
    hide Object, Quote, Value, Field, StringField;
    QuotedIsRead(kind);
    ObjectIsValue([("type", Quote(kind))]);
    StringFieldIsRead([("type", Quote(kind))], 0, kind);
  }

  lemma TwoRead(name: string, content: string, kind: string)
    requires Value(content) && name != "type"
    ensures var text := Object([(name, content), ("type", Quote(kind))]);
            Value(text) && StringField(text, "type") == Some(kind) && Field(text, name) == Some(content)
  {
    hide Object, Quote, Value, Field, StringField;
    QuotedIsRead(kind);
    var fields := [(name, content), ("type", Quote(kind))];
    ObjectIsValue(fields);
    FieldIsRead(fields, 0);
    StringFieldIsRead(fields, 1, kind);
  }

  /** The gateway's own error response is a value whose inner error has the message and type of the notice. */
  lemma ErrorObjectReads(n: Notice)
    ensures Value(ErrorObject(n)) && StringField(ErrorObject(n), "type") == Some("error")
    ensures Field(ErrorObject(n), "error") == Some(ErrorBody(n))
    ensures StringField(ErrorBody(n), "message") == Some(MessageText(n)) && StringField(ErrorBody(n), "type") == Some(MessageCode(n))
  {
    hide Object, Quote, Value, Field, StringField, MessageText, MessageCode;
    QuotedIsRead(MessageText(n));
    QuotedIsRead(MessageCode(n));
    TwoRead("message", Quote(MessageText(n)), MessageCode(n)) by { assert "message"[0] == 'm'; }
    StringFieldIsRead([("message", Quote(MessageText(n))), ("type", Quote(MessageCode(n)))], 0, MessageText(n));
    NullIsValue();
    QuotedIsRead("error");
    var fields := [("error", ErrorBody(n)), ("request_id", "null"), ("type", Quote("error"))];
    ObjectIsValue(fields);
    FieldIsRead(fields, 0);
    StringFieldIsRead(fields, 2, "error");
  }

  lemma ResultReads(line: MessageLine)
    ensures Value(RenderResult(line))
    ensures StringField(RenderResult(line), "type") == Some(EntryOf(Anthropic(line)).kind)
    ensures line.Message? ==> Field(RenderResult(line), "message") == EntryOf(Anthropic(line)).content
    ensures line.Errored? || line.GatewayError? ==> Field(RenderResult(line), "error") == EntryOf(Anthropic(line)).content
  {
    hide Object, Quote, Value, Field, StringField, ErrorObject;
    match line
    case Result(_, canceled) => OneReads(if canceled then "canceled" else "expired");
    case Message(_, message) => TwoRead("message", message, "succeeded");
    case Errored(_, error) => TwoRead("error", error, "errored");
    case GatewayError(_, n) => ErrorObjectReads(n); TwoRead("error", ErrorObject(n), "errored");
  }

  /** A Message Batch line reads back as its custom id, its kind and its message or error. */
  lemma MessageReadsBack(line: MessageLine)
    ensures ReadMessage(RenderMessage(line)) == Some(EntryOf(Anthropic(line)))
  {
    hide Object, Quote, Value, Field, StringField, RenderResult;
    ResultReads(line);
    QuotedIsRead(line.customId);
    var fields := [("custom_id", Quote(line.customId)), ("result", RenderResult(line))];
    StringFieldIsRead(fields, 0, line.customId);
    FieldIsRead(fields, 1);
    KindsDiffer();
  }

  lemma KindsDiffer()
    ensures "succeeded" != "errored" && "canceled" != "succeeded" && "canceled" != "errored" && "expired" != "succeeded"
            && "expired" != "errored"
  {
    assert "expired"[1] == 'x' && "errored"[1] == 'r';
  }

  /** Every stored line reads back as its entry. */
  lemma LineReadsBack(line: Line)
    ensures ReadLine(Render(line), line.OpenAI?) == Some(EntryOf(line))
  {
    hide ReadOpenAI, ReadMessage, RenderOpenAI, RenderMessage, EntryOf;
    match line
    case OpenAI(l) => OpenAIReadsBack(l);
    case Anthropic(l) => MessageReadsBack(l);
  }

  // ------------------------------------------------------------ the state of a line

  /** `openAIBatchResultState` on the text: succeeded when the error is missing or null, otherwise by its code. */
  function StateInText(text: string): ItemState {
    match Field(text, "error")
    case None => Succeeded
    case Some(error) =>
      if error == "null" then Succeeded
      else (match StringField(error, "code") case Some(code) => CodeState(code) case None => Failed)
  }

  /** `messageBatchResultState` on the text. */
  function MessageStateInText(text: string): ItemState {
    match Field(text, "result")
    case Some(result) => if StringField(result, "type") == Some("succeeded") then Succeeded else Failed
    case None => Failed
  }

  /** The state that recovery reads in the text of a settled line is the state the line stands for. */
  lemma StateIsRead(line: Line)
    ensures ResultState(line) == if line.OpenAI? then StateInText(Render(line)) else MessageStateInText(Render(line))
  {
    hide Object, Quote, Field, StringField, RenderOpenAI, RenderMessage, CodeState, Code, Text;
    match line
    case OpenAI(l) =>
      OpenAIReadsBack(l);
      if l.Gateway? { NoticeStateReadsCode(l.notice); }
      StateOfEntry(RenderOpenAI(l), EntryOf(line));
    case Anthropic(l) => MessageReadsBack(l); KindsDiffer(); KindOfEntry(RenderMessage(l), EntryOf(line));
  }

  lemma StateOfEntry(text: string, entry: Entry)
    requires ReadOpenAI(text) == Some(entry)
    ensures StateInText(text) == if entry.Answer? then Succeeded else if entry.Error? then CodeState(entry.code) else Failed
  {
    hide Field, StringField, Number, CodeState;
  }

  lemma KindOfEntry(text: string, entry: Entry)
    requires ReadMessage(text) == Some(entry)
    ensures entry.Ending? && MessageStateInText(text) == if entry.kind == "succeeded" then Succeeded else Failed
  {
    hide Field, StringField;
  }
}
