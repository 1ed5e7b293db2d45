/** The JSONL result lines that batch items store, and the size limits they obey. */
module BatchLines {
  import opened Common
  import opened Json

  const MAX_FILE_BYTES: nat := 16777216
  const MAX_ITEMS: nat := 4

  /** The states of a row of `openai_batch_items` or `message_batch_items`.
      `Failed` is the state the Message Batch table spells "errored". */
  datatype ItemState =
    | Queued | Claimed | Dispatching | Settling
    | Succeeded | Failed | Canceled | Expired | Interrupted
  {
    predicate Active() { Queued? || Claimed? || Dispatching? || Settling? }
  }

  /** The lines the gateway words by itself, as opposed to those holding provider output. */
  datatype Notice =
    | PermissionDenied | Unreadable | Invalid | CancelledBefore | CancelledDuring | ExpiredBefore | ExpiredDuring
    | CancelUnknown | NotCompleted | TooLarge | Restarted
    | NotAnObject | NoModel | NoMaxTokens | NoMessages | Streaming

  /** An OpenAI Batch line. `body` is the JSON text of the provider response. */
  datatype OpenAILine =
    | Success(id: string, customId: string, status: nat, requestId: string, body: JsonText)
    | Failure(id: string, customId: string, code: string, message: string)
    | Gateway(id: string, customId: string, notice: Notice)

  /** A Message Batch line; `message` and `error` are JSON text from the provider. */
  datatype MessageLine =
    | Result(customId: string, canceled: bool)
    | Message(customId: string, message: JsonText)
    | Errored(customId: string, error: JsonText)
    | GatewayError(customId: string, notice: Notice)

  datatype Line = OpenAI(openai: OpenAILine) | Anthropic(anthropic: MessageLine)

  // ------------------------------------------------------------------ wording

  function Code(n: Notice): (r: string)
    ensures |r| <= 21
  {
    match n
    case PermissionDenied => "permission_denied"
    case Invalid => "invalid_request_error"
    case CancelledBefore | CancelledDuring => "batch_cancelled"
    case ExpiredBefore | ExpiredDuring => "batch_expired"
    case TooLarge => "response_too_large"
    case Unreadable | CancelUnknown | NotCompleted | Restarted => "server_error"
    case NotAnObject | NoModel | NoMaxTokens | NoMessages | Streaming => "invalid_request_error"
  }

  function Text(n: Notice): (r: string)
    ensures |r| <= 80
  {
    match n
    case PermissionDenied => "The creating API key" + " or its grants" + " are no longer active."
    case Unreadable => "The stored Batch request" + " could not be opened."
    case Invalid => "The stored Batch request is invalid."
    case CancelledBefore | CancelledDuring | ExpiredBefore | ExpiredDuring => StopText(n)
    case NotAnObject | NoModel | NoMaxTokens | NoMessages | Streaming => ParamsText(n)
    case _ => OutcomeText(n)
  }

  function StopText(n: Notice): (r: string)
    ensures |r| <= 80
  {
    "The Batch " + (if n.CancelledBefore? || n.CancelledDuring? then "was cancelled" else "expired")
    + " before this request " + (if n.CancelledBefore? || n.ExpiredBefore? then "executed." else "completed.")
  }

  /** What `validateMessageBatchParams` says. */
  function ParamsText(n: Notice): (r: string)
    ensures |r| <= 80
  {
    if n.Streaming? then "streaming is not supported" + " in Message Batches"
    else "each params value " + (if n.NotAnObject? then "must be a JSON object" else "requires " + Required(n))
  }

  function Required(n: Notice): (r: string)
    ensures |r| <= 50
  {
    if n.NoModel? then "a model" else if n.NoMessages? then "at least one message" else "max_tokens as " + "a positive integer"
  }

  function OutcomeText(n: Notice): (r: string)
    ensures |r| <= 80
  {
    match n
    case CancelUnknown => "The Batch cancellation state" + " could not be checked."
    case NotCompleted => "The request could not be completed."
    case TooLarge => "The response is too large" + " to retain in the Batch" + " result File."
    case _ => "The gateway restarted while" + " the provider outcome" + " was unknown."
  }

  /** The error type and text of a Message Batch notice, where they differ from those above. */
  function MessageCode(n: Notice): (r: string)
    ensures |r| <= 21
  {
    match n
    case PermissionDenied => "permission_error"
    case CancelUnknown | NotCompleted | TooLarge | Restarted => "api_error"
    case _ => Code(n)
  }

  function MessageText(n: Notice): (r: string)
    ensures |r| <= 80
  {
    match n
    case CancelUnknown => "Message Batch cancellation" + " state could not be checked."
    case NotCompleted => "The provider request failed."
    case TooLarge => "The provider response" + " is too large to retain" + " as a batch result."
    case _ => Text(n)
  }

  // ----------------------------------------------------------------- the text

  function RenderOpenAI(line: OpenAILine): string {
    match line
    case Success(id, customId, status, requestId, body) =>
      Object([("custom_id", Quote(customId)), ("error", "null"), ("id", Quote(id)),
              ("response", Object(Response(status, requestId, body)))])
    case Failure(id, customId, code, message) => RenderError(id, customId, code, message)
    case Gateway(id, customId, n) => RenderError(id, customId, Code(n), Text(n))
  }

  /** The response of `openAIBatchSuccessLine`. */
  function Response(status: nat, requestId: string, body: string): seq<(string, string)> {
    [("body", body), ("request_id", Quote(requestId)), ("status_code", Decimal(status))]
  }

  /** `openAIBatchErrorLine`. */
  function RenderError(id: string, customId: string, code: string, message: string): string {
    Object([("custom_id", Quote(customId)), ("error", Object([("code", Quote(code)), ("message", Quote(message))])),
            ("id", Quote(id)), ("response", "null")])
  }

  /** The Message Batch line builders, which put the result object after the custom id. */
  function RenderMessage(line: MessageLine): string {
    Object([("custom_id", Quote(line.customId)), ("result", RenderResult(line))])
  }

  function RenderResult(line: MessageLine): string {
    match line
    case Result(_, canceled) => Object([("type", Quote(if canceled then "canceled" else "expired"))])
    case Message(_, message) => Object([("message", message), ("type", Quote("succeeded"))])
    case Errored(_, error) => RenderErrored(error)
    case GatewayError(_, n) => RenderErrored(ErrorObject(n))
  }

  function RenderErrored(error: string): string { Object([("error", error), ("type", Quote("errored"))]) }

  /** An Anthropic error response: the error itself, a null request id and the type "error". */
  function ErrorObject(n: Notice): string {
    Object([("error", ErrorBody(n)), ("request_id", "null"), ("type", Quote("error"))])
  }

  function ErrorBody(n: Notice): string {
    Object([("message", Quote(MessageText(n))), ("type", Quote(MessageCode(n)))])
  }

  function Render(line: Line): string {
    match line
    case OpenAI(l) => RenderOpenAI(l)
    case Anthropic(l) => RenderMessage(l)
  }

  // ------------------------------------------------------------------- sizes

  /** The bytes of a notice's code and text. */
  function NoticeSize(n: Notice): nat { QuotedSize(Code(n)) + QuotedSize(Text(n)) }

  function MessageNoticeSize(n: Notice): nat { QuotedSize(MessageCode(n)) + QuotedSize(MessageText(n)) }

  function OpenAISize(line: OpenAILine): nat {
    match line
    case Success(id, customId, status, requestId, body) =>
      83 + QuotedSize(customId) + QuotedSize(id) + |body| + QuotedSize(requestId) + DecimalSize(status)
    case Failure(id, customId, code, message) =>
      65 + QuotedSize(customId) + QuotedSize(code) + QuotedSize(message) + QuotedSize(id)
    case Gateway(id, customId, n) => 65 + QuotedSize(customId) + NoticeSize(n) + QuotedSize(id)
  }

  function MessageSize(line: MessageLine): nat {
    match line
    case Result(customId, canceled) => 33 + QuotedSize(customId) + (if canceled then 10 else 9)
    case Message(customId, message) => 55 + QuotedSize(customId) + |message|
    case Errored(customId, error) => 51 + QuotedSize(customId) + |error|
    case GatewayError(customId, n) => 114 + QuotedSize(customId) + MessageNoticeSize(n)
  }

  function Size(line: Line): nat {
    match line
    case OpenAI(l) => OpenAISize(l)
    case Anthropic(l) => MessageSize(l)
  }

  /** No notice takes more than 620 bytes. */
  lemma NoticeIsShort(n: Notice)
    ensures 4 <= NoticeSize(n) <= 620 && 4 <= MessageNoticeSize(n) <= 620
  {
    hide Text, MessageText, Code, MessageCode, EscapedSize;
  }

  /** Lower-case letters and underscores need no escape. */
  lemma {:induction false} PlainSize(s: string)
    requires forall i :: 0 <= i < |s| ==> 'a' <= s[i] <= 'z' || s[i] == '_'
    ensures QuotedSize(s) == |s| + 2
  {
    if s != "" { PlainSize(s[1..]); }
  }

  lemma TwoMembersSize(a: (string, string), b: (string, string))
    ensures |Object([a, b])| == QuotedSize(a.0) + |a.1| + QuotedSize(b.0) + |b.1| + 5
  {
    hide QuotedSize, Object;
    ObjectSize([a, b]);
    assert [a, b][1..] == [b];
  }

  lemma OneMemberSize(a: (string, string))
    ensures |Object([a])| == QuotedSize(a.0) + |a.1| + 3
  {
    hide QuotedSize, Object;
    ObjectSize([a]);
  }

  lemma ThreeMembersSize(a: (string, string), b: (string, string), c: (string, string))
    ensures |Object([a, b, c])| == QuotedSize(a.0) + |a.1| + QuotedSize(b.0) + |b.1| + QuotedSize(c.0) + |c.1| + 7
  {
    hide QuotedSize, Object;
    ObjectSize([a, b, c]);
    assert [a, b, c][1..] == [b, c] && [b, c][1..] == [c];
    assert MembersSize([b, c]) == QuotedSize(b.0) + 1 + |b.1| + 1 + MembersSize([c]);
  }

  lemma FourMembersSize(a: (string, string), b: (string, string), c: (string, string), d: (string, string))
    ensures |Object([a, b, c, d])|
            == QuotedSize(a.0) + |a.1| + QuotedSize(b.0) + |b.1| + QuotedSize(c.0) + |c.1| + QuotedSize(d.0) + |d.1| + 9
  {
    hide QuotedSize, Object;
    ObjectSize([a, b, c, d]);
    assert [a, b, c, d][1..] == [b, c, d] && [b, c, d][1..] == [c, d] && [c, d][1..] == [d];
    assert MembersSize([b, c, d]) == QuotedSize(b.0) + 1 + |b.1| + 1 + MembersSize([c, d]);
  }

  lemma OuterSize(customId: string, error: string, id: string, response: string)
    ensures |Object([("custom_id", Quote(customId)), ("error", error), ("id", Quote(id)), ("response", response)])|
            == 41 + QuotedSize(customId) + |error| + QuotedSize(id) + |response|
  {
    hide QuotedSize, Object, Quote;
    PlainSize("custom_id"); PlainSize("error"); PlainSize("id"); PlainSize("response");
    QuoteSize(customId); QuoteSize(id);
    FourMembersSize(("custom_id", Quote(customId)), ("error", error), ("id", Quote(id)), ("response", response));
  }

  lemma ResponseSize(status: nat, requestId: string, body: string)
    ensures |Object(Response(status, requestId, body))| == 38 + |body| + QuotedSize(requestId) + DecimalSize(status)
  {
    hide QuotedSize, Object, Quote, Decimal, DecimalSize;
    PlainSize("body"); PlainSize("request_id"); PlainSize("status_code");
    QuoteSize(requestId); DecimalSizeIsLength(status);
    ThreeMembersSize(("body", body), ("request_id", Quote(requestId)), ("status_code", Decimal(status)));
  }

  lemma RenderErrorSize(id: string, customId: string, code: string, message: string)
    ensures |RenderError(id, customId, code, message)|
            == 65 + QuotedSize(customId) + QuotedSize(code) + QuotedSize(message) + QuotedSize(id)
  {
    hide QuotedSize, Object, Quote;
    PlainSize("code"); PlainSize("message");
    QuoteSize(code); QuoteSize(message);
    TwoMembersSize(("code", Quote(code)), ("message", Quote(message)));
    OuterSize(customId, Object([("code", Quote(code)), ("message", Quote(message))]), id, "null");
  }

  /** `OpenAISize` counts the bytes of the rendered JSON text. */
  lemma OpenAISizeIsLength(line: OpenAILine)
    ensures |RenderOpenAI(line)| == OpenAISize(line)
  {
    hide Object, Quote, QuotedSize, RenderError, Code, Text, Response;
    match line
    case Success(id, customId, status, requestId, body) =>
      ResponseSize(status, requestId, body);
      OuterSize(customId, "null", id, Object(Response(status, requestId, body)));
    case Failure(id, customId, code, message) => RenderErrorSize(id, customId, code, message);
    case Gateway(id, customId, n) => RenderErrorSize(id, customId, Code(n), Text(n));
  }

  lemma ErroredSize(error: string)
    ensures |RenderErrored(error)| == 27 + |error|
  {
    hide QuotedSize, Object, Quote;
    PlainSize("error"); PlainSize("type"); PlainSize("errored"); QuoteSize("errored");
    TwoMembersSize(("error", error), ("type", Quote("errored")));
  }

  lemma ErrorObjectSize(n: Notice)
    ensures |ErrorObject(n)| == 63 + MessageNoticeSize(n)
  {
    hide QuotedSize, Object, Quote, MessageText, MessageCode;
    PlainSize("error"); PlainSize("type"); PlainSize("request_id"); PlainSize("message");
    QuoteSize("error"); QuoteSize(MessageText(n)); QuoteSize(MessageCode(n));
    TwoMembersSize(("message", Quote(MessageText(n))), ("type", Quote(MessageCode(n))));
    ThreeMembersSize(("error", ErrorBody(n)), ("request_id", "null"), ("type", Quote("error")));
  }

  lemma ResultSize(line: MessageLine)
    ensures |RenderResult(line)| + 24 + QuotedSize(line.customId) == MessageSize(line)
  {
    hide QuotedSize, Object, Quote, MessageNoticeSize, ErrorObject, RenderErrored;
    PlainSize("type"); PlainSize("message");
    PlainSize("canceled"); PlainSize("expired"); PlainSize("succeeded");
    QuoteSize("canceled"); QuoteSize("expired"); QuoteSize("succeeded");
    match line
    case Result(_, canceled) => OneMemberSize(("type", Quote(if canceled then "canceled" else "expired")));
    case Message(_, message) => TwoMembersSize(("message", message), ("type", Quote("succeeded")));
    case Errored(_, error) => ErroredSize(error);
    case GatewayError(_, n) => ErroredSize(ErrorObject(n)); ErrorObjectSize(n);
  }

  lemma MessageSizeIsLength(line: MessageLine)
    ensures |RenderMessage(line)| == MessageSize(line)
  {
    hide QuotedSize, Object, Quote, MessageSize, RenderResult;
    ResultSize(line);
    PlainSize("custom_id"); PlainSize("result"); QuoteSize(line.customId);
    TwoMembersSize(("custom_id", Quote(line.customId)), ("result", RenderResult(line)));
  }

  lemma OpenAIHasNoBreak(line: OpenAILine)
    ensures '\n' !in RenderOpenAI(line)
  {
    hide Object, Quote, Decimal, Code, Text;
    match line
    case Success(id, customId, status, requestId, body) =>
      ObjectHasNoBreak(Response(status, requestId, body));
      ObjectHasNoBreak([("custom_id", Quote(customId)), ("error", "null"), ("id", Quote(id)),
                        ("response", Object(Response(status, requestId, body)))]);
    case Failure(id, customId, code, message) => ErrorHasNoBreak(id, customId, code, message);
    case Gateway(id, customId, n) => ErrorHasNoBreak(id, customId, Code(n), Text(n));
  }

  lemma ErrorHasNoBreak(id: string, customId: string, code: string, message: string)
    ensures '\n' !in RenderError(id, customId, code, message)
  {
    hide Object, Quote;
    var error := [("code", Quote(code)), ("message", Quote(message))];
    ObjectHasNoBreak(error);
    ObjectHasNoBreak([("custom_id", Quote(customId)), ("error", Object(error)), ("id", Quote(id)), ("response", "null")]);
  }

  lemma ErrorObjectHasNoBreak(n: Notice)
    ensures '\n' !in ErrorObject(n)
  {
    hide Object, Quote, MessageText, MessageCode;
    ObjectHasNoBreak([("message", Quote(MessageText(n))), ("type", Quote(MessageCode(n)))]);
    ObjectHasNoBreak([("error", ErrorBody(n)), ("request_id", "null"), ("type", Quote("error"))]);
  }

  lemma ResultHasNoBreak(line: MessageLine)
    ensures '\n' !in RenderResult(line)
  {
    hide Object, Quote, ErrorObject;
    match line
    case Result(_, canceled) => ObjectHasNoBreak([("type", Quote(if canceled then "canceled" else "expired"))]);
    case Message(_, message) => ObjectHasNoBreak([("message", message), ("type", Quote("succeeded"))]);
    case Errored(_, error) => ObjectHasNoBreak([("error", error), ("type", Quote("errored"))]);
    case GatewayError(_, n) =>
      ErrorObjectHasNoBreak(n);
      ObjectHasNoBreak([("error", ErrorObject(n)), ("type", Quote("errored"))]);
  }

  lemma MessageHasNoBreak(line: MessageLine)
    ensures '\n' !in RenderMessage(line)
  {
    hide Object, Quote, RenderResult;
    ResultHasNoBreak(line);
    ObjectHasNoBreak([("custom_id", Quote(line.customId)), ("result", RenderResult(line))]);
  }

  /** Every stored line is a non-empty text of `Size` bytes without a line break. */
  lemma RenderIsOneLine(line: Line)
    ensures |Render(line)| == Size(line) && '\n' !in Render(line)
  {
    hide OpenAISize, MessageSize, RenderOpenAI, RenderMessage;
    match line
    case OpenAI(l) => OpenAISizeIsLength(l); OpenAIHasNoBreak(l);
    case Anthropic(l) => MessageSizeIsLength(l); MessageHasNoBreak(l);
  }

  // ----------------------------------------------------------------- bounding

  /** `openAIBatchResultLineLimit`: the share of one line in a full result File. */
  function LineLimit(total: nat): nat
    requires total <= MAX_ITEMS
  {
    var n := if total < 1 then 1 else total;
    (MAX_FILE_BYTES - (n - 1)) / n
  }

  /** `boundOpenAIBatchResult`. */
  function BoundOpenAI(total: nat, id: string, customId: string, line: OpenAILine, state: ItemState): (OpenAILine, ItemState)
    requires total <= MAX_ITEMS
  {
    if OpenAISize(line) <= LineLimit(total) then (line, state) else (Gateway(id, customId, TooLarge), Failed)
  }

  /** `boundMessageBatchResult`. */
  function BoundMessage(customId: string, line: MessageLine, state: ItemState): (MessageLine, ItemState) {
    if MessageSize(line) <= MAX_INFERENCE_BODY then (line, state) else (GatewayError(customId, TooLarge), Failed)
  }

  /** The lines of a full set fit one file together with the newlines between them. */
  lemma LineLimitFits(total: nat)
    requires 1 <= total <= MAX_ITEMS
    ensures total * LineLimit(total) + total - 1 <= MAX_FILE_BYTES < total * (LineLimit(total) + 1) + total - 1
  {
  }

  // ------------------------------------------------- reading a line back

  /** The terminal state that an error code stands for in `openAIBatchResultState`. */
  function CodeState(code: string): ItemState {
    if code == "batch_cancelled" then Canceled else if code == "batch_expired" then Expired else Failed
  }

  function NoticeState(n: Notice): ItemState {
    match n
    case CancelledBefore | CancelledDuring => Canceled
    case ExpiredBefore | ExpiredDuring => Expired
    case _ => Failed
  }

  lemma NoticeStateReadsCode(n: Notice)
    ensures CodeState(Code(n)) == NoticeState(n)
  {
    match n
    case PermissionDenied => assert Code(n)[0] == 'p';
    case Invalid => assert Code(n)[0] == 'i';
    case TooLarge => assert Code(n)[0] == 'r';
    case Unreadable => assert Code(n)[0] == 's';
    case CancelUnknown => assert Code(n)[0] == 's';
    case NotCompleted => assert Code(n)[0] == 's';
    case Restarted => assert Code(n)[0] == 's';
    case ExpiredBefore => assert Code(n)[6] == 'e';
    case ExpiredDuring => assert Code(n)[6] == 'e';
    case _ =>
  }

  /** `openAIBatchResultState`: the terminal state a stored OpenAI line stands for. */
  function OpenAIResultState(line: OpenAILine): ItemState {
    match line
    case Success(_, _, _, _, _) => Succeeded
    case Failure(_, _, code, _) => CodeState(code)
    case Gateway(_, _, n) => NoticeState(n)
  }

  /** `messageBatchResultState`. */
  function MessageResultState(line: MessageLine): ItemState { if line.Message? then Succeeded else Failed }

  function ResultState(line: Line): ItemState {
    match line
    case OpenAI(l) => OpenAIResultState(l)
    case Anthropic(l) => MessageResultState(l)
  }
}
