/** Canonical messages and their Anthropic encoding: encoding, decoding again and resolving tool names gives back the
    same parts in order, up to a stated normal form. */
module AnthropicTranslation {

  // --------------------------------------------------------------------- JSON

  datatype Json = JNull | JString(text: string) | JArray(items: seq<Json>) | JObject(fields: map<string, Json>) | JOther(tag: int)

  function Field(fields: map<string, Json>, name: string): Json { if name in fields then fields[name] else JNull }

  /** `stringValue`, `array` and `objectMap`. */
  function StringValue(j: Json): string { if j.JString? then j.text else "" }
  function Array(j: Json): seq<Json> { if j.JArray? then j.items else [] }
  function ObjectMap(j: Json): map<string, Json> { if j.JObject? then j.fields else map[] }

  /** `textValue`: a string, or the text of the text parts of an array. */
  function TextValue(j: Json): string { if j.JString? then j.text else JoinText(Array(j)) }

  function JoinText(items: seq<Json>): string {
    if items == [] then "" else JoinText(items[..|items| - 1]) + PartText(items[|items| - 1])
  }

  function PartText(j: Json): string {
    var kind := StringValue(Field(ObjectMap(j), "type"));
    if kind == "text" || kind == "input_text" then StringValue(Field(ObjectMap(j), "text")) else ""
  }

  // --------------------------------------------------------- canonical messages

  datatype Part =
    | Text(text: string)
    | ToolUse(id: string, name: string, value: Json)
    | ToolResult(id: string, name: string, text: string)
    | Image(mediaType: string, data: string, url: string, detail: string)

  datatype Message = Message(role: string, parts: seq<Part>)

  datatype Result<T> = Ok(value: T) | Err

  /** `validateCanonicalRequest`, as far as messages go, and the check that there are any. */
  predicate ValidMessages(messages: seq<Message>) {
    messages != [] && forall i :: 0 <= i < |messages| ==> ValidMessage(messages[i])
  }

  predicate ValidMessage(m: Message) {
    m.role in {"user", "assistant", "tool"} && m.parts != [] && forall i :: 0 <= i < |m.parts| ==> ValidPart(m.parts[i])
  }

  predicate ValidPart(p: Part) {
    (p.ToolUse? ==> p.id != "" && p.name != "") && (p.ToolResult? ==> p.id != "")
  }

  // ------------------------------------------------------------------ encoding

  function EncodePart(p: Part): Json {
    match p
    case Text(text) => JObject(map["type" := JString("text"), "text" := JString(text)])
    case ToolUse(id, name, value) =>
      JObject(map["type" := JString("tool_use"), "id" := JString(id), "name" := JString(name), "input" := value])
    case ToolResult(id, _, text) =>
      JObject(map["type" := JString("tool_result"), "tool_use_id" := JString(id), "content" := JString(text)])
    case Image(mediaType, data, url, _) =>
      JObject(map["type" := JString("image"),
                  "source" := if data != ""
                              then JObject(map["type" := JString("base64"), "media_type" := JString(mediaType), "data" := JString(data)])
                              else JObject(map["type" := JString("url"), "url" := JString(url)])])
  }

  function EncodeParts(parts: seq<Part>): seq<Json> { seq(|parts|, i requires 0 <= i < |parts| => EncodePart(parts[i])) }

  function EncodeMessage(m: Message): Json {
    JObject(map["role" := JString(if m.role == "tool" then "user" else m.role), "content" := JArray(EncodeParts(m.parts))])
  }

  function EncodeMessages(messages: seq<Message>): seq<Json> {
    seq(|messages|, i requires 0 <= i < |messages| => EncodeMessage(messages[i]))
  }

  // ------------------------------------------------------------------ decoding

  /** `validateAnthropicParts` on one part. */
  predicate PartAccepted(j: Json, base64: string -> bool) {
    var part := ObjectMap(j);
    var kind := StringValue(Field(part, "type"));
    if kind == "text" then true
    else if kind == "tool_use" then StringValue(Field(part, "id")) != "" && StringValue(Field(part, "name")) != ""
    else if kind == "tool_result" then StringValue(Field(part, "tool_use_id")) != ""
    else if kind == "image" then SourceAccepted(ObjectMap(Field(part, "source")), base64)
    else false
  }

  predicate SourceAccepted(source: map<string, Json>, base64: string -> bool) {
    var kind := StringValue(Field(source, "type"));
    if kind == "base64" then
      "image/" <= StringValue(Field(source, "media_type")) && StringValue(Field(source, "data")) != "" && base64(StringValue(Field(source, "data")))
    else kind == "url" && StringValue(Field(source, "url")) != ""
  }

  predicate ContentAccepted(content: Json, base64: string -> bool) {
    content.JString? || forall i :: 0 <= i < |Array(content)| ==> PartAccepted(Array(content)[i], base64)
  }

  /** `decodeAnthropicParts` on one part; other kinds are skipped. */
  function DecodePart(j: Json): seq<Part> {
    var part := ObjectMap(j);
    var kind := StringValue(Field(part, "type"));
    if kind == "text" then [Text(StringValue(Field(part, "text")))]
    else if kind == "tool_use" then [ToolUse(StringValue(Field(part, "id")), StringValue(Field(part, "name")), Field(part, "input"))]
    else if kind == "tool_result" then [ToolResult(StringValue(Field(part, "tool_use_id")), "", TextValue(Field(part, "content")))]
    else if kind == "image" then
      var source := ObjectMap(Field(part, "source"));
      if StringValue(Field(source, "type")) == "base64"
      then [Image(StringValue(Field(source, "media_type")), StringValue(Field(source, "data")), "", "")]
      else [Image(StringValue(Field(source, "media_type")), "", StringValue(Field(source, "url")), "")]
    else []
  }

  function DecodeItems(items: seq<Json>): seq<Part> {
    if items == [] then [] else DecodeItems(items[..|items| - 1]) + DecodePart(items[|items| - 1])
  }

  function DecodeContent(content: Json): seq<Part> {
    if content.JString? then [Text(content.text)] else DecodeItems(Array(content))
  }

  function DecodeMessage(j: Json): Message {
    Message(StringValue(Field(ObjectMap(j), "role")), DecodeContent(Field(ObjectMap(j), "content")))
  }

  /** The decoded request, with tool names resolved, unless something in it is refused. */
  function Decoded(items: seq<Json>, base64: string -> bool): Result<seq<Message>> {
    if exists i :: 0 <= i < |items| && !ContentAccepted(Field(ObjectMap(items[i]), "content"), base64) then Err
    else
      var messages := seq(|items|, i requires 0 <= i < |items| => DecodeMessage(items[i]));
      if messages == [] then Err
      else
        var resolved := Resolve(messages);
        if ValidMessages(resolved) then Ok(resolved) else Err
  }

  /** `anthropicParts`, the loop. */
  method AnthropicParts(parts: seq<Part>) returns (out: seq<Json>)
    ensures out == EncodeParts(parts)
  {
    out := [];
    while |out| < |parts|
      invariant |out| <= |parts| && out == EncodeParts(parts)[..|out|]
    {
      out := out + [EncodePart(parts[|out|])];
    }
  }

  /** `encodeAnthropicMessages`. */
  method EncodeAnthropicMessages(messages: seq<Message>) returns (out: seq<Json>)
    ensures out == EncodeMessages(messages)
  {
    out := [];
    while |out| < |messages|
      invariant |out| <= |messages| && out == EncodeMessages(messages)[..|out|]
    {
      var m := messages[|out|];
      var role := m.role;
      if role == "tool" { role := "user"; }
      var content := AnthropicParts(m.parts);
      out := out + [JObject(map["role" := JString(role), "content" := JArray(content)])];
    }
  }

  // --------------------------------------------------------------- tool names

  /** The name of the latest tool use with the id before position `n`, or nothing. */
  function LatestName(parts: seq<Part>, n: nat, id: string): string
    requires n <= |parts|
  {
    if n == 0 then ""
    else if parts[n - 1].ToolUse? && parts[n - 1].id == id then parts[n - 1].name
    else LatestName(parts, n - 1, id)
  }

  function Flatten(messages: seq<Message>): seq<Part> {
    if messages == [] then [] else Flatten(messages[..|messages| - 1]) + messages[|messages| - 1].parts
  }

  /** A part with its tool name filled in from the parts before it. */
  function ResolvePart(before: seq<Part>, p: Part): Part {
    if p.ToolResult? && p.name == "" then p.(name := LatestName(before, |before|, p.id)) else p
  }

  function ResolveParts(before: seq<Part>, parts: seq<Part>): (r: seq<Part>)
    ensures |r| == |parts|
  {
    seq(|parts|, i requires 0 <= i < |parts| => ResolvePart(before + parts[..i], parts[i]))
  }

  function Resolve(messages: seq<Message>): (r: seq<Message>)
    ensures |r| == |messages|
  {
    seq(|messages|, i requires 0 <= i < |messages| =>
      Message(messages[i].role, ResolveParts(Flatten(messages[..i]), messages[i].parts)))
  }

  ghost predicate NamesKnown(names: map<string, string>, before: seq<Part>) {
    forall id :: (if id in names then names[id] else "") == LatestName(before, |before|, id)
  }

  lemma {:induction false} LatestNameFrame(a: seq<Part>, b: seq<Part>, n: nat, id: string)
    requires n <= |a| && n <= |b| && a[..n] == b[..n]
    ensures LatestName(a, n, id) == LatestName(b, n, id)
  {
    if n > 0 {
      assert a[n - 1] == a[..n][n - 1] == b[..n][n - 1] == b[n - 1];
      assert a[..n - 1] == a[..n][..n - 1] && b[..n - 1] == b[..n][..n - 1];
      LatestNameFrame(a, b, n - 1, id);
    }
  }

  lemma NamesStep(names: map<string, string>, before: seq<Part>, p: Part)
    requires NamesKnown(names, before)
    ensures NamesKnown(if p.ToolUse? then names[p.id := p.name] else names, before + [p])
  {
    var after := before + [p];
    forall id ensures LatestName(after, |before|, id) == LatestName(before, |before|, id) {
      assert after[..|before|] == before[..|before|];
      LatestNameFrame(after, before, |before|, id);
    }
  }

  /** The inner loop of `resolveToolResultNames`: the names seen so far are kept in a map. */
  method ResolvePartNames(parts: seq<Part>, known: map<string, string>, ghost before: seq<Part>) returns (r: seq<Part>, names: map<string, string>)
    requires NamesKnown(known, before)
    ensures r == ResolveParts(before, parts) && NamesKnown(names, before + parts)
  {
    hide NamesKnown;
    r, names := parts, known;
    var n := 0;
    assert before + parts[..0] == before;
    while n < |parts|
      invariant 0 <= n <= |parts| && |r| == |parts| && NamesKnown(names, before + parts[..n])
      invariant forall i :: 0 <= i < |parts| ==> r[i] == if i < n then ResolveParts(before, parts)[i] else parts[i]
    {
      NamesStep(names, before + parts[..n], parts[n]);
      assert before + parts[..n] + [parts[n]] == before + parts[..n + 1];
      if r[n].ToolUse? {
        names := names[r[n].id := r[n].name];
      } else if r[n].ToolResult? && r[n].name == "" {
        NameLookup(names, before + parts[..n], r[n].id);
        r := r[n := ToolResult(r[n].id, if r[n].id in names then names[r[n].id] else "", r[n].text)];
      }
      n := n + 1;
    }
    assert parts[..n] == parts;
  }

  lemma NameLookup(names: map<string, string>, before: seq<Part>, id: string)
    requires NamesKnown(names, before)
    ensures (if id in names then names[id] else "") == LatestName(before, |before|, id)
  {
  }

  /** `resolveToolResultNames`. */
  method ResolveToolResultNames(messages: seq<Message>) returns (r: seq<Message>)
    ensures r == Resolve(messages)
  {
    r := [];
    var names: map<string, string> := map[];
    assert messages[..0] == [];
    while |r| < |messages|
      invariant |r| <= |messages| && r == Resolve(messages)[..|r|] && NamesKnown(names, Flatten(messages[..|r|]))
    {
      var m := messages[|r|];
      assert messages[..|r| + 1][..|r|] == messages[..|r|];
      var parts: seq<Part>;
      parts, names := ResolvePartNames(m.parts, names, Flatten(messages[..|r|]));
      r := r + [Message(m.role, parts)];
    }
  }

  /** The Anthropic branch of `decodeCanonicalRequest` for the messages of a request. */
  method DecodeRequest(items: seq<Json>, base64: string -> bool) returns (r: Result<seq<Message>>)
    ensures r == Decoded(items, base64)
  {
    hide ContentAccepted, DecodeContent;
    var messages: seq<Message> := [];
    while |messages| < |items|
      invariant |messages| <= |items|
      invariant forall i :: 0 <= i < |messages| ==>
                  messages[i] == DecodeMessage(items[i]) && ContentAccepted(Field(ObjectMap(items[i]), "content"), base64)
    {
      var content := Field(ObjectMap(items[|messages|]), "content");
      if !ContentAccepted(content, base64) { return Err; }
      messages := messages + [Message(StringValue(Field(ObjectMap(items[|messages|]), "role")), DecodeContent(content))];
    }
    assert messages == seq(|items|, i requires 0 <= i < |items| => DecodeMessage(items[i]));
    if |messages| == 0 { return Err; }
    var resolved := ResolveToolResultNames(messages);
    if !ValidMessages(resolved) { return Err; }
    return Ok(resolved);
  }

  // --------------------------------------------------------------- round trip

  /** What one trip keeps of a part. */
  function Plain(p: Part): Part {
    match p
    case Text(_) => p
    case ToolUse(_, _, _) => p
    case ToolResult(id, _, text) => ToolResult(id, "", text)
    case Image(mediaType, data, url, _) => if data != "" then Image(mediaType, data, "", "") else Image("", "", url, "")
  }

  function PlainMessage(m: Message): Message {
    Message(if m.role == "tool" then "user" else m.role, seq(|m.parts|, i requires 0 <= i < |m.parts| => Plain(m.parts[i])))
  }

  function PlainMessages(messages: seq<Message>): seq<Message> {
    seq(|messages|, i requires 0 <= i < |messages| => PlainMessage(messages[i]))
  }

  /** The normal form: the role tool becomes user, image detail and the media type of URL images are dropped, and tool
      results are named after the latest earlier tool use with their id. */
  function Normal(messages: seq<Message>): seq<Message> { Resolve(PlainMessages(messages)) }

  /** An image that the encoding can carry: valid inline data of an image type, or a URL. */
  predicate Portable(p: Part, base64: string -> bool) {
    p.Image? ==> if p.data != "" then "image/" <= p.mediaType && base64(p.data) else p.url != ""
  }

  predicate AllPortable(messages: seq<Message>, base64: string -> bool) {
    forall i, j :: 0 <= i < |messages| && 0 <= j < |messages[i].parts| ==> Portable(messages[i].parts[j], base64)
  }

  lemma PartRoundTrip(p: Part, base64: string -> bool)
    requires ValidPart(p)
    ensures PartAccepted(EncodePart(p), base64) <==> Portable(p, base64)
    ensures DecodePart(EncodePart(p)) == [Plain(p)]
  {
    if p.Image? { ImageRoundTrip(p, base64); }
  }

  lemma ImageRoundTrip(p: Part, base64: string -> bool)
    requires p.Image?
    ensures PartAccepted(EncodePart(p), base64) <==> Portable(p, base64)
    ensures DecodePart(EncodePart(p)) == [Plain(p)]
  {
    var source := ObjectMap(Field(ObjectMap(EncodePart(p)), "source"));
    if p.data == "" { assert StringValue(Field(source, "media_type")) == ""; }
  }

  lemma {:induction false} PartsRoundTrip(parts: seq<Part>, n: nat)
    requires n <= |parts| && forall i :: 0 <= i < |parts| ==> ValidPart(parts[i])
    ensures |DecodeItems(EncodeParts(parts)[..n])| == n
    ensures forall i :: 0 <= i < n ==> DecodeItems(EncodeParts(parts)[..n])[i] == Plain(parts[i])
  {
    hide DecodePart, EncodePart, Plain;
    if n > 0 {
      PartsRoundTrip(parts, n - 1);
      var items := EncodeParts(parts)[..n];
      assert items[..n - 1] == EncodeParts(parts)[..n - 1] && items[n - 1] == EncodePart(parts[n - 1]);
      PartRoundTrip(parts[n - 1], _ => true);
    }
  }

  lemma MessageRoundTrip(m: Message, base64: string -> bool)
    requires ValidMessage(m)
    ensures ContentAccepted(Field(ObjectMap(EncodeMessage(m)), "content"), base64)
            <==> forall j :: 0 <= j < |m.parts| ==> Portable(m.parts[j], base64)
    ensures DecodeMessage(EncodeMessage(m)) == PlainMessage(m)
  {
    hide DecodePart, EncodePart, Plain, PartAccepted, Portable;
    var content := Field(ObjectMap(EncodeMessage(m)), "content");
    assert content == JArray(EncodeParts(m.parts));
    forall j | 0 <= j < |m.parts| ensures PartAccepted(Array(content)[j], base64) <==> Portable(m.parts[j], base64) {
      PartRoundTrip(m.parts[j], base64);
    }
    assert EncodeParts(m.parts)[..|m.parts|] == EncodeParts(m.parts);
    PartsRoundTrip(m.parts, |m.parts|);
    assert DecodeItems(EncodeParts(m.parts)) == PlainMessage(m).parts;
  }

  lemma PlainIsValid(messages: seq<Message>)
    requires ValidMessages(messages)
    ensures ValidMessages(Resolve(PlainMessages(messages)))
  {
    hide Flatten, LatestName;
    var plain := PlainMessages(messages);
    forall i | 0 <= i < |messages| ensures ValidMessage(Resolve(plain)[i]) {
      assert ValidMessage(messages[i]);
      forall j | 0 <= j < |messages[i].parts| ensures ValidPart(Resolve(plain)[i].parts[j]) {
        assert ValidPart(messages[i].parts[j]);
      }
    }
  }

  /** Encoding a valid message list and decoding it again succeeds exactly when every image is portable, and then gives
      the normal form: the same parts in the same order. */
  lemma RoundTrip(messages: seq<Message>, base64: string -> bool)
    requires ValidMessages(messages)
    ensures Decoded(EncodeMessages(messages), base64) == if AllPortable(messages, base64) then Ok(Normal(messages)) else Err
  {
    hide EncodeMessage, DecodeMessage, PlainMessage, ContentAccepted, Portable, ValidMessage, Resolve;
    var items := EncodeMessages(messages);
    forall i | 0 <= i < |messages|
      ensures ContentAccepted(Field(ObjectMap(items[i]), "content"), base64)
              <==> forall j :: 0 <= j < |messages[i].parts| ==> Portable(messages[i].parts[j], base64)
      ensures DecodeMessage(items[i]) == PlainMessage(messages[i])
    {
      MessageRoundTrip(messages[i], base64);
    }
    assert seq(|items|, i requires 0 <= i < |items| => DecodeMessage(items[i])) == PlainMessages(messages);
    PlainIsValid(messages);
  }

  lemma NormalIsPlain(messages: seq<Message>)
    ensures PlainMessages(Normal(messages)) == PlainMessages(messages)
  {
    hide Flatten, LatestName;
    var plain := PlainMessages(messages);
    forall i | 0 <= i < |messages| ensures PlainMessage(Resolve(plain)[i]) == PlainMessage(messages[i]) {
      forall j | 0 <= j < |messages[i].parts| ensures Plain(Resolve(plain)[i].parts[j]) == Plain(messages[i].parts[j]) {
        assert plain[i].parts[j] == Plain(messages[i].parts[j]);
      }
      assert PlainMessage(Resolve(plain)[i]).parts == PlainMessage(messages[i]).parts;
    }
  }

  lemma NormalIsPortable(messages: seq<Message>, base64: string -> bool)
    requires AllPortable(messages, base64)
    ensures AllPortable(Normal(messages), base64)
  {
    hide Flatten, LatestName;
    var normal := Normal(messages);
    forall i, j | 0 <= i < |normal| && 0 <= j < |normal[i].parts| ensures Portable(normal[i].parts[j], base64) {
      assert Portable(messages[i].parts[j], base64);
      assert PlainMessages(messages)[i].parts[j] == Plain(messages[i].parts[j]);
    }
  }

  /** A second trip changes nothing. */
  lemma SecondTripChangesNothing(messages: seq<Message>, base64: string -> bool)
    requires ValidMessages(messages) && AllPortable(messages, base64)
    ensures Decoded(EncodeMessages(Normal(messages)), base64) == Ok(Normal(messages))
  {
    hide AllPortable, ValidMessages, PlainMessages, Resolve, EncodeMessages, Decoded;
    PlainIsValid(messages);
    NormalIsPortable(messages, base64);
    RoundTrip(Normal(messages), base64);
    NormalIsPlain(messages);
  }

  /** Each tool result of the normal form is named after the latest tool use before it with its id. */
  lemma ResultNames(messages: seq<Message>, i: nat, j: nat)
    requires i < |messages| && j < |messages[i].parts| && messages[i].parts[j].ToolResult?
    ensures var before := Flatten(PlainMessages(messages)[..i]) + PlainMessages(messages)[i].parts[..j];
            Normal(messages)[i].parts[j]
            == ToolResult(messages[i].parts[j].id, LatestName(before, |before|, messages[i].parts[j].id), messages[i].parts[j].text)
  {
    assert PlainMessages(messages)[i].parts[j] == Plain(messages[i].parts[j]);
  }

  /** An image without inline data and URL, as a Gemini file reference without a URI decodes to, cannot make the trip. */
  lemma EmptyImageIsRefused(base64: string -> bool)
    ensures var messages := [Message("user", [Image("image/png", "", "", "")])];
            ValidMessages(messages) && Decoded(EncodeMessages(messages), base64).Err?
  {
    var messages := [Message("user", [Image("image/png", "", "", "")])];
    assert ValidMessage(messages[0]);
    RoundTrip(messages, base64);
    assert !Portable(messages[0].parts[0], base64);
  }

  // ------------------------------------------------------------ other spellings

  function TextBlock(text: string): Json { JObject(map["type" := JString("text"), "text" := JString(text)]) }

  function Request(role: string, content: Json): Json { JObject(map["role" := JString(role), "content" := content]) }

  function ToolResultBlock(id: string, content: Json): Json {
    JObject(map["type" := JString("tool_result"), "tool_use_id" := JString(id), "content" := content])
  }

  /** A text block of either spelling. */
  predicate IsText(j: Json) {
    j.JObject? && "type" in j.fields && (j.fields["type"] == JString("text") || j.fields["type"] == JString("input_text"))
  }

  lemma StringContentDecodes(role: string, text: string, base64: string -> bool)
    ensures DecodeMessage(Request(role, JString(text))) == Message(role, [Text(text)])
    ensures DecodeMessage(Request(role, JArray([TextBlock(text)]))) == Message(role, [Text(text)])
    ensures ContentAccepted(JString(text), base64) && ContentAccepted(JArray([TextBlock(text)]), base64)
    ensures forall content :: Field(ObjectMap(Request(role, content)), "content") == content
  {
    var items := [TextBlock(text)];
    assert items[..0] == [] && DecodeItems(items[..0]) == [];
    assert DecodePart(TextBlock(text)) == [Text(text)];
    assert DecodeItems(items) == [Text(text)];
  }

  /** A message whose content is a plain string means the same as one whose content is a single text block: it is accepted
      in the same requests and decodes to that one text. */
  lemma StringContentIsOneText(items: seq<Json>, i: nat, role: string, text: string, base64: string -> bool)
    requires i < |items| && items[i] == Request(role, JString(text))
    ensures DecodeMessage(items[i]) == Message(role, [Text(text)])
    ensures Decoded(items, base64) == Decoded(items[i := Request(role, JArray([TextBlock(text)]))], base64)
  {
    hide DecodeContent, ContentAccepted, Resolve, ValidMessages;
    StringContentDecodes(role, text, base64);
    var other := items[i := Request(role, JArray([TextBlock(text)]))];
    forall k | 0 <= k < |items|
      ensures DecodeMessage(items[k]) == DecodeMessage(other[k])
      ensures ContentAccepted(Field(ObjectMap(items[k]), "content"), base64)
              == ContentAccepted(Field(ObjectMap(other[k]), "content"), base64)
    {
    }
    assert seq(|items|, k requires 0 <= k < |items| => DecodeMessage(items[k]))
           == seq(|other|, k requires 0 <= k < |other| => DecodeMessage(other[k]));
  }

  /** The text of an array is that of its parts one after the other, and only text blocks, of either spelling, have any. */
  lemma {:induction false} JoinTextAppend(a: seq<Json>, b: seq<Json>)
    ensures JoinText(a + b) == JoinText(a) + JoinText(b)
  {
    hide PartText;
    if b == [] {
      assert a + b == a;
    } else {
      JoinTextAppend(a, b[..|b| - 1]);
      assert (a + b)[..|a + b| - 1] == a + b[..|b| - 1];
    }
  }

  lemma JoinOneText(j: Json)
    ensures JoinText([j]) == if IsText(j) && "text" in j.fields && j.fields["text"].JString? then j.fields["text"].text else ""
  {
    assert [j][..0] == [];
  }

  /** A tool result whose content is an array decodes to its id and the texts of its text blocks, in order and joined; one
      whose content is that joined text decodes to the same. */
  lemma ArrayResultDecodes(id: string, items: seq<Json>, last: Json)
    ensures DecodePart(ToolResultBlock(id, JArray(items))) == [ToolResult(id, "", JoinText(items))]
    ensures DecodePart(ToolResultBlock(id, JArray(items))) == DecodePart(ToolResultBlock(id, JString(JoinText(items))))
    ensures JoinText([]) == ""
    ensures JoinText(items + [last])
            == JoinText(items)
               + if IsText(last) && "text" in last.fields && last.fields["text"].JString? then last.fields["text"].text else ""
  {
    hide JoinText;
    JoinTextAppend(items, [last]);
    JoinOneText(last);
    NoText();
    ResultDecodes(id, JArray(items));
    ResultDecodes(id, JString(JoinText(items)));
  }

  lemma ResultDecodes(id: string, content: Json)
    ensures DecodePart(ToolResultBlock(id, content)) == [ToolResult(id, "", TextValue(content))]
  {
    hide TextValue;
    var part := ObjectMap(ToolResultBlock(id, content));
    assert StringValue(Field(part, "type")) == "tool_result" && Field(part, "content") == content;
  }

  lemma NoText()
    ensures JoinText([]) == ""
  {
  }

  /** The part that a block stands for, of its own kind; there is none for a block of an unknown kind. */
  predicate IsPartOf(p: Part, block: Json) {
    block.JObject? && "type" in block.fields &&
    match p
    case Text(_) => block.fields["type"] == JString("text")
    case ToolUse(id, name, _) => block.fields["type"] == JString("tool_use") && id != "" && name != ""
    case ToolResult(id, _, _) => block.fields["type"] == JString("tool_result") && id != ""
    case Image(_, data, url, _) => block.fields["type"] == JString("image") && (data != "" || url != "")
  }

  lemma AcceptedBlockHasPart(j: Json, base64: string -> bool)
    requires PartAccepted(j, base64)
    ensures |DecodePart(j)| == 1 && IsPartOf(DecodePart(j)[0], j)
  {
  }

  lemma {:induction false} AcceptedItemsHaveParts(items: seq<Json>, base64: string -> bool)
    requires forall i :: 0 <= i < |items| ==> PartAccepted(items[i], base64)
    ensures |DecodeItems(items)| == |items| && forall i :: 0 <= i < |items| ==> IsPartOf(DecodeItems(items)[i], items[i])
  {
    hide PartAccepted, DecodePart, IsPartOf;
    if items != [] {
      AcceptedItemsHaveParts(items[..|items| - 1], base64);
      AcceptedBlockHasPart(items[|items| - 1], base64);
    }
  }

  lemma ResolvedPartIsPartOf(before: seq<Part>, p: Part, block: Json)
    ensures IsPartOf(ResolvePart(before, p), block) <==> IsPartOf(p, block)
  {
    hide LatestName;
  }

  /** A request that is decoded loses nothing: every block of every array content became the part of its kind at its place,
      so no block of an unknown kind, tool call without id or name, or image without content is accepted. */
  lemma NothingIsSkipped(items: seq<Json>, base64: string -> bool, i: nat)
    requires i < |items| && Decoded(items, base64).Ok? && Field(ObjectMap(items[i]), "content").JArray?
    ensures |Decoded(items, base64).value| == |items|
    ensures var parts, blocks := Decoded(items, base64).value[i].parts, Field(ObjectMap(items[i]), "content").items;
            |parts| == |blocks| && forall j :: 0 <= j < |blocks| ==> IsPartOf(parts[j], blocks[j])
  {
    hide PartAccepted, DecodePart, IsPartOf, DecodeItems, ResolvePart, Flatten, ValidMessages;
    var messages := seq(|items|, k requires 0 <= k < |items| => DecodeMessage(items[k]));
    var blocks := Field(ObjectMap(items[i]), "content").items;
    assert ContentAccepted(Field(ObjectMap(items[i]), "content"), base64);
    assert Array(Field(ObjectMap(items[i]), "content")) == blocks;
    forall j | 0 <= j < |blocks| ensures PartAccepted(blocks[j], base64) {
      assert PartAccepted(Array(Field(ObjectMap(items[i]), "content"))[j], base64);
    }
    AcceptedItemsHaveParts(blocks, base64);
    assert messages[i].parts == DecodeItems(blocks);
    var resolved := Resolve(messages)[i].parts;
    forall j | 0 <= j < |blocks| ensures IsPartOf(resolved[j], blocks[j]) {
      ResolvedPartIsPartOf(Flatten(messages[..i]) + messages[i].parts[..j], messages[i].parts[j], blocks[j]);
    }
  }
}
