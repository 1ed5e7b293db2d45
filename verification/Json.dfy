/** JSON text as `json.Marshal` writes it, and a reader that finds the members of an object in it. Throughout, a `char`
    of a text stands for one byte of UTF-8. */
module Json {
  import opened Common

  // --------------------------------------------------------- where a value ends

  /** Where a reader stands inside a JSON text: how many brackets are open, and whether it is inside a string or right
      after a backslash there. */
  datatype Place = Place(depth: nat, quoted: bool, escaped: bool)

  const OUTSIDE := Place(0, false, false)
  const INSIDE := Place(0, true, false)

  /** The character that follows a complete value or a member's name. */
  predicate Ends(at: Place, c: char) {
    at.depth == 0 && !at.quoted && (c == ',' || c == ':' || c == '}' || c == ']')
  }

  function Advance(at: Place, c: char): Place
    requires !Ends(at, c)
  {
    if at.quoted then
      if at.escaped then at.(escaped := false)
      else if c == '\\' then at.(escaped := true)
      else if c == '"' then at.(quoted := false)
      else at
    else if c == '"' then at.(quoted := true)
    else if c == '{' || c == '[' then at.(depth := at.depth + 1)
    else if (c == '}' || c == ']') && at.depth > 0 then at.(depth := at.depth - 1)
    else at
  }

  /** Reading `s` leads from one place to another without passing the end of a value. */
  predicate Leads(s: string, a: Place, b: Place) {
    if s == "" then a == b else !Ends(a, s[0]) && Leads(s[1..], Advance(a, s[0]), b)
  }

  /** The text of a value: its strings and brackets close, and no value ends inside it. */
  predicate Value(s: string) { s != "" && Leads(s, OUTSIDE, OUTSIDE) }

  /** JSON text as `json.Marshal` writes it: compact, so without a line break. */
  type JsonText = s: string | '\n' !in s && Value(s) witness "0"

  lemma {:induction false} LeadsOn(s: string, t: string, a: Place, b: Place, c: Place)
    requires Leads(s, a, b) && Leads(t, b, c)
    ensures Leads(s + t, a, c)
  {
    if s == "" {
      assert s + t == t;
    } else {
      LeadsOn(s[1..], t, Advance(a, s[0]), b, c);
      assert (s + t)[1..] == s[1..] + t;
    }
  }

  /** What can be read outside all brackets can be read inside one. */
  lemma {:induction false} LeadsDeeper(s: string, a: Place, b: Place)
    requires Leads(s, a, b)
    ensures Leads(s, a.(depth := a.depth + 1), b.(depth := b.depth + 1))
  {
    if s != "" { LeadsDeeper(s[1..], Advance(a, s[0]), b); }
  }

  // ------------------------------------------------------------------ writing

  /** JSON escaping of one byte: quotes, backslashes, controls and the HTML-sensitive characters. */
  function Escape(c: char): (r: string)
    ensures 1 <= |r| <= 6 && '\n' !in r
  {
    if c == '"' then "\\\"" else if c == '\\' then "\\\\"
    else if c == '\n' then "\\n" else if c == '\r' then "\\r" else if c == '\t' then "\\t"
    else if c == '\U{8}' then "\\b" else if c == '\U{C}' then "\\f"
    else if c < ' ' || c == '<' || c == '>' || c == '&' then "\\u00" + [Hex(c as int / 16), Hex(c as int % 16)]
    else [c]
  }

  function Hex(d: int): (r: char)
    ensures r != '\n'
  {
    if 0 <= d < 16 then "0123456789abcdef"[d] else '0'
  }

  /** The text begins with U+2028 or U+2029, whose UTF-8 encodings are E2 80 A8 and E2 80 A9. */
  predicate Separator(s: string) {
    |s| >= 3 && s[0] == '\U{E2}' && s[1] == '\U{80}' && (s[2] == '\U{A8}' || s[2] == '\U{A9}')
  }

  function EscapeAll(s: string): (r: string)
    ensures |s| <= |r| <= 6 * |s| && '\n' !in r
  {
    if s == [] then []
    else if Separator(s) then (if s[2] == '\U{A8}' then "\\u2028" else "\\u2029") + EscapeAll(s[3..])
    else Escape(s[0]) + EscapeAll(s[1..])
  }

  function Quote(s: string): (r: string)
    ensures '\n' !in r
  {
    "\"" + EscapeAll(s) + "\""
  }

  function Decimal(n: nat): (r: string)
    ensures '\n' !in r
  {
    if n < 10 then [Hex(n)] else Decimal(n / 10) + [Hex(n % 10)]
  }

  /** A member of an object: its name and the text of its value. */
  function Member(field: (string, string)): string { Quote(field.0) + ":" + field.1 }

  function Members(fields: seq<(string, string)>): string {
    if fields == [] then "" else Member(fields[0]) + if |fields| == 1 then "" else "," + Members(fields[1..])
  }

  function Object(fields: seq<(string, string)>): string { "{" + Members(fields) + "}" }

  // ------------------------------------------------------------------ reading

  /** The length of the value or name that begins the text. */
  function End(s: string, at: Place): (k: nat)
    ensures k <= |s|
  {
    if s == "" || Ends(at, s[0]) then 0 else 1 + End(s[1..], Advance(at, s[0]))
  }

  /** The text of the value of the named member of an object. */
  function Field(text: string, name: string): Option<string> {
    if text == "" || text[0] != '{' then None else Find(text[1..], name)
  }

  function Find(s: string, name: string): Option<string>
    decreases |s|
  {
    var k := End(s, OUTSIDE);
    if k == |s| || s[k] != ':' then None
    else
      var rest := s[k + 1..];
      var n := End(rest, OUTSIDE);
      if Unquote(s[..k]) == Some(name) then Some(rest[..n])
      else if n < |rest| && rest[n] == ',' then Find(rest[n + 1..], name)
      else None
  }

  function HexValue(c: char): Option<nat> {
    if '0' <= c <= '9' then Some(c as int - '0' as int)
    else if 'a' <= c <= 'f' then Some(c as int - 'a' as int + 10)
    else if 'A' <= c <= 'F' then Some(c as int - 'A' as int + 10)
    else None
  }

  /** The UTF-8 bytes of a code unit that is not a surrogate. */
  function Utf8(n: nat): string
    requires n < 0x1_0000
  {
    if n < 0x80 then [n as char]
    else if n < 0x800 then [(0xC0 + n / 64) as char, (0x80 + n % 64) as char]
    else [(0xE0 + n / 4096) as char, (0x80 + n / 64 % 64) as char, (0x80 + n % 64) as char]
  }

  /** The bytes that four hexadecimal digits stand for. */
  function CodeUnit(s: string): Option<string>
    requires |s| >= 4
  {
    match (HexValue(s[0]), HexValue(s[1]), HexValue(s[2]), HexValue(s[3]))
    case (Some(a), Some(b), Some(c), Some(d)) =>
      var n := ((a * 16 + b) * 16 + c) * 16 + d;
      if n >= 0x1_0000 || 0xD800 <= n < 0xE000 then None else Some(Utf8(n))
    case _ => None
  }

  function Short(c: char): Option<string> {
    if c == '"' || c == '\\' || c == '/' then Some([c])
    else if c == 'n' then Some("\n") else if c == 'r' then Some("\r") else if c == 't' then Some("\t")
    else if c == 'b' then Some("\U{8}") else if c == 'f' then Some("\U{C}")
    else None
  }

  function Prepend(a: Option<string>, b: Option<string>): Option<string> {
    if a.Some? && b.Some? then Some(a.value + b.value) else None
  }

  function Unescape(s: string): Option<string> {
    if s == "" then Some("")
    else if s[0] != '\\' then Prepend(Some([s[0]]), Unescape(s[1..]))
    else if |s| >= 2 && s[1] != 'u' then Prepend(Short(s[1]), Unescape(s[2..]))
    else if |s| >= 6 then Prepend(CodeUnit(s[2..6]), Unescape(s[6..]))
    else None
  }

  /** The string that a quoted text stands for. */
  function Unquote(text: string): Option<string> {
    if |text| >= 2 && text[0] == '"' && text[|text| - 1] == '"' then Unescape(text[1..|text| - 1]) else None
  }

  function StringField(text: string, name: string): Option<string> {
    match Field(text, name)
    case Some(value) => Unquote(value)
    case None => None
  }

  function Number(s: string): Option<nat> {
    if s == "" then None
    else
      match HexValue(s[|s| - 1])
      case Some(d) =>
        if d >= 10 then None
        else if |s| == 1 then Some(d)
        else (match Number(s[..|s| - 1]) case Some(n) => Some(n * 10 + d) case None => None)
      case None => None
  }

  // -------------------------------------------------------- reading what was written

  lemma HexIsRead(d: nat)
    requires d < 16
    ensures HexValue(Hex(d)) == Some(d) && Hex(d) != '"' && Hex(d) != '\\' && !Ends(OUTSIDE, Hex(d))
    ensures Advance(OUTSIDE, Hex(d)) == OUTSIDE
  {
  }

  lemma LastDigitIsRead(s: string, n: nat, d: nat)
    requires s != "" && Number(s) == Some(n) && d < 10
    ensures Number(s + [Hex(d)]) == Some(n * 10 + d)
  {
    HexIsRead(d);
    var all := s + [Hex(d)];
    assert all[..|all| - 1] == s && all[|all| - 1] == Hex(d);
  }

  lemma DigitIsRead(d: nat)
    requires d < 10
    ensures Number([Hex(d)]) == Some(d) && Leads([Hex(d)], OUTSIDE, OUTSIDE)
  {
    HexIsRead(d);
  }

  lemma {:induction false} NumberIsRead(n: nat)
    ensures Number(Decimal(n)) == Some(n) && Value(Decimal(n))
  {
    hide Hex, Number, Leads;
    DigitIsRead(n % 10);
    if n >= 10 {
      NumberIsRead(n / 10);
      LastDigitIsRead(Decimal(n / 10), n / 10, n % 10);
      LeadsOn(Decimal(n / 10), [Hex(n % 10)], OUTSIDE, OUTSIDE, OUTSIDE);
    }
  }

  /** The four digits after the "u" of an escape, followed by anything. */
  lemma CodeUnitIsRead(c: char, rest: string)
    requires c < '\U{80}'
    ensures var s := "\\u00" + [Hex(c as int / 16), Hex(c as int % 16)] + rest;
            Unescape(s) == Prepend(Some([c]), Unescape(rest))
  {
    hide Unescape;
    var h, l := Hex(c as int / 16), Hex(c as int % 16);
    HexIsRead(c as int / 16);
    HexIsRead(c as int % 16);
    var s := "\\u00" + [h, l] + rest;
    assert s[2..6] == ['0', '0', h, l] && s[6..] == rest;
    LongEscape(s);
  }

  lemma LongEscape(s: string)
    requires |s| >= 6 && s[0] == '\\' && s[1] == 'u'
    ensures Unescape(s) == Prepend(CodeUnit(s[2..6]), Unescape(s[6..]))
  {
  }

  lemma ShortEscape(s: string)
    requires |s| >= 2 && s[0] == '\\' && s[1] != 'u'
    ensures Unescape(s) == Prepend(Short(s[1]), Unescape(s[2..]))
  {
  }

  lemma EscapeIsUndone(c: char, rest: string)
    ensures Unescape(Escape(c) + rest) == Prepend(Some([c]), Unescape(rest))
  {
    hide Unescape, Hex, CodeUnit;
    var s := Escape(c) + rest;
    if c < ' ' || c == '<' || c == '>' || c == '&' {
      if |Escape(c)| == 6 { CodeUnitIsRead(c, rest); } else { assert s[2..] == rest; ShortEscape(s); }
    } else if c == '"' || c == '\\' {
      assert s[2..] == rest;
      ShortEscape(s);
    } else {
      assert s[1..] == rest;
      PlainIsRead(s);
    }
  }

  lemma PlainIsRead(s: string)
    requires s != "" && s[0] != '\\'
    ensures Unescape(s) == Prepend(Some([s[0]]), Unescape(s[1..]))
  {
  }

  lemma SeparatorIsRead(last: char, rest: string)
    requires last == '8' || last == '9'
    ensures Unescape("\\u202" + [last] + rest)
            == Prepend(Some(['\U{E2}', '\U{80}', if last == '8' then '\U{A8}' else '\U{A9}']), Unescape(rest))
  {
    hide Unescape;
    var s := "\\u202" + [last] + rest;
    assert s[2..6] == ['2', '0', '2', last] && s[6..] == rest;
    LongEscape(s);
  }

  /** Undoing the escapes of an escaped text gives the text. */
  lemma {:induction false} EscapingIsUndone(s: string)
    ensures Unescape(EscapeAll(s)) == Some(s)
  {
    hide Unescape, Escape;
    if s == "" {
      EmptyIsRead();
    } else if Separator(s) {
      EscapingIsUndone(s[3..]);
      var last := if s[2] == '\U{A8}' then '8' else '9';
      SeparatorIsRead(last, EscapeAll(s[3..]));
      assert EscapeAll(s) == "\\u202" + [last] + EscapeAll(s[3..]);
      assert s[..3] == ['\U{E2}', '\U{80}', if last == '8' then '\U{A8}' else '\U{A9}'] && s == s[..3] + s[3..];
    } else {
      EscapingIsUndone(s[1..]);
      EscapeIsUndone(s[0], EscapeAll(s[1..]));
      assert s == [s[0]] + s[1..];
    }
  }

  lemma EmptyIsRead()
    ensures Unescape("") == Some("")
  {
  }

  /** Characters that are neither quotes nor backslashes stay inside a string. */
  lemma {:induction false} PlainStaysInside(s: string)
    requires '"' !in s && '\\' !in s
    ensures Leads(s, INSIDE, INSIDE)
  {
    if s != "" { PlainStaysInside(s[1..]); }
  }

  lemma EscapeSequenceStaysInside(c: char, rest: string)
    requires '"' !in rest && '\\' !in rest
    ensures Leads(['\\', c] + rest, INSIDE, INSIDE)
  {
    var s := ['\\', c] + rest;
    assert s[1..] == [c] + rest && s[1..][1..] == rest;
    PlainStaysInside(rest);
  }

  lemma EscapeStaysInside(c: char)
    ensures Leads(Escape(c), INSIDE, INSIDE)
  {
    hide Hex;
    var s := Escape(c);
    if |s| == 1 {
      PlainStaysInside(s);
    } else {
      HexIsRead(if c < '\U{80}' then c as int / 16 else 0);
      HexIsRead(c as int % 16);
      EscapeSequenceStaysInside(s[1], s[2..]);
      assert s == ['\\', s[1]] + s[2..];
    }
  }

  lemma {:induction false} EscapedStaysInside(s: string)
    ensures Leads(EscapeAll(s), INSIDE, INSIDE)
  {
    hide Escape;
    if s == "" {
    } else if Separator(s) {
      EscapedStaysInside(s[3..]);
      var rest := if s[2] == '\U{A8}' then "2028" else "2029";
      EscapeSequenceStaysInside('u', rest);
      LeadsOn(['\\', 'u'] + rest, EscapeAll(s[3..]), INSIDE, INSIDE, INSIDE);
      assert EscapeAll(s) == ['\\', 'u'] + rest + EscapeAll(s[3..]);
    } else {
      EscapedStaysInside(s[1..]);
      EscapeStaysInside(s[0]);
      LeadsOn(Escape(s[0]), EscapeAll(s[1..]), INSIDE, INSIDE, INSIDE);
    }
  }

  /** A quoted text is a value, and unquoting it gives the text. */
  lemma QuotedIsRead(s: string)
    ensures Unquote(Quote(s)) == Some(s) && Value(Quote(s))
  {
    hide Unescape, EscapeAll;
    EscapingIsUndone(s);
    EscapedStaysInside(s);
    var q := Quote(s);
    assert q[1..|q| - 1] == EscapeAll(s);
    assert Leads("\"", OUTSIDE, INSIDE) && Leads("\"", INSIDE, OUTSIDE);
    LeadsOn("\"", EscapeAll(s), OUTSIDE, INSIDE, INSIDE);
    LeadsOn("\"" + EscapeAll(s), "\"", OUTSIDE, INSIDE, OUTSIDE);
  }

  /** A complete value ends where the character that follows it says. */
  lemma {:induction false} EndOfValue(s: string, rest: string, at: Place)
    requires Leads(s, at, OUTSIDE) && rest != "" && Ends(OUTSIDE, rest[0])
    ensures End(s + rest, at) == |s|
  {
    if s == "" {
      assert s + rest == rest;
    } else {
      EndOfValue(s[1..], rest, Advance(at, s[0]));
      assert (s + rest)[1..] == s[1..] + rest;
    }
  }

  predicate Values(fields: seq<(string, string)>) { forall i :: 0 <= i < |fields| ==> Value(fields[i].1) }

  lemma FindSteps(s: string, k: nat, n: nat, name: string)
    requires k < |s| && End(s, OUTSIDE) == k && s[k] == ':' && End(s[k + 1..], OUTSIDE) == n
    ensures Find(s, name)
            == var rest := s[k + 1..];
               if Unquote(s[..k]) == Some(name) then Some(rest[..n])
               else if n < |rest| && rest[n] == ',' then Find(rest[n + 1..], name) else None
  {
    hide Unquote, End;
  }

  /** The first member of a list is found by its name; another name is looked for in the rest. */
  lemma FindFirst(field: (string, string), rest: string, name: string)
    requires Value(field.1) && rest != "" && (rest[0] == ',' || rest[0] == '}')
    ensures Find(Member(field) + rest, name)
            == if name == field.0 then Some(field.1) else if rest[0] == ',' then Find(rest[1..], name) else None
  {
    hide Quote, Unquote, Value, End, Find;
    var key, value := Quote(field.0), field.1 + rest;
    var s := Member(field) + rest;
    QuotedIsRead(field.0);
    NameEnds(key, ":" + value);
    NameEnds(field.1, rest);
    assert s == key + (":" + value);
    assert s[..|key|] == key && s[|key| + 1..] == value;
    assert value[..|field.1|] == field.1 && value[|field.1| + 1..] == rest[1..];
    FindSteps(s, |key|, |field.1|, name);
  }

  lemma NameEnds(s: string, rest: string)
    requires Value(s) && rest != "" && Ends(OUTSIDE, rest[0])
    ensures End(s + rest, OUTSIDE) == |s|
  {
    EndOfValue(s, rest, OUTSIDE);
  }

  lemma {:induction false} FindMember(fields: seq<(string, string)>, i: nat)
    requires i < |fields| && Values(fields) && forall j :: 0 <= j < i ==> fields[j].0 != fields[i].0
    ensures Find(Members(fields) + "}", fields[i].0) == Some(fields[i].1)
  {
    hide Find, Member, Value;
    var rest := if |fields| == 1 then "}" else "," + Members(fields[1..]) + "}";
    assert Members(fields) + "}" == Member(fields[0]) + rest;
    FindFirst(fields[0], rest, fields[i].0);
    if i > 0 {
      FindMember(fields[1..], i - 1);
      assert rest[1..] == Members(fields[1..]) + "}";
    }
  }

  /** A member of a written object reads back as the text of its value. */
  lemma FieldIsRead(fields: seq<(string, string)>, i: nat)
    requires i < |fields| && Values(fields) && forall j :: 0 <= j < i ==> fields[j].0 != fields[i].0
    ensures Field(Object(fields), fields[i].0) == Some(fields[i].1)
  {
    hide Find, Members, Value;
    FindMember(fields, i);
    assert Object(fields)[1..] == Members(fields) + "}";
  }

  lemma StringFieldIsRead(fields: seq<(string, string)>, i: nat, s: string)
    requires i < |fields| && Values(fields) && (forall j :: 0 <= j < i ==> fields[j].0 != fields[i].0) && fields[i].1 == Quote(s)
    ensures StringField(Object(fields), fields[i].0) == Some(s)
  {
    hide Field, Object, Value, Unquote, Quote;
    FieldIsRead(fields, i);
    QuotedIsRead(s);
  }

  lemma MemberIsBalanced(field: (string, string))
    requires Value(field.1)
    ensures Leads(Member(field), Place(1, false, false), Place(1, false, false))
  {
    hide Quote, Leads;
    var at := Place(1, false, false);
    QuotedIsRead(field.0);
    LeadsDeeper(Quote(field.0), OUTSIDE, OUTSIDE);
    LeadsDeeper(field.1, OUTSIDE, OUTSIDE);
    ColonIsInside();
    LeadsOn(Quote(field.0), ":", at, at, at);
    LeadsOn(Quote(field.0) + ":", field.1, at, at, at);
  }

  lemma ColonIsInside()
    ensures var at := Place(1, false, false);
            Leads(":", at, at) && Leads(",", at, at) && Leads("{", OUTSIDE, at) && Leads("}", at, OUTSIDE) && Leads("", at, at)
  {
  }

  lemma {:induction false} MembersAreBalanced(fields: seq<(string, string)>)
    requires Values(fields)
    ensures Leads(Members(fields), Place(1, false, false), Place(1, false, false))
  {
    hide Leads, Value, Member;
    var at := Place(1, false, false);
    ColonIsInside();
    if fields != [] {
      MemberIsBalanced(fields[0]);
      if |fields| > 1 {
        MembersAreBalanced(fields[1..]);
        LeadsOn(",", Members(fields[1..]), at, at, at);
        LeadsOn(Member(fields[0]), "," + Members(fields[1..]), at, at, at);
      } else {
        assert Members(fields) == Member(fields[0]);
      }
    }
  }

  /** An object of values is a value. */
  lemma ObjectIsValue(fields: seq<(string, string)>)
    requires Values(fields)
    ensures Value(Object(fields))
  {
    hide Leads, Members;
    var at := Place(1, false, false);
    MembersAreBalanced(fields);
    ColonIsInside();
    LeadsOn("{", Members(fields), OUTSIDE, at, at);
    LeadsOn("{" + Members(fields), "}", OUTSIDE, at, OUTSIDE);
  }

  // -------------------------------------------------------------------- sizes

  function EscapeSize(c: char): nat {
    if c == '"' || c == '\\' || c == '\n' || c == '\r' || c == '\t' || c == '\U{8}' || c == '\U{C}' then 2
    else if c < ' ' || c == '<' || c == '>' || c == '&' then 6 else 1
  }

  function EscapedSize(s: string): (r: nat)
    ensures |s| <= r <= 6 * |s|
  {
    if s == [] then 0
    else if Separator(s) then 6 + EscapedSize(s[3..])
    else EscapeSize(s[0]) + EscapedSize(s[1..])
  }

  function QuotedSize(s: string): nat { EscapedSize(s) + 2 }

  function DecimalSize(n: nat): nat { if n < 10 then 1 else DecimalSize(n / 10) + 1 }

  lemma {:induction false} EscapedSizeIsLength(s: string)
    ensures |EscapeAll(s)| == EscapedSize(s)
  {
    if Separator(s) {
      EscapedSizeIsLength(s[3..]);
    } else if s != [] {
      EscapedSizeIsLength(s[1..]);
    }
  }

  lemma {:induction false} DecimalSizeIsLength(n: nat)
    ensures |Decimal(n)| == DecimalSize(n)
  {
    if n >= 10 { DecimalSizeIsLength(n / 10); }
  }

  lemma QuoteSize(s: string)
    ensures |Quote(s)| == QuotedSize(s)
  {
    EscapedSizeIsLength(s);
  }

  /** The size of an object: braces, commas, and for each member its name, a colon and its value. */
  function MembersSize(fields: seq<(string, string)>): nat {
    if fields == [] then 0
    else QuotedSize(fields[0].0) + 1 + |fields[0].1| + if |fields| == 1 then 0 else 1 + MembersSize(fields[1..])
  }

  lemma {:induction false} ObjectSize(fields: seq<(string, string)>)
    ensures |Object(fields)| == MembersSize(fields) + 2
  {
    hide Quote, QuotedSize;
    if fields != [] {
      QuoteSize(fields[0].0);
      ObjectSize(fields[1..]);
    }
  }

  lemma {:induction false} ObjectHasNoBreak(fields: seq<(string, string)>)
    requires forall i :: 0 <= i < |fields| ==> '\n' !in fields[i].1
    ensures '\n' !in Object(fields)
  {
    hide Quote;
    if fields != [] { ObjectHasNoBreak(fields[1..]); }
  }
}
