/** The event stream that a Responses client receives while another provider dialect is translated. */
module TranslatedStream {
  import opened Common

  const MAX_STREAM_BYTES: nat := 16777216

  datatype ToolDelta = ToolDelta(key: int, id: string, name: string, arguments: string)

  /** One decoded provider event. */
  datatype Delta = Delta(text: string, refusal: string, tools: seq<ToolDelta>, stop: string, done: bool,
                         input: Option<int>, output: Option<int>, invalidUsage: bool)

  /** What a frame of the source holds: the end marker, a decodable event, or one that cannot be decoded. */
  datatype Payload = Marker | Event(delta: Delta) | Undecodable

  datatype Dialect = OpenAI | Anthropic | Gemini

  datatype Tool = Tool(id: string, name: string, arguments: string, outputIndex: nat)

  datatype ItemKind = MessageKind | CallKind

  datatype OutputItem = Message(text: Option<string>, refusal: Option<string>) | Call(id: string, name: string, arguments: string)

  datatype Emitted =
    | Created
    | ItemAdded(index: nat, kind: ItemKind)
    | PartAdded(index: nat, part: nat)
    | TextDelta(index: nat, text: string)
    | TextDone(index: nat, text: string)
    | RefusalDelta(index: nat, part: nat, text: string)
    | RefusalDone(index: nat, part: nat, text: string)
    | ArgumentsDelta(index: nat, text: string)
    | ArgumentsDone(index: nat, text: string)
    | ItemDone(index: nat, item: OutputItem)
    | ResponseCompleted(output: seq<OutputItem>, inputTokens: int, outputTokens: int)

  // ------------------------------------------------------ a client's view

  /** What the closing events of an item's parts say. */
  datatype Ends = Ends(text: Option<string>, refusal: Option<string>, arguments: Option<string>)

  /** What a client has seen of one output index; `kind` is what its start announced. `inOrder` is lost when something
      precedes the item's start or follows its end, or a part is closed twice. */
  datatype View = View(added: nat, kind: Option<ItemKind>, done: nat, text: string, refusal: string, arguments: string, ends: Ends,
                       item: Option<OutputItem>, inOrder: bool)

  function Open(v: View): View { v.(inOrder := v.inOrder && v.added == 1 && v.done == 0) }

  function End(v: View, again: bool, ends: Ends): View { Open(v).(ends := ends, inOrder := Open(v).inOrder && !again) }

  function See(v: View, e: Emitted, i: nat): View {
    match e
    case ItemAdded(index, kind) =>
      if index == i then v.(added := v.added + 1, kind := Some(kind), inOrder := v.inOrder && v.added == 0 && v.done == 0) else v
    case PartAdded(index, _) => if index == i then Open(v) else v
    case TextDelta(index, text) => if index == i then Open(v).(text := v.text + text) else v
    case TextDone(index, text) => if index == i then End(v, v.ends.text.Some?, v.ends.(text := Some(text))) else v
    case RefusalDelta(index, _, text) => if index == i then Open(v).(refusal := v.refusal + text) else v
    case RefusalDone(index, _, text) => if index == i then End(v, v.ends.refusal.Some?, v.ends.(refusal := Some(text))) else v
    case ArgumentsDelta(index, text) => if index == i then Open(v).(arguments := v.arguments + text) else v
    case ArgumentsDone(index, text) => if index == i then End(v, v.ends.arguments.Some?, v.ends.(arguments := Some(text))) else v
    case ItemDone(index, item) => if index == i then Open(v).(done := v.done + 1, item := Some(item)) else v
    case Created | ResponseCompleted(_, _, _) => v
  }

  /** The view of a message after its refusal. */
  function WithRefusal(v: View, refusal: string): View {
    End(Open(Open(v)).(refusal := v.refusal + refusal), v.ends.refusal.Some?, v.ends.(refusal := Some(refusal)))
  }

  const NOTHING_ENDED := Ends(None, None, None)

  const UNSEEN := View(0, None, 0, "", "", "", NOTHING_ENDED, None, true)

  function ViewOf(events: seq<Emitted>, i: nat): View {
    if events == [] then UNSEEN else See(ViewOf(events[..|events| - 1], i), events[|events| - 1], i)
  }

  lemma ViewSnoc(events: seq<Emitted>, e: Emitted, i: nat)
    ensures ViewOf(events + [e], i) == See(ViewOf(events, i), e, i)
  {
    assert (events + [e])[..|events|] == events;
  }

  // ------------------------------------------------------------ ordered tools

  predicate Increasing(keys: seq<int>) { forall i, j :: 0 <= i < j < |keys| ==> keys[i] < keys[j] }

  function InsertKey(keys: seq<int>, k: int): (r: seq<int>)
    requires Increasing(keys) && k !in keys
    ensures Increasing(r) && forall x :: x in r <==> x in keys || x == k
  {
    if keys == [] then [k]
    else if k < keys[0] then [k] + keys
    else
      var rest := InsertKey(keys[1..], k);
      assert forall j :: 0 <= j < |rest| ==> rest[j] in rest;
      assert forall x :: x in keys <==> x == keys[0] || x in keys[1..];
      [keys[0]] + rest
  }

  /** `iteration` lists the keys of a map in the order in which a loop over it happens to visit them. */
  ghost predicate Enumerates(iteration: seq<int>, keys: set<int>) {
    (forall k :: k in iteration <==> k in keys) && forall i, j :: 0 <= i < j < |iteration| ==> iteration[i] != iteration[j]
  }

  lemma EnumeratedAt(iteration: seq<int>, keys: set<int>, i: nat)
    requires Enumerates(iteration, keys) && i < |iteration|
    ensures iteration[i] in keys
  {
    assert iteration[i] in iteration;
  }

  /** The order of `orderedStreamTools`: by the provider's own index of the tool call. */
  method OrderedKeys(tools: map<int, Tool>, iteration: seq<int>) returns (ordered: seq<int>)
    requires Enumerates(iteration, tools.Keys)
    ensures Increasing(ordered) && forall k :: k in ordered <==> k in tools
  {
    ordered := [];
    var n := 0;
    while n < |iteration|
      invariant 0 <= n <= |iteration|
      invariant Increasing(ordered) && forall k :: k in ordered <==> k in iteration[..n]
    {
      ordered := InsertKey(ordered, iteration[n]);
      assert iteration[..n + 1] == iteration[..n] + [iteration[n]];
      n := n + 1;
    }
    assert iteration[..n] == iteration;
  }

  function Digits(n: int): string
    decreases if n < 0 then 1 - n else n
  {
    if n < 0 then "-" + Digits(-n)
    else if n < 10 then ["0123456789"[n]] else Digits(n / 10) + ["0123456789"[n % 10]]
  }

  /** What the events say besides output: stop, refusal, completion and token usage. */
  datatype Notes = Notes(refusal: string, completed: bool, terminalSeen: bool, terminalUsage: bool, invalidUsage: bool,
                         input: Option<int>, output: Option<int>)

  function NoteDelta(n: Notes, delta: Delta, dialect: Dialect): Notes {
    var terminalSeen := n.terminalSeen || delta.stop != "";
    var input := if delta.input.Some? then delta.input else n.input;
    var terminal := match dialect
      case OpenAI => terminalSeen && delta.input.Some? && delta.output.Some?
      case Anthropic => delta.stop != "" && delta.output.Some? && input.Some?
      case Gemini => delta.done && delta.output.Some? && input.Some?;
    Notes(n.refusal + delta.refusal, n.completed || delta.done, terminalSeen, n.terminalUsage || terminal,
          n.invalidUsage || delta.invalidUsage, input, if delta.output.Some? then delta.output else n.output)
  }

  // ------------------------------------------------- what the provider sent

  function ArgumentsIn(tools: map<int, Tool>, k: int): string { if k in tools then tools[k].arguments else "" }

  function KeysOf(tools: seq<ToolDelta>): set<int> { if tools == [] then {} else KeysOf(tools[..|tools| - 1]) + {tools[|tools| - 1].key} }

  /** The arguments that the deltas of one call add up to. */
  function PiecesOf(tools: seq<ToolDelta>, k: int): string {
    if tools == [] then ""
    else PiecesOf(tools[..|tools| - 1], k) + if tools[|tools| - 1].key == k then tools[|tools| - 1].arguments else ""
  }

  /** The last name that is not empty among the deltas of one call; empty if none is. */
  function NameIn(tools: seq<ToolDelta>, k: int): string {
    if tools == [] then ""
    else
      var last := tools[|tools| - 1];
      if last.key == k && last.name != "" then last.name else NameIn(tools[..|tools| - 1], k)
  }

  function Latest(before: string, name: string): string { if name != "" then name else before }

  function NameBefore(tools: map<int, Tool>, k: int): string { if k in tools then tools[k].name else "" }

  lemma MoreNames(tools: seq<ToolDelta>, n: nat)
    requires n < |tools|
    ensures forall k :: NameIn(tools[..n + 1], k) == Latest(NameIn(tools[..n], k), if tools[n].key == k then tools[n].name else "")
  {
    assert tools[..n + 1][..n] == tools[..n];
  }

  lemma {:induction false} NoNamesOfOthers(tools: seq<ToolDelta>)
    ensures forall k :: k !in KeysOf(tools) ==> NameIn(tools, k) == ""
  {
    if tools != [] { NoNamesOfOthers(tools[..|tools| - 1]); }
  }

  lemma MorePieces(tools: seq<ToolDelta>, n: nat)
    requires n < |tools|
    ensures KeysOf(tools[..n + 1]) == KeysOf(tools[..n]) + {tools[n].key}
    ensures forall k :: PiecesOf(tools[..n + 1], k) == PiecesOf(tools[..n], k) + if tools[n].key == k then tools[n].arguments else ""
    ensures forall k :: k !in KeysOf(tools[..n]) ==> PiecesOf(tools[..n], k) == ""
  {
    assert tools[..n + 1][..n] == tools[..n];
    NoPiecesOfOthers(tools[..n]);
  }

  lemma {:induction false} NoPiecesOfOthers(tools: seq<ToolDelta>)
    ensures forall k :: k !in KeysOf(tools) ==> PiecesOf(tools, k) == ""
  {
    if tools != [] { NoPiecesOfOthers(tools[..|tools| - 1]); }
  }

  /** All that the frames of a source stream say: its text, its tool calls with their arguments and names, and its
      notes. */
  datatype Source = Source(text: string, keys: set<int>, arguments: map<int, string>, names: map<int, string>, notes: Notes)

  const NO_NOTES := Notes("", false, false, false, false, None, None)

  function ReadOne(s: Source, payload: Payload, dialect: Dialect): Source {
    match payload
    case Marker => s.(notes := s.notes.(completed := true))
    case Undecodable => s
    case Event(delta) =>
      var keys := s.keys + KeysOf(delta.tools);
      Source(s.text + delta.text, keys,
             map k | k in keys :: (if k in s.arguments then s.arguments[k] else "") + PiecesOf(delta.tools, k),
             map k | k in keys :: Latest(if k in s.names then s.names[k] else "", NameIn(delta.tools, k)),
             NoteDelta(s.notes, delta, dialect))
  }

  function ReadAll(payloads: seq<Payload>, dialect: Dialect): Source {
    if payloads == [] then Source("", {}, map[], map[], NO_NOTES)
    else ReadOne(ReadAll(payloads[..|payloads| - 1], dialect), payloads[|payloads| - 1], dialect)
  }

  // ------------------------------------------------ the notes, on the payloads

  predicate Stops(p: Payload) { p.Event? && p.delta.stop != "" }

  predicate Counts(p: Payload, input: bool) { p.Event? && if input then p.delta.input.Some? else p.delta.output.Some? }

  function CountIn(p: Payload, input: bool): int
    requires Counts(p, input)
  {
    if input then p.delta.input.value else p.delta.output.value
  }

  /** The value is the last count that an event gives; there is none exactly if no event gives one. */
  ghost predicate IsLastCount(payloads: seq<Payload>, input: bool, value: Option<int>) {
    match value
    case None => forall i :: 0 <= i < |payloads| ==> !Counts(payloads[i], input)
    case Some(n) =>
      exists i :: 0 <= i < |payloads| && Counts(payloads[i], input) && CountIn(payloads[i], input) == n
                  && forall j :: i < j < |payloads| ==> !Counts(payloads[j], input)
  }

  ghost predicate SomeStop(payloads: seq<Payload>, n: nat) { exists j :: 0 <= j < n && j < |payloads| && Stops(payloads[j]) }

  ghost predicate SomeInput(payloads: seq<Payload>, n: nat) { exists j :: 0 <= j < n && j < |payloads| && Counts(payloads[j], true) }

  /** Event `i` closes the usage: for OpenAI it gives both counts, at or after a stop reason; for Anthropic it gives a stop
      reason and the output count, at or after an input count; for Gemini it is the last one and gives the output count,
      at or after an input count. */
  ghost predicate ClosesUsage(payloads: seq<Payload>, i: nat, dialect: Dialect)
    requires i < |payloads|
  {
    payloads[i].Event? &&
    match dialect
    case OpenAI => Counts(payloads[i], true) && Counts(payloads[i], false) && SomeStop(payloads, i + 1)
    case Anthropic => Stops(payloads[i]) && Counts(payloads[i], false) && SomeInput(payloads, i + 1)
    case Gemini => payloads[i].delta.done && Counts(payloads[i], false) && SomeInput(payloads, i + 1)
  }

  predicate IsEnd(p: Payload) { p.Marker? || (p.Event? && p.delta.done) }

  predicate IsInvalid(p: Payload) { p.Event? && p.delta.invalidUsage }

  ghost predicate SomeEnd(payloads: seq<Payload>) { exists i :: 0 <= i < |payloads| && IsEnd(payloads[i]) }

  ghost predicate SomeInvalid(payloads: seq<Payload>) { exists i :: 0 <= i < |payloads| && IsInvalid(payloads[i]) }

  ghost predicate SomeClose(payloads: seq<Payload>, dialect: Dialect) {
    exists i: nat :: i < |payloads| && ClosesUsage(payloads, i, dialect)
  }

  /** What the notes on a stream mean, for each dialect. */
  ghost predicate NotesMean(payloads: seq<Payload>, dialect: Dialect, n: Notes) {
    && (n.completed <==> SomeEnd(payloads)) && (n.invalidUsage <==> SomeInvalid(payloads))
    && (n.terminalSeen <==> SomeStop(payloads, |payloads|)) && (n.terminalUsage <==> SomeClose(payloads, dialect))
    && IsLastCount(payloads, true, n.input) && IsLastCount(payloads, false, n.output)
  }

  lemma LastCountNext(payloads: seq<Payload>, p: Payload, input: bool, value: Option<int>)
    requires IsLastCount(payloads, input, value)
    ensures IsLastCount(payloads + [p], input, if Counts(p, input) then Some(CountIn(p, input)) else value)
    ensures value.Some? <==> exists j :: 0 <= j < |payloads| && Counts(payloads[j], input)
  {
    var all := payloads + [p];
    if Counts(p, input) {
      assert all[|payloads|] == p;
    } else if value.Some? {
      var i :| 0 <= i < |payloads| && Counts(payloads[i], input) && CountIn(payloads[i], input) == value.value
               && forall j :: i < j < |payloads| ==> !Counts(payloads[j], input);
      assert all[i] == payloads[i];
    }
  }

  lemma SomeNext(payloads: seq<Payload>, p: Payload, n: nat)
    requires n <= |payloads|
    ensures SomeStop(payloads + [p], n) == SomeStop(payloads, n) && SomeInput(payloads + [p], n) == SomeInput(payloads, n)
    ensures SomeStop(payloads + [p], |payloads| + 1) <==> SomeStop(payloads, |payloads|) || Stops(p)
    ensures SomeInput(payloads + [p], |payloads| + 1) <==> SomeInput(payloads, |payloads|) || Counts(p, true)
  {
    var all := payloads + [p];
    assert all[|payloads|] == p;
    forall j | 0 <= j < |payloads| ensures all[j] == payloads[j] { }
  }

  lemma ClosesNext(payloads: seq<Payload>, p: Payload, dialect: Dialect)
    ensures SomeClose(payloads + [p], dialect) <==> SomeClose(payloads, dialect) || ClosesUsage(payloads + [p], |payloads|, dialect)
  {
    hide SomeStop, SomeInput;
    var all := payloads + [p];
    forall i: nat | i < |payloads| ensures ClosesUsage(all, i, dialect) <==> ClosesUsage(payloads, i, dialect) {
      SomeNext(payloads, p, i + 1);
    }
  }

  lemma ExistsNext(payloads: seq<Payload>, p: Payload)
    ensures SomeEnd(payloads + [p]) <==> SomeEnd(payloads) || IsEnd(p)
    ensures SomeInvalid(payloads + [p]) <==> SomeInvalid(payloads) || IsInvalid(p)
  {
    hide IsEnd, IsInvalid;
    var all := payloads + [p];
    assert all[|payloads|] == p;
    forall i | 0 <= i < |payloads| ensures all[i] == payloads[i] { }
  }

  /** When usage is closed, which counts are reported, and when a stream counts as ended, in terms of its payloads. */
  lemma {:induction false} NotesAreOnPayloads(payloads: seq<Payload>, dialect: Dialect)
    ensures NotesMean(payloads, dialect, ReadAll(payloads, dialect).notes)
  {
    hide NotesMean, NoteDelta, PiecesOf, NameIn, KeysOf;
    if payloads == [] {
      NothingNoted(dialect);
    } else {
      var init, p := payloads[..|payloads| - 1], payloads[|payloads| - 1];
      assert payloads == init + [p];
      NotesAreOnPayloads(init, dialect);
      NotesStep(init, p, dialect, ReadAll(init, dialect).notes);
    }
  }

  lemma NotesStep(payloads: seq<Payload>, p: Payload, dialect: Dialect, n: Notes)
    requires NotesMean(payloads, dialect, n)
    ensures NotesMean(payloads + [p], dialect,
                      if p.Marker? then n.(completed := true) else if p.Undecodable? then n else NoteDelta(n, p.delta, dialect))
  {
    hide ClosesUsage, IsLastCount, SomeStop, SomeInput, SomeEnd, SomeInvalid, SomeClose;
    LastCountNext(payloads, p, true, n.input);
    LastCountNext(payloads, p, false, n.output);
    SomeNext(payloads, p, |payloads|);
    ClosesNext(payloads, p, dialect);
    ExistsNext(payloads, p);
    LastCloses(payloads, p, dialect, n);
  }

  lemma NothingNoted(dialect: Dialect)
    ensures NotesMean([], dialect, NO_NOTES)
  {
  }

  lemma LastCloses(payloads: seq<Payload>, p: Payload, dialect: Dialect, n: Notes)
    requires IsLastCount(payloads, true, n.input) && (n.terminalSeen <==> SomeStop(payloads, |payloads|))
    ensures ClosesUsage(payloads + [p], |payloads|, dialect) <==>
              p.Event? && NoteDelta(n.(terminalUsage := false), p.delta, dialect).terminalUsage
  {
    hide SomeStop;
    var all := payloads + [p];
    assert all[|payloads|] == p;
    SomeNext(payloads, p, |payloads|);
    LastCountNext(payloads, p, true, n.input);
  }

  /** The limits on what a stream may say. */
  ghost predicate Within(s: Source) {
    |s.text| <= MAX_STREAM_BYTES && forall k :: k in s.arguments ==> |s.arguments[k]| <= MAX_STREAM_BYTES
  }

  lemma ReadFits(before: map<int, Tool>, s: Source, delta: Delta, dialect: Dialect)
    requires before.Keys == s.keys == s.arguments.Keys && forall k :: k in before ==> before[k].arguments == s.arguments[k]
    requires forall k :: k in before ==> |before[k].arguments| <= MAX_STREAM_BYTES
    ensures Within(ReadOne(s, Event(delta), dialect)) <==> |s.text| + |delta.text| <= MAX_STREAM_BYTES && ArgumentsFit(before, delta.tools)
  {
    hide PiecesOf, KeysOf, NoteDelta;
    NoPiecesOfOthers(delta.tools);
    var t := ReadOne(s, Event(delta), dialect);
    forall k | k in t.arguments ensures t.arguments[k] == ArgumentsIn(before, k) + PiecesOf(delta.tools, k) { }
    forall k | k !in t.arguments ensures |ArgumentsIn(before, k)| + |PiecesOf(delta.tools, k)| == 0 { }
  }

  lemma WithinBefore(s: Source, payload: Payload, dialect: Dialect)
    requires s.keys == s.arguments.Keys && Within(ReadOne(s, payload, dialect))
    ensures Within(s)
  {
    hide PiecesOf, KeysOf, NoteDelta;
    if payload.Event? {
      var t := ReadOne(s, payload, dialect);
      forall k | k in s.arguments ensures |s.arguments[k]| <= MAX_STREAM_BYTES { assert k in t.arguments; }
    }
  }

  lemma {:induction false} PrefixIsWithin(payloads: seq<Payload>, n: nat, dialect: Dialect)
    requires n <= |payloads| && Within(ReadAll(payloads, dialect))
    ensures Within(ReadAll(payloads[..n], dialect))
  {
    hide ReadOne, Within;
    if n < |payloads| {
      var init := payloads[..|payloads| - 1];
      ReadKeys(init, dialect);
      WithinBefore(ReadAll(init, dialect), payloads[|payloads| - 1], dialect);
      PrefixIsWithin(init, n, dialect);
      assert init[..n] == payloads[..n];
    } else {
      assert payloads[..n] == payloads;
    }
  }

  lemma NothingRead(dialect: Dialect)
    ensures Within(ReadAll([], dialect))
  {
  }

  lemma {:induction false} ReadKeys(payloads: seq<Payload>, dialect: Dialect)
    ensures ReadAll(payloads, dialect).keys == ReadAll(payloads, dialect).arguments.Keys == ReadAll(payloads, dialect).names.Keys
  {
    hide PiecesOf, NameIn, KeysOf, NoteDelta;
    if payloads != [] { ReadKeys(payloads[..|payloads| - 1], dialect); }
  }

  lemma ReadNext(payloads: seq<Payload>, n: nat, dialect: Dialect)
    requires n < |payloads|
    ensures ReadAll(payloads[..n + 1], dialect) == ReadOne(ReadAll(payloads[..n], dialect), payloads[n], dialect)
  {
    hide ReadOne;
    assert payloads[..n + 1][..n] == payloads[..n];
  }

  /** The calls after some more deltas: those of `items` were started if need be and got their arguments. */
  ghost predicate Extended(now: map<int, Tool>, before: map<int, Tool>, items: seq<ToolDelta>) {
    && now.Keys == before.Keys + KeysOf(items)
    && forall k :: k in now ==>
         now[k].arguments == ArgumentsIn(before, k) + PiecesOf(items, k) && now[k].name == Latest(NameBefore(before, k), NameIn(items, k))
  }

  /** Calls that agree with what was read before agree with what was read after the next event. */
  lemma ReadExtends(now: map<int, Tool>, before: map<int, Tool>, s: Source, delta: Delta, dialect: Dialect)
    requires before.Keys == s.keys == s.arguments.Keys == s.names.Keys
    requires forall k :: k in before ==> before[k].arguments == s.arguments[k] && before[k].name == s.names[k]
    requires Extended(now, before, delta.tools)
    ensures var t := ReadOne(s, Event(delta), dialect);
            && now.Keys == t.keys == t.arguments.Keys == t.names.Keys
            && forall k :: k in now ==> now[k].arguments == t.arguments[k] && now[k].name == t.names[k]
  {
    hide PiecesOf, NameIn, KeysOf, NoteDelta, Latest;
  }

  lemma NothingExtended(tools: map<int, Tool>)
    ensures Extended(tools, tools, [])
  {
  }

  lemma ExtendedByOne(now: map<int, Tool>, next: map<int, Tool>, before: map<int, Tool>, items: seq<ToolDelta>, n: nat)
    requires n < |items| && Extended(now, before, items[..n]) && next.Keys == now.Keys + {items[n].key}
    requires forall k :: k in next ==> next[k].arguments == ArgumentsIn(now, k) + if k == items[n].key then items[n].arguments else ""
    requires forall k :: k in next ==> next[k].name == Latest(NameBefore(now, k), if k == items[n].key then items[n].name else "")
    ensures Extended(next, before, items[..n + 1])
  {
    hide PiecesOf, NameIn, KeysOf;
    MorePieces(items, n);
    MoreNames(items, n);
    NoNamesOfOthers(items[..n]);
    forall k | k in next
      ensures next[k].arguments == ArgumentsIn(before, k) + PiecesOf(items[..n + 1], k)
      ensures next[k].name == Latest(NameBefore(before, k), NameIn(items[..n + 1], k))
    {
      if k !in now { assert k !in before && k !in KeysOf(items[..n]); }
      Associate(ArgumentsIn(before, k), PiecesOf(items[..n], k), if k == items[n].key then items[n].arguments else "");
    }
  }

  /** The arguments of every call stay within the limit. */
  ghost predicate ArgumentsFit(before: map<int, Tool>, items: seq<ToolDelta>) {
    forall k :: |ArgumentsIn(before, k)| + |PiecesOf(items, k)| <= MAX_STREAM_BYTES
  }

  lemma {:induction false} PiecesGrow(items: seq<ToolDelta>, n: nat, k: int)
    requires n <= |items|
    ensures |PiecesOf(items[..n], k)| <= |PiecesOf(items, k)|
  {
    if n < |items| {
      PiecesGrow(items[..|items| - 1], n, k);
      assert items[..|items| - 1][..n] == items[..n];
    } else {
      assert items[..n] == items;
    }
  }

  lemma TooMany(now: map<int, Tool>, before: map<int, Tool>, items: seq<ToolDelta>, n: nat)
    requires n < |items| && Extended(now, before, items[..n])
    requires |ArgumentsIn(now, items[n].key)| + |items[n].arguments| > MAX_STREAM_BYTES
    ensures !ArgumentsFit(before, items)
  {
    hide PiecesOf, KeysOf;
    var k := items[n].key;
    MorePieces(items, n);
    PiecesGrow(items, n + 1, k);
    if k !in now { assert k !in before && k !in KeysOf(items[..n]); }
    assert |ArgumentsIn(before, k)| + |PiecesOf(items, k)| > MAX_STREAM_BYTES;
  }

  lemma ExtendedFits(now: map<int, Tool>, before: map<int, Tool>, items: seq<ToolDelta>)
    requires Extended(now, before, items) && forall k :: k in now ==> |now[k].arguments| <= MAX_STREAM_BYTES
    ensures ArgumentsFit(before, items)
  {
    hide PiecesOf, KeysOf;
    NoPiecesOfOthers(items);
    forall k ensures |ArgumentsIn(before, k)| + |PiecesOf(items, k)| <= MAX_STREAM_BYTES {
      if k !in now { assert k !in before && k !in KeysOf(items); }
    }
  }

  lemma Associate(a: string, b: string, c: string)
    ensures (a + b) + c == a + (b + c)
  {
  }

  // --------------------------------------------------------------- translator

  /** Which output item an index belongs to. */
  datatype Slot = TextSlot | ToolSlot(key: int)

  /** The part of the translation that the client's view depends on; `slots` records the owner of each output index. */
  datatype Core = Core(tools: map<int, Tool>, nextOutput: nat, textIndex: int, outputText: string, events: seq<Emitted>,
                       slots: seq<Slot>)

  ghost predicate Owned(c: Core) {
    && |c.slots| == c.nextOutput && -1 <= c.textIndex < c.nextOutput && (c.textIndex < 0 ==> c.outputText == "")
    && (forall i :: 0 <= i < c.nextOutput ==> (c.slots[i].TextSlot? <==> i == c.textIndex))
    && (forall i :: 0 <= i < c.nextOutput && c.slots[i].ToolSlot? ==> c.slots[i].key in c.tools && c.tools[c.slots[i].key].outputIndex == i)
    && (forall k :: k in c.tools ==> c.tools[k].outputIndex < c.nextOutput && c.slots[c.tools[k].outputIndex] == ToolSlot(k))
  }

  /** What the client must have seen of index `i` while the stream is open. */
  function Expected(c: Core, i: nat): View
    requires |c.slots| == c.nextOutput && forall j :: 0 <= j < c.nextOutput && c.slots[j].ToolSlot? ==> c.slots[j].key in c.tools
  {
    if i >= c.nextOutput then UNSEEN
    else if c.slots[i].TextSlot? then UNSEEN.(added := 1, kind := Some(MessageKind), text := c.outputText)
    else UNSEEN.(added := 1, kind := Some(CallKind), arguments := c.tools[c.slots[i].key].arguments)
  }

  ghost predicate Good(c: Core) { Owned(c) && forall i: nat :: ViewOf(c.events, i) == Expected(c, i) }

  function Emit(c: Core, e: Emitted): Core { c.(events := c.events + [e]) }

  lemma CreatedIsGood(c: Core)
    requires Good(c)
    ensures Good(Emit(c, Created))
  {
    hide ViewOf;
    forall i: nat ensures ViewOf(c.events + [Created], i) == Expected(Emit(c, Created), i) { ViewSnoc(c.events, Created, i); }
  }

  function WithText(c: Core): Core {
    Emit(Emit(c, ItemAdded(c.nextOutput, MessageKind)), PartAdded(c.nextOutput, 0)).(
      textIndex := c.nextOutput, nextOutput := c.nextOutput + 1, slots := c.slots + [TextSlot])
  }

  lemma WithTextIsGood(c: Core)
    requires Good(c) && c.textIndex < 0
    ensures Good(WithText(c))
  {
    hide ViewOf;
    var d, e := ItemAdded(c.nextOutput, MessageKind), PartAdded(c.nextOutput, 0);
    forall i: nat ensures ViewOf(WithText(c).events, i) == Expected(WithText(c), i) {
      ViewSnoc(c.events, d, i);
      ViewSnoc(c.events + [d], e, i);
    }
  }

  function MoreText(c: Core, text: string): Core
    requires c.textIndex >= 0
  {
    Emit(c, TextDelta(c.textIndex, text)).(outputText := c.outputText + text)
  }

  lemma MoreTextIsGood(c: Core, text: string)
    requires Good(c) && c.textIndex >= 0
    ensures Good(MoreText(c, text))
  {
    hide ViewOf;
    forall i: nat ensures ViewOf(MoreText(c, text).events, i) == Expected(MoreText(c, text), i) {
      ViewSnoc(c.events, TextDelta(c.textIndex, text), i);
    }
  }

  function WithTool(c: Core, key: int, id: string, name: string): Core {
    Emit(c, ItemAdded(c.nextOutput, CallKind)).(
      tools := c.tools[key := Tool(id, name, "", c.nextOutput)], nextOutput := c.nextOutput + 1, slots := c.slots + [ToolSlot(key)])
  }

  lemma WithToolIsGood(c: Core, key: int, id: string, name: string)
    requires Good(c) && key !in c.tools
    ensures Good(WithTool(c, key, id, name))
  {
    hide ViewOf;
    var d := WithTool(c, key, id, name);
    forall i: nat ensures ViewOf(d.events, i) == Expected(d, i) { ViewSnoc(c.events, ItemAdded(c.nextOutput, CallKind), i); }
  }

  function WithArguments(c: Core, key: int, id: string, name: string, arguments: string): Core
    requires key in c.tools
  {
    var tool := c.tools[key];
    (if arguments == "" then c else Emit(c, ArgumentsDelta(tool.outputIndex, arguments))).(
      tools := c.tools[key := Tool(id, name, tool.arguments + arguments, tool.outputIndex)])
  }

  lemma WithArgumentsIsGood(c: Core, key: int, id: string, name: string, arguments: string)
    requires Good(c) && key in c.tools
    ensures Good(WithArguments(c, key, id, name, arguments))
  {
    hide ViewOf;
    var d := WithArguments(c, key, id, name, arguments);
    forall i: nat ensures ViewOf(d.events, i) == Expected(d, i) {
      if arguments != "" { ViewSnoc(c.events, ArgumentsDelta(c.tools[key].outputIndex, arguments), i); }
    }
  }

  /** The state of `TranslateStream` for a Responses client. */
  class Translator {
    const dialect: Dialect
    var tools: map<int, Tool>
    var nextOutput: nat
    var textIndex: int
    var outputText: string
    var started: bool
    var notes: Notes
    var events: seq<Emitted>
    ghost var slots: seq<Slot>

    ghost function State(): Core
      reads this
    {
      Core(tools, nextOutput, textIndex, outputText, events, slots)
    }

    /** The state stands for what the source has said so far. */
    ghost predicate Holds(s: Source)
      reads this
    {
      && outputText == s.text && notes == s.notes && tools.Keys == s.keys == s.arguments.Keys == s.names.Keys
      && (textIndex >= 0 <==> s.text != "")
      && forall k :: k in tools ==> tools[k].arguments == s.arguments[k] && tools[k].name == s.names[k]
    }

    ghost predicate Valid()
      reads this
    {
      && Good(State()) && (started <==> events != []) && (started ==> events[0] == Created)
      && |outputText| <= MAX_STREAM_BYTES && (forall k :: k in tools ==> |tools[k].arguments| <= MAX_STREAM_BYTES)
    }

    constructor (dialect: Dialect)
      ensures Valid() && events == [] && this.dialect == dialect && Holds(Source("", {}, map[], map[], NO_NOTES))
    {
      this.dialect := dialect;
      tools, nextOutput, textIndex, outputText, started := map[], 0, -1, "", false;
      notes := NO_NOTES;
      events, slots := [], [];
    }

    method EnsureStarted()
      requires Valid()
      modifies this`events, this`started
      ensures Valid() && started
    {
      hide Good;
      if started { return; }
      CreatedIsGood(State());
      events := events + [Created];
      started := true;
    }

    method StartText()
      requires Valid()
      modifies this`events, this`started, this`textIndex, this`nextOutput, this`slots
      ensures Valid() && started && textIndex >= 0
    {
      hide Good;
      if textIndex >= 0 {
        TextNeedsOutput();
        StartedIsKnown();
        return;
      }
      EnsureStarted();
      WithTextIsGood(State());
      events := events + [ItemAdded(nextOutput, MessageKind)];
      events := events + [PartAdded(nextOutput, 0)];
      textIndex, slots := nextOutput, slots + [TextSlot];
      nextOutput := nextOutput + 1;
    }

    /** An output index was given out only after the stream was announced. */
    lemma StartedIsKnown()
      requires Valid() && nextOutput > 0
      ensures started
    {
      assert ViewOf(events, 0) == Expected(State(), 0);
    }

    lemma TextNeedsOutput()
      requires Valid()
      ensures textIndex < nextOutput && forall k :: k in tools ==> tools[k].outputIndex < nextOutput
    {
    }

    method AddText(text: string) returns (ok: bool)
      requires Valid()
      modifies this
      ensures ok <==> |old(outputText)| + |text| <= MAX_STREAM_BYTES
      ensures ok ==> Valid() && outputText == old(outputText) + text && textIndex >= 0
      ensures notes == old(notes) && tools == old(tools)
    {
      hide Good;
      StartText();
      if |outputText| + |text| > MAX_STREAM_BYTES { return false; }
      MoreTextIsGood(State(), text);
      outputText := outputText + text;
      events := events + [TextDelta(textIndex, text)];
      return true;
    }

    /** A call seen for the first time gets the next output index. */
    method StartTool(item: ToolDelta)
      requires Valid() && item.key !in tools
      modifies this
      ensures Valid() && item.key in tools && tools == old(tools)[item.key := tools[item.key]]
      ensures tools[item.key].arguments == "" && tools[item.key].name == item.name
      ensures notes == old(notes) && outputText == old(outputText) && textIndex == old(textIndex)
    {
      hide Good;
      EnsureStarted();
      var id := if item.id == "" then "call_translated_" + Digits(item.key) else item.id;
      WithToolIsGood(State(), item.key, id, item.name);
      events := events + [ItemAdded(nextOutput, CallKind)];
      tools := tools[item.key := Tool(id, item.name, "", nextOutput)];
      slots, nextOutput := slots + [ToolSlot(item.key)], nextOutput + 1;
    }

    method AddTool(item: ToolDelta) returns (ok: bool)
      requires Valid()
      modifies this
      ensures ok <==> |ArgumentsIn(old(tools), item.key)| + |item.arguments| <= MAX_STREAM_BYTES
      ensures ok ==> Valid() && tools.Keys == old(tools.Keys) + {item.key}
      ensures ok ==> forall k :: k in tools ==>
                tools[k].arguments == ArgumentsIn(old(tools), k) + if k == item.key then item.arguments else ""
      ensures ok ==> forall k :: k in tools ==> tools[k].name == Latest(NameBefore(old(tools), k), if k == item.key then item.name else "")
      ensures notes == old(notes) && outputText == old(outputText) && textIndex == old(textIndex)
    {
      hide Good;
      if item.key !in tools { StartTool(item); }
      TextNeedsOutput();
      StartedIsKnown();
      var tool := tools[item.key];
      var id := if item.id != "" then item.id else tool.id;
      var name := if item.name != "" then item.name else tool.name;
      if |tool.arguments| + |item.arguments| > MAX_STREAM_BYTES { return false; }
      WithArgumentsIsGood(State(), item.key, id, name, item.arguments);
      tools := tools[item.key := Tool(id, name, tool.arguments + item.arguments, tool.outputIndex)];
      if item.arguments != "" { events := events + [ArgumentsDelta(tool.outputIndex, item.arguments)]; }
      return true;
    }

    /** The tool calls of one event. */
    method AddTools(items: seq<ToolDelta>) returns (ok: bool)
      requires Valid()
      modifies this
      ensures ok <==> ArgumentsFit(old(tools), items)
      ensures ok ==> Valid() && Extended(tools, old(tools), items)
      ensures notes == old(notes) && outputText == old(outputText) && textIndex == old(textIndex)
    {
      hide Good, Extended, ArgumentsFit;
      var n := 0;
      NothingExtended(tools);
      assert items[..0] == [];
      while n < |items|
        invariant 0 <= n <= |items| && Valid() && Extended(tools, old(tools), items[..n])
        invariant notes == old(notes) && outputText == old(outputText) && textIndex == old(textIndex)
      {
        ghost var now := tools;
        ok := AddTool(items[n]);
        if !ok {
          TooMany(now, old(tools), items, n);
          return false;
        }
        ExtendedByOne(now, tools, old(tools), items, n);
        n := n + 1;
      }
      assert items[..n] == items;
      ExtendedFits(tools, old(tools), items);
      return true;
    }

    /** `consume` on a decoded event. */
    method Consume(delta: Delta) returns (ok: bool)
      requires Valid()
      modifies this
      ensures ok <==> |old(outputText)| + |delta.text| <= MAX_STREAM_BYTES && ArgumentsFit(old(tools), delta.tools)
      ensures ok ==> Valid() && notes == NoteDelta(old(notes), delta, dialect) && Extended(tools, old(tools), delta.tools)
      ensures ok ==> outputText == old(outputText) + delta.text && (textIndex >= 0 <==> old(textIndex) >= 0 || delta.text != "")
    {
      hide Good, Extended, NoteDelta, ArgumentsFit;
      if delta.text != "" {
        ok := AddText(delta.text);
        if !ok { return false; }
      }
      ok := AddTools(delta.tools);
      if !ok { return false; }
      notes := NoteDelta(notes, delta, dialect);
      return true;
    }

    /** One frame of the source. */
    method Take(payload: Payload, ghost s: Source) returns (ok: bool)
      requires Valid() && Holds(s)
      modifies this
      ensures ok <==> !payload.Undecodable? && Within(ReadOne(s, payload, dialect))
      ensures ok ==> Valid() && Holds(ReadOne(s, payload, dialect))
    {
      hide Good, NoteDelta, PiecesOf, NameIn, KeysOf, Extended, ArgumentsFit;
      ghost var before := tools;
      if payload.Event? { ReadFits(before, s, payload.delta, dialect); }
      match payload {
        case Marker => notes := notes.(completed := true); ok := true;
        case Undecodable => ok := false;
        case Event(delta) =>
          ok := Consume(delta);
          if ok { ReadExtends(tools, before, s, delta, dialect); }
      }
    }

    method Emit(e: Emitted)
      modifies this`events
      ensures events == old(events) + [e]
      ensures forall i: nat :: ViewOf(events, i) == See(old(ViewOf(events, i)), e, i)
    {
      forall i: nat ensures ViewOf(events + [e], i) == See(ViewOf(events, i), e, i) { ViewSnoc(events, e, i); }
      events := events + [e];
    }

    /** The loop that completes empty arguments to an empty object and rejects arguments that are not JSON. */
    method FillArguments(iteration: seq<int>, validJson: string -> bool) returns (ok: bool)
      requires Enumerates(iteration, tools.Keys)
      modifies this`tools
      ensures ok <==> forall k :: k in old(tools) ==> validJson(Filled(old(tools))[k].arguments)
      ensures ok ==> tools == Filled(old(tools))
    {
      hide Filled;
      ghost var before, filled := tools, Filled(tools);
      FilledKeys(before);
      forall i | 0 <= i < |iteration| ensures iteration[i] in tools.Keys { EnumeratedAt(iteration, tools.Keys, i); }
      var n := 0;
      while n < |iteration|
        invariant 0 <= n <= |iteration| && tools.Keys == before.Keys
        invariant forall i :: 0 <= i < n ==> iteration[i] in tools && tools[iteration[i]] == filled[iteration[i]] && validJson(filled[iteration[i]].arguments)
        invariant forall i :: n <= i < |iteration| ==> iteration[i] in tools && tools[iteration[i]] == before[iteration[i]]
      {
        var k := iteration[n];
        FilledAt(before, k);
        if tools[k].arguments == "" { tools := tools[k := tools[k].(arguments := "{}")]; }
        assert tools[k] == filled[k];
        if !validJson(tools[k].arguments) { return false; }
        n := n + 1;
      }
      forall k | k in tools ensures tools[k] == filled[k] && validJson(filled[k].arguments) { assert k in iteration; }
      return true;
    }

    /** A refusal is opened, told and closed as one part of the message. */
    method EmitRefusal(index: nat, part: nat)
      modifies this`events
      ensures old(events) <= events
      ensures forall i: nat :: ViewOf(events, i)
                                 == if i == index then WithRefusal(old(ViewOf(events, i)), notes.refusal) else old(ViewOf(events, i))
    {
      hide ViewOf;
      Emit(PartAdded(index, part));
      Emit(RefusalDelta(index, part, notes.refusal));
      Emit(RefusalDone(index, part, notes.refusal));
    }

    /** The message part of `finishTranslatedStream`. */
    method FinishMessage(ghost c: Core, messageIndex: int) returns (message: Option<OutputItem>)
      requires Good(c) && c.events == events && c.textIndex == textIndex && c.outputText == outputText && c.nextOutput == nextOutput
      requires messageIndex == if notes.refusal != "" && textIndex < 0 then nextOutput else textIndex
      modifies this`events
      ensures message == MessageOf(c, notes.refusal)
      ensures old(events) <= events
      ensures forall i: nat :: ViewOf(events, i) == Closing(c, map[], notes.refusal, {}, i)
    {
      hide ViewOf;
      if notes.refusal != "" && textIndex < 0 { Emit(ItemAdded(messageIndex, MessageKind)); }
      if textIndex >= 0 { Emit(TextDone(textIndex, outputText)); }
      if notes.refusal != "" {
        var part := if textIndex >= 0 then 1 else 0;
        EmitRefusal(messageIndex, part);
      }
      if textIndex < 0 && notes.refusal == "" { return None; }
      var item := Message(if textIndex >= 0 then Some(outputText) else None, if notes.refusal != "" then Some(notes.refusal) else None);
      Emit(ItemDone(messageIndex, item));
      return Some(item);
    }

    /** The tool part: every call is closed once, in any order, and stands under its own index. */
    method FinishTools(ghost c: Core, ordered: seq<int>, before: map<int, OutputItem>) returns (byIndex: map<int, OutputItem>)
      requires Owned(c) && c.tools.Keys == tools.Keys && DistinctIndices(tools)
      requires forall k :: k in tools ==> tools[k].outputIndex == c.tools[k].outputIndex
      requires Increasing(ordered) && forall k :: k in ordered <==> k in tools
      requires forall i: nat :: ViewOf(events, i) == Closing(c, map[], notes.refusal, {}, i)
      modifies this`events
      ensures old(events) <= events
      ensures forall i: nat :: ViewOf(events, i) == Closing(c, tools, notes.refusal, tools.Keys, i)
      ensures Collected(byIndex, before, tools, tools.Keys)
    {
      hide ViewOf, Closing, Collected;
      byIndex := before;
      ghost var done: set<int> := {};
      var n := 0;
      NoneClosed(c, tools, notes.refusal);
      NoneCollected(before, tools);
      while n < |ordered|
        invariant 0 <= n <= |ordered| && old(events) <= events
        invariant forall k :: k in done <==> k in ordered[..n]
        invariant forall i: nat :: ViewOf(events, i) == Closing(c, tools, notes.refusal, done, i)
        invariant Collected(byIndex, before, tools, done)
      {
        var k := ordered[n];
        assert k in ordered;
        NotBefore(ordered, n);
        assert ordered[..n + 1] == ordered[..n] + [k];
        var tool := tools[k];
        CallCloses(c, tools, notes.refusal, done, k);
        Emit(ArgumentsDone(tool.outputIndex, tool.arguments));
        Emit(ItemDone(tool.outputIndex, CallOf(tool)));
        CollectOne(byIndex, before, tools, done, k);
        byIndex := byIndex[tool.outputIndex := CallOf(tool)];
        done := done + {k};
        n := n + 1;
      }
      assert ordered[..n] == ordered;
      assert forall k :: k in done <==> k in tools;
      assert done == tools.Keys;
    }

    /** The frames of the source, up to the first that cannot be translated. */
    method Read(payloads: seq<Payload>) returns (ok: bool)
      requires Valid() && Holds(ReadAll([], dialect))
      modifies this
      ensures ok <==> Undecodable !in payloads && Within(ReadAll(payloads, dialect))
      ensures ok ==> Valid() && Holds(ReadAll(payloads, dialect))
    {
      hide Valid, Holds, ReadAll, ReadOne, Within;
      NothingRead(dialect);
      var n := 0;
      assert payloads[..0] == [];
      while n < |payloads|
        invariant 0 <= n <= |payloads| && Valid() && Holds(ReadAll(payloads[..n], dialect)) && Undecodable !in payloads[..n]
        invariant Within(ReadAll(payloads[..n], dialect))
      {
        ReadNext(payloads, n, dialect);
        assert payloads[..n + 1] == payloads[..n] + [payloads[n]];
        ok := Take(payloads[n], ReadAll(payloads[..n], dialect));
        if !ok {
          if Within(ReadAll(payloads, dialect)) { PrefixIsWithin(payloads, n + 1, dialect); }
          return false;
        }
        n := n + 1;
      }
      assert payloads[..n] == payloads;
      return true;
    }

    /** Where a refusal without text goes: after every tool call. */
    method AfterTools(ordered: seq<int>) returns (index: nat)
      requires Owned(State()) && textIndex < 0 && forall k :: k in ordered <==> k in tools
      ensures index == nextOutput
    {
      index := 0;
      var n := 0;
      while n < |ordered|
        invariant 0 <= n <= |ordered| && index <= nextOutput
        invariant forall k :: k in ordered[..n] ==> tools[k].outputIndex < index
      {
        var k := ordered[n];
        assert k in ordered;
        assert ordered[..n + 1] == ordered[..n] + [k];
        if tools[k].outputIndex >= index { index := tools[k].outputIndex + 1; }
        n := n + 1;
      }
      assert ordered[..n] == ordered;
      assert forall i :: 0 <= i < nextOutput ==> slots[i].key in ordered && i < index;
      if nextOutput > 0 { assert slots[nextOutput - 1].key in ordered; }
    }

    /** The end of `TranslateStream` and `finishTranslatedStream`: on success the client has seen a well-formed stream. */
    method Finish(iteration: seq<int>, validJson: string -> bool) returns (ok: bool, output: seq<OutputItem>)
      requires Valid() && Enumerates(iteration, tools.Keys)
      modifies this
      ensures ok <==> old(notes).completed && !old(notes).invalidUsage && old(notes).terminalUsage
                      && (forall k :: k in old(tools) ==> validJson(Filled(old(tools))[k].arguments))
                      && old(notes).input.Some? && old(notes).output.Some?
      ensures ok ==> WellFormed(events, output)
      ensures ok ==> Reports(events, old(notes).input.value, old(notes).output.value)
      ensures ok ==> |output| == old(nextOutput) + if old(notes).refusal != "" && old(textIndex) < 0 then 1 else 0
      ensures ok ==> Lists(old(State()), old(notes).refusal, output)
    {
      hide ViewOf, Good, Closing, Collected, Owned;
      output := [];
      if !notes.completed || notes.invalidUsage || !notes.terminalUsage { return false, []; }
      ghost var before := tools;
      ok := FillArguments(iteration, validJson);
      if !ok { return false, []; }
      if notes.input.None? || notes.output.None? { return false, []; }
      ghost var c := Core(before, nextOutput, textIndex, outputText, events, slots);
      if !started {
        CreatedIsGood(c);
        events := events + [Created];
        started := true;
        c := c.(events := events);
      }
      output := Close(c, iteration);
      ListsApartFromEvents(c, old(State()), notes.refusal, output);
      return true, output;
    }

    /** `finishTranslatedStream` for a Responses client, once the arguments are filled in. */
    method Close(ghost c: Core, iteration: seq<int>) returns (output: seq<OutputItem>)
      requires Good(c) && c == State().(tools := c.tools) && tools == Filled(c.tools) && Enumerates(iteration, tools.Keys)
      requires events != [] && events[0] == Created && notes.input.Some? && notes.output.Some?
      modifies this`events
      ensures WellFormed(events, output) && Reports(events, notes.input.value, notes.output.value)
      ensures |output| == nextOutput + if notes.refusal != "" && textIndex < 0 then 1 else 0
      ensures Lists(c, notes.refusal, output)
    {
      hide ViewOf, Good, Closing, Collected, Owned, WellFormed;
      FilledTools(c);
      var ordered := OrderedKeys(tools, iteration);
      var messageIndex := textIndex;
      if notes.refusal != "" && textIndex < 0 { messageIndex := AfterTools(ordered); }
      var message := FinishMessage(c, messageIndex);
      var first := if message.Some? then map[messageIndex := message.value] else map[];
      var byIndex := FinishTools(c, ordered, first);
      TextIndexIsSmall(c);
      CollectedIsFull(c, tools, first, byIndex, notes.refusal);
      output := CollectOutput(byIndex, nextOutput + if notes.refusal != "" && textIndex < 0 then 1 else 0);
      ClosedIsWellFormed(c, tools, notes.refusal, events, byIndex, output, notes.input.value, notes.output.value);
      events := events + [ResponseCompleted(output, notes.input.value, notes.output.value)];
    }
  }

  /** The output has every call under its index, and the message under its own. */
  ghost predicate Lists(c: Core, refusal: string, output: seq<OutputItem>) {
    && (forall k :: k in c.tools ==> c.tools[k].outputIndex < |output| && output[c.tools[k].outputIndex] == CallOf(Filled(c.tools)[k]))
    && (MessageOf(c, refusal).Some? ==>
          0 <= MessageIndex(c, refusal) < |output| && output[MessageIndex(c, refusal)] == MessageOf(c, refusal).value)
  }

  lemma ListsApartFromEvents(c: Core, d: Core, refusal: string, output: seq<OutputItem>)
    requires Lists(c, refusal, output) && d == c.(events := d.events)
    ensures Lists(d, refusal, output)
  {
  }

  lemma SlotIsNew(c: Core, n: nat)
    requires Owned(c) && n < c.nextOutput
    ensures c.slots[n].TextSlot? <==> n == c.textIndex
    ensures c.slots[n].ToolSlot? ==> forall i :: 0 <= i < n && c.slots[i].ToolSlot? ==> c.slots[i].key != c.slots[n].key
  {
  }

  /** Every output index belongs to one call or to the message. */
  lemma {:induction false} SlotsCount(c: Core, n: nat)
    requires Owned(c) && n <= c.nextOutput
    ensures |set i | 0 <= i < n && c.slots[i].ToolSlot? :: c.slots[i].key| == n - if 0 <= c.textIndex < n then 1 else 0
  {
    var keys := set i | 0 <= i < n && c.slots[i].ToolSlot? :: c.slots[i].key;
    if n == 0 {
      assert keys == {};
    } else {
      SlotsCount(c, n - 1);
      SlotIsNew(c, n - 1);
      hide Owned;
      var before := set i | 0 <= i < n - 1 && c.slots[i].ToolSlot? :: c.slots[i].key;
      if c.slots[n - 1].ToolSlot? {
        assert keys == before + {c.slots[n - 1].key};
      } else {
        assert keys == before;
      }
    }
  }

  lemma OutputCount(c: Core)
    requires Owned(c)
    ensures c.nextOutput == |c.tools.Keys| + if c.textIndex >= 0 then 1 else 0
  {
    SlotsCount(c, c.nextOutput);
    var keys := set i | 0 <= i < c.nextOutput && c.slots[i].ToolSlot? :: c.slots[i].key;
    forall k | k in c.tools ensures k in keys {
      var i := c.tools[k].outputIndex;
      assert 0 <= i < c.nextOutput && c.slots[i].ToolSlot? && c.slots[i].key == k;
    }
    assert c.tools.Keys == keys;
  }

  function FilledArguments(arguments: string): string { if arguments == "" then "{}" else arguments }

  function SourceMessage(s: Source): OutputItem {
    Message(if s.text != "" then Some(s.text) else None, if s.notes.refusal != "" then Some(s.notes.refusal) else None)
  }

  ghost predicate Taken(places: map<int, nat>, i: int) { exists k :: k in places && places[k] == i }

  /** At this place stands the call with its name and its whole arguments. */
  predicate StandsAt(s: Source, output: seq<OutputItem>, k: int, at: nat)
    requires k in s.names && k in s.arguments
  {
    at < |output| && output[at].Call? && output[at].name == s.names[k] && output[at].arguments == FilledArguments(s.arguments[k])
  }

  /** Each call of the source stands at a place of its own with its name and its whole arguments, and every other place is the message. */
  ghost predicate Places(s: Source, output: seq<OutputItem>, places: map<int, nat>) {
    && places.Keys == s.keys == s.arguments.Keys == s.names.Keys
    && (forall j, k :: j in places && k in places && j != k ==> places[j] != places[k])
    && (forall k :: k in places ==> StandsAt(s, output, k, places[k]))
    && (forall i :: 0 <= i < |output| && !Taken(places, i) ==> output[i] == SourceMessage(s))
  }

  /** What the closed items are, in terms of what the source said: its calls, and the message exactly if it said any text
      or refusal. */
  ghost predicate Delivers(s: Source, output: seq<OutputItem>) {
    && |output| == |s.keys| + (if s.text != "" || s.notes.refusal != "" then 1 else 0)
    && exists places :: Places(s, output, places)
  }

  function PlacesOf(c: Core): map<int, nat> { map k | k in c.tools :: c.tools[k].outputIndex }

  /** The places of the calls are all different, and leave no index but that of the message. */
  lemma PlacesFill(c: Core, refusal: string, n: nat)
    requires Owned(c) && n == c.nextOutput + if refusal != "" && c.textIndex < 0 then 1 else 0
    ensures forall j, k :: j in c.tools && k in c.tools && j != k ==> PlacesOf(c)[j] != PlacesOf(c)[k]
    ensures forall i :: 0 <= i < n && !Taken(PlacesOf(c), i) ==> MessageOf(c, refusal).Some? && i == MessageIndex(c, refusal)
  {
    var places := PlacesOf(c);
    forall i | 0 <= i < c.nextOutput && c.slots[i].ToolSlot? ensures Taken(places, i) { assert places[c.slots[i].key] == i; }
  }

  lemma ListedCall(c: Core, s: Source, output: seq<OutputItem>, k: int)
    requires Lists(c, s.notes.refusal, output) && k in c.tools && k in s.names && k in s.arguments
    requires c.tools[k].arguments == s.arguments[k] && c.tools[k].name == s.names[k]
    ensures StandsAt(s, output, k, PlacesOf(c)[k])
  {
    FilledAt(c.tools, k);
  }

  lemma ListedMessage(c: Core, s: Source, output: seq<OutputItem>, i: nat)
    requires Lists(c, s.notes.refusal, output) && c.outputText == s.text && (c.textIndex >= 0 <==> s.text != "")
    requires MessageOf(c, s.notes.refusal).Some? && i == MessageIndex(c, s.notes.refusal)
    ensures i < |output| && output[i] == SourceMessage(s)
  {
  }

  lemma ListedIsDelivered(c: Core, s: Source, output: seq<OutputItem>)
    requires Owned(c) && Lists(c, s.notes.refusal, output) && c.outputText == s.text && (c.textIndex >= 0 <==> s.text != "")
    requires c.tools.Keys == s.keys == s.arguments.Keys == s.names.Keys
    requires forall k :: k in c.tools ==> c.tools[k].arguments == s.arguments[k] && c.tools[k].name == s.names[k]
    requires |output| == c.nextOutput + if s.notes.refusal != "" && c.textIndex < 0 then 1 else 0
    ensures Delivers(s, output)
  {
    hide Owned, Lists, MessageOf, MessageIndex, SourceMessage, FilledArguments, Taken, StandsAt;
    var places := PlacesOf(c);
    OutputCount(c);
    PlacesFill(c, s.notes.refusal, |output|);
    forall i: nat | i < |output| && !Taken(places, i) ensures output[i] == SourceMessage(s) { ListedMessage(c, s, output, i); }
    forall k | k in places ensures StandsAt(s, output, k, places[k]) { ListedCall(c, s, output, k); }
    assert Places(s, output, places);
  }

  /** The source says all that a stream has to: it ends, with known usage, and its calls have arguments that are JSON. */
  predicate Complete(s: Source, validJson: string -> bool) {
    && s.notes.completed && !s.notes.invalidUsage && s.notes.terminalUsage && s.notes.input.Some? && s.notes.output.Some?
    && forall k :: k in s.arguments ==> validJson(FilledArguments(s.arguments[k]))
  }

  /** `TranslateStream` for a Responses client, from the frames of the source to the last event. It succeeds if and only if
      every frame can be decoded, what the source says stays within the limits, and it is complete. Then the stream is
      well-formed and ends with the token counts of the source, and its items are the source's text and refusal, whole, and
      one call with the name and the whole arguments for each of its calls, nothing else. `order` is the order in which a loop over the calls
      happens to visit them. */
  method TranslateStream(dialect: Dialect, payloads: seq<Payload>, order: set<int> -> seq<int>, validJson: string -> bool)
    returns (ok: bool, events: seq<Emitted>, output: seq<OutputItem>)
    requires forall keys :: Enumerates(order(keys), keys)
    ensures ok <==> var s := ReadAll(payloads, dialect); Undecodable !in payloads && Within(s) && Complete(s, validJson)
    ensures ok ==> WellFormed(events, output) && Delivers(ReadAll(payloads, dialect), output)
    ensures ok ==> var n := ReadAll(payloads, dialect).notes; Reports(events, n.input.value, n.output.value)
  {
    hide Good, WellFormed, Reports, ReadAll, Delivers, Lists, Within;
    var translator := new Translator(dialect);
    EmptySource(dialect);
    ok := translator.Read(payloads);
    if !ok { return false, translator.events, []; }
    ghost var c, s := translator.State(), ReadAll(payloads, dialect);
    GoodIsOwned(c);
    FilledSource(translator.tools, s, validJson);
    ok, output := translator.Finish(order(translator.tools.Keys), validJson);
    if ok { ListedIsDelivered(c, s, output); }
    events := translator.events;
  }

  lemma FilledSource(tools: map<int, Tool>, s: Source, validJson: string -> bool)
    requires tools.Keys == s.arguments.Keys && forall k :: k in tools ==> tools[k].arguments == s.arguments[k]
    ensures (forall k :: k in tools ==> validJson(Filled(tools)[k].arguments))
            <==> (forall k :: k in s.arguments ==> validJson(FilledArguments(s.arguments[k])))
  {
    hide Filled;
    forall k | k in tools ensures k in Filled(tools) && Filled(tools)[k].arguments == FilledArguments(s.arguments[k]) { FilledAt(tools, k); }
  }

  lemma GoodIsOwned(c: Core)
    requires Good(c)
    ensures Owned(c)
  {
  }

  lemma EmptySource(dialect: Dialect)
    ensures ReadAll([], dialect) == Source("", {}, map[], map[], NO_NOTES)
  {
  }

  lemma TextIndexIsSmall(c: Core)
    requires Owned(c)
    ensures -1 <= c.textIndex < c.nextOutput
  {
  }

  /** The loop that collects the output by counting indices up: it ends because the indices have no gap. */
  method CollectOutput(byIndex: map<int, OutputItem>, n: nat) returns (output: seq<OutputItem>)
    requires forall i :: i in byIndex <==> 0 <= i < n
    ensures |output| == n && forall i :: 0 <= i < n ==> output[i] == byIndex[i]
  {
    KeysBelow(byIndex.Keys, n);
    output := [];
    var index := 0;
    while |output| < |byIndex|
      invariant 0 <= index == |output| <= n && forall i :: 0 <= i < index ==> output[i] == byIndex[i]
      decreases |byIndex| - index
    {
      if index in byIndex { output := output + [byIndex[index]]; }
      index := index + 1;
    }
  }

  lemma {:induction false} KeysBelow(keys: set<int>, n: nat)
    requires forall i :: i in keys <==> 0 <= i < n
    ensures |keys| == n
  {
    if n == 0 {
      var none: set<int> := {};
      assert forall i :: i in keys <==> i in none;
      assert keys == none;
    } else {
      KeysBelow(keys - {n - 1}, n - 1);
    }
  }

  // ------------------------------------------------------------- well-formed

  /** The deltas of an item add up to what the closing events of its parts say, which is what its own end says; a call
      without arguments ends with an empty object. */
  predicate Delivered(v: View, item: OutputItem) {
    match item
    case Message(text, refusal) =>
      v.kind == Some(MessageKind) && v.text == (if text.Some? then text.value else "")
      && v.refusal == (if refusal.Some? then refusal.value else "") && v.arguments == ""
      && v.ends == Ends(text, refusal, None)
    case Call(_, _, arguments) =>
      v.kind == Some(CallKind) && v.text == "" && v.refusal == "" && (v.arguments == arguments || (v.arguments == "" && arguments == "{}"))
      && v.ends == Ends(None, None, Some(arguments))
  }

  /** A complete Responses stream: it is announced, every index from 0 to n-1 is opened once, then carries its deltas,
      then is closed once, nothing else is, and the final event lists the closed items in index order. */
  ghost predicate WellFormed(events: seq<Emitted>, output: seq<OutputItem>) {
    && |events| >= 2 && events[0] == Created && events[|events| - 1].ResponseCompleted? && events[|events| - 1].output == output
    && (forall i: nat :: i < |output| ==>
          var v := ViewOf(events, i);
          v.added == 1 && v.done == 1 && v.inOrder && v.item == Some(output[i]) && Delivered(v, output[i]))
    && (forall i: nat :: i >= |output| ==> ViewOf(events, i) == UNSEEN)
  }

  /** The final event reports these token counts. */
  predicate Reports(events: seq<Emitted>, input: int, output: int) {
    events != [] && var last := events[|events| - 1]; last.ResponseCompleted? && last.inputTokens == input && last.outputTokens == output
  }

  lemma NotBefore(ordered: seq<int>, n: nat)
    requires n < |ordered| && Increasing(ordered)
    ensures ordered[n] !in ordered[..n]
  {
  }

  predicate DistinctIndices(tools: map<int, Tool>) {
    forall j, k :: j in tools && k in tools && j != k ==> tools[j].outputIndex != tools[k].outputIndex
  }

  /** The output collected by index: what was there before and the calls in `done`. */
  ghost predicate Collected(byIndex: map<int, OutputItem>, before: map<int, OutputItem>, tools: map<int, Tool>, done: set<int>) {
    && (forall i :: i in byIndex ==> i in before || exists k :: k in done && k in tools && tools[k].outputIndex == i)
    && (forall k :: k in done && k in tools ==> tools[k].outputIndex in byIndex && byIndex[tools[k].outputIndex] == CallOf(tools[k]))
    && (forall i :: i in before && (forall k :: k in tools ==> tools[k].outputIndex != i) ==> i in byIndex && byIndex[i] == before[i])
  }

  lemma NoneCollected(before: map<int, OutputItem>, tools: map<int, Tool>)
    ensures Collected(before, before, tools, {})
  {
  }

  lemma CollectOne(byIndex: map<int, OutputItem>, before: map<int, OutputItem>, tools: map<int, Tool>, done: set<int>, k: int)
    requires Collected(byIndex, before, tools, done) && k in tools && DistinctIndices(tools)
    ensures Collected(byIndex[tools[k].outputIndex := CallOf(tools[k])], before, tools, done + {k})
  {
    var after := byIndex[tools[k].outputIndex := CallOf(tools[k])];
    forall i | i in after ensures i in before || exists j :: j in done + {k} && j in tools && tools[j].outputIndex == i {
      if i in byIndex && i !in before {
        var j :| j in done && j in tools && tools[j].outputIndex == i;
        assert j in done + {k};
      } else if i !in byIndex {
        assert k in done + {k} && tools[k].outputIndex == i;
      }
    }
  }

  lemma NoneClosed(c: Core, tools: map<int, Tool>, refusal: string)
    requires Owned(c)
    ensures forall i: nat :: Closing(c, tools, refusal, {}, i) == Closing(c, map[], refusal, {}, i)
  {
  }

  function Filled(tools: map<int, Tool>): map<int, Tool> {
    map k | k in tools :: tools[k].(arguments := if tools[k].arguments == "" then "{}" else tools[k].arguments)
  }

  lemma FilledAt(tools: map<int, Tool>, k: int)
    requires k in tools
    ensures k in Filled(tools) && Filled(tools)[k] == tools[k].(arguments := if tools[k].arguments == "" then "{}" else tools[k].arguments)
  {
  }

  lemma FilledKeys(tools: map<int, Tool>)
    ensures Filled(tools).Keys == tools.Keys
  {
  }

  function CallOf(tool: Tool): OutputItem { Call(tool.id, tool.name, tool.arguments) }

  function MessageOf(c: Core, refusal: string): Option<OutputItem> {
    if c.textIndex < 0 && refusal == "" then None
    else Some(Message(if c.textIndex >= 0 then Some(c.outputText) else None, if refusal != "" then Some(refusal) else None))
  }

  function MessageEnds(c: Core, refusal: string): Ends {
    Ends(if c.textIndex >= 0 then Some(c.outputText) else None, if refusal != "" then Some(refusal) else None, None)
  }

  /** Where the message stands in the final output; -1 without one. */
  function MessageIndex(c: Core, refusal: string): int {
    if c.textIndex >= 0 then c.textIndex else if refusal != "" then c.nextOutput else -1
  }

  /** What the client must have seen of index `i` once the message and the calls in `done` are closed. */
  function Closing(c: Core, filled: map<int, Tool>, refusal: string, done: set<int>, i: nat): View
    requires |c.slots| == c.nextOutput && forall j :: 0 <= j < c.nextOutput && c.slots[j].ToolSlot? ==> c.slots[j].key in c.tools
  {
    if i == MessageIndex(c, refusal) then UNSEEN.(added := 1, kind := Some(MessageKind), done := 1, text := c.outputText,
                                                                refusal := refusal, ends := MessageEnds(c, refusal),
                                                                item := MessageOf(c, refusal))
    else if i < c.nextOutput && c.slots[i].ToolSlot? && c.slots[i].key in done && c.slots[i].key in filled
    then Expected(c, i).(done := 1, ends := Ends(None, None, Some(filled[c.slots[i].key].arguments)), item := Some(CallOf(filled[c.slots[i].key])))
    else Expected(c, i)
  }

  /** Closing one more call changes the view of its index only. */
  lemma CallCloses(c: Core, filled: map<int, Tool>, refusal: string, done: set<int>, k: int)
    requires Owned(c) && filled.Keys == c.tools.Keys && k in filled && k !in done
    requires forall j :: j in filled ==> filled[j].outputIndex == c.tools[j].outputIndex
    ensures var tool := filled[k];
            forall i: nat ::
              See(See(Closing(c, filled, refusal, done, i), ArgumentsDone(tool.outputIndex, tool.arguments), i), ItemDone(tool.outputIndex, CallOf(tool)), i)
              == Closing(c, filled, refusal, done + {k}, i)
  {
  }

  lemma FilledTools(c: Core)
    requires Good(c)
    ensures Owned(c) && DistinctIndices(Filled(c.tools)) && Filled(c.tools).Keys == c.tools.Keys
    ensures forall k :: k in c.tools ==> Filled(c.tools)[k].outputIndex == c.tools[k].outputIndex
    ensures Owned(c.(tools := Filled(c.tools)))
  {
    hide ViewOf;
  }

  /** The message and the calls together occupy every index exactly up to the count. */
  lemma CollectedIsFull(c: Core, tools: map<int, Tool>, first: map<int, OutputItem>, byIndex: map<int, OutputItem>, refusal: string)
    requires Owned(c) && tools == Filled(c.tools) && Collected(byIndex, first, tools, tools.Keys)
    requires first == if MessageOf(c, refusal).Some? then map[MessageIndex(c, refusal) := MessageOf(c, refusal).value] else map[]
    ensures var n := c.nextOutput + if refusal != "" && c.textIndex < 0 then 1 else 0;
            (forall i :: i in byIndex <==> 0 <= i < n)
            && (MessageOf(c, refusal).Some? ==> byIndex[MessageIndex(c, refusal)] == MessageOf(c, refusal).value)
            && (forall k :: k in tools ==> tools[k].outputIndex in byIndex && byIndex[tools[k].outputIndex] == CallOf(tools[k]))
  {
    var m := MessageIndex(c, refusal);
    assert forall k :: k in tools ==> tools[k].outputIndex != m;
    forall i | 0 <= i < c.nextOutput ensures i in byIndex {
      if c.slots[i].ToolSlot? { assert tools[c.slots[i].key].outputIndex == i; } else { assert i == m && i in first; }
    }
  }

  lemma ClosedIsWellFormed(c: Core, tools: map<int, Tool>, refusal: string, events: seq<Emitted>, byIndex: map<int, OutputItem>, output: seq<OutputItem>,
                           input: int, count: int)
    requires Owned(c) && tools == Filled(c.tools) && events != [] && events[0] == Created
    requires forall i: nat :: ViewOf(events, i) == Closing(c, tools, refusal, tools.Keys, i)
    requires |output| == c.nextOutput + if refusal != "" && c.textIndex < 0 then 1 else 0
    requires forall i :: i in byIndex <==> 0 <= i < |output|
    requires forall i :: 0 <= i < |output| ==> output[i] == byIndex[i]
    requires MessageOf(c, refusal).Some? ==> byIndex[MessageIndex(c, refusal)] == MessageOf(c, refusal).value
    requires forall k :: k in tools ==> tools[k].outputIndex in byIndex && byIndex[tools[k].outputIndex] == CallOf(tools[k])
    ensures var all := events + [ResponseCompleted(output, input, count)]; WellFormed(all, output) && Reports(all, input, count)
  {
    hide ViewOf;
    var completed := ResponseCompleted(output, input, count);
    var all := events + [completed];
    forall i: nat ensures ViewOf(all, i) == ViewOf(events, i) { ViewSnoc(events, completed, i); }
    hide Owned, Closing, Delivered;
    assert all[|events|] == completed && all[0] == Created;
    forall i: nat | i < |output|
      ensures var v := ViewOf(all, i);
              v.added == 1 && v.done == 1 && v.inOrder && v.item == Some(output[i]) && Delivered(v, output[i])
    {
      if i == MessageIndex(c, refusal) { ClosedMessage(c, refusal, i); } else { ClosedCall(c, refusal, i); }
    }
    forall i: nat | i >= |output| ensures ViewOf(all, i) == UNSEEN { ClosedNothing(c, refusal, i); }
  }

  lemma ClosedMessage(c: Core, refusal: string, i: nat)
    requires Owned(c) && i == MessageIndex(c, refusal)
    ensures var v := Closing(c, Filled(c.tools), refusal, Filled(c.tools).Keys, i);
            MessageOf(c, refusal).Some? && v.added == 1 && v.done == 1 && v.inOrder && v.item == MessageOf(c, refusal)
            && Delivered(v, MessageOf(c, refusal).value)
  {
  }

  lemma ClosedCall(c: Core, refusal: string, i: nat)
    requires Owned(c) && i < c.nextOutput && i != MessageIndex(c, refusal)
    ensures var v, tools := Closing(c, Filled(c.tools), refusal, Filled(c.tools).Keys, i), Filled(c.tools);
            c.slots[i].ToolSlot? && c.slots[i].key in tools && var tool := tools[c.slots[i].key];
            && tool.outputIndex == i && v.added == 1 && v.done == 1 && v.inOrder && v.item == Some(CallOf(tool))
            && Delivered(v, CallOf(tool))
  {
  }

  lemma ClosedNothing(c: Core, refusal: string, i: nat)
    requires Owned(c) && i >= c.nextOutput + if refusal != "" && c.textIndex < 0 then 1 else 0
    ensures Closing(c, Filled(c.tools), refusal, Filled(c.tools).Keys, i) == UNSEEN
  {
  }
}
