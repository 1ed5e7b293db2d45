/** Building the files of a finalized OpenAI Batch and the results of an ended Message Batch, as text. */
module BatchFiles {
  import opened BatchLines
  import opened BatchMachine
  import opened Common
  import opened BatchSafety
  import opened BatchRuns
  import opened BatchTheorems
  import opened BatchUsage
  import opened LineReading

  // -------------------------------------------------------------- JSON lines

  /** Lines separated by single line breaks. */
  function Join(lines: seq<string>): string {
    if lines == [] then "" else if |lines| == 1 then lines[0] else Join(lines[..|lines| - 1]) + "\n" + lines[|lines| - 1]
  }

  /** `appendJSONL`. */
  function AppendJsonl(buffer: string, line: string): string {
    (if buffer == "" then "" else buffer + "\n") + line
  }

  function Texts(lines: seq<Line>): (r: seq<string>)
    ensures |r| == |lines|
  {
    seq(|lines|, i requires 0 <= i < |lines| => Render(lines[i]))
  }

  /** What a reader of the file does: cut the text at its line breaks. */
  function Split(text: string): (r: seq<string>)
    ensures r != []
  {
    if '\n' !in text then [text]
    else
      var k := FirstBreak(text);
      [text[..k]] + Split(text[k + 1..])
  }

  function FirstBreak(text: string): (k: nat)
    requires '\n' in text
    ensures k < |text| && text[k] == '\n' && forall j :: 0 <= j < k ==> text[j] != '\n'
  {
    if text[0] == '\n' then 0 else 1 + FirstBreak(text[1..])
  }

  lemma {:induction false} JoinAppend(lines: seq<string>, line: string)
    requires forall i :: 0 <= i < |lines| ==> lines[i] != ""
    ensures Join(lines + [line]) == AppendJsonl(Join(lines), line)
    ensures lines != [] ==> Join(lines) != ""
  {
    if lines == [] {
      assert lines + [line] == [line];
    } else {
      assert (lines + [line])[..|lines|] == lines;
      if |lines| > 1 { JoinAppend(lines[..|lines| - 1], lines[|lines| - 1]); }
    }
  }

  lemma FirstBreakAt(text: string, k: nat)
    requires k < |text| && text[k] == '\n' && forall j :: 0 <= j < k ==> text[j] != '\n'
    ensures '\n' in text && FirstBreak(text) == k
  {
    var j := FirstBreak(text);
    assert j == k;
  }

  lemma SplitAt(text: string, k: nat)
    requires k < |text| && text[k] == '\n' && forall j :: 0 <= j < k ==> text[j] != '\n'
    ensures Split(text) == [text[..k]] + Split(text[k + 1..])
  {
    hide FirstBreak;
    FirstBreakAt(text, k);
  }

  lemma SplitOne(line: string)
    requires '\n' !in line
    ensures Split(line) == [line]
  {
  }

  lemma {:induction false} SplitAppend(text: string, line: string)
    requires '\n' !in line
    ensures Split(text + "\n" + line) == Split(text) + [line]
    decreases |text|
  {
    hide FirstBreak, Split;
    var all := text + "\n" + line;
    if '\n' in text {
      var k := FirstBreak(text);
      SplitAt(all, k);
      SplitAt(text, k);
      SplitAppend(text[k + 1..], line);
      assert all[..k] == text[..k] && all[k + 1..] == text[k + 1..] + "\n" + line;
    } else {
      SplitAt(all, |text|);
      SplitOne(text);
      SplitOne(line);
      assert all[..|text|] == text && all[|text| + 1..] == line;
    }
  }

  /** Cutting a joined file at its breaks gives back the lines. */
  lemma {:induction false} SplitJoin(lines: seq<string>)
    requires lines != [] && forall i :: 0 <= i < |lines| ==> '\n' !in lines[i]
    ensures Split(Join(lines)) == lines
  {
    hide Split;
    var n := |lines|;
    if n == 1 {
      SplitOne(lines[0]);
    } else {
      SplitJoin(lines[..n - 1]);
      SplitAppend(Join(lines[..n - 1]), lines[n - 1]);
      assert lines == lines[..n - 1] + [lines[n - 1]];
    }
  }

  lemma {:induction false} JoinSize(lines: seq<Line>)
    ensures |Join(Texts(lines))| == JoinedSize(lines)
  {
    hide Render, Size;
    var n := |lines|;
    if n > 0 {
      JoinSize(lines[..n - 1]);
      assert Texts(lines)[..n - 1] == Texts(lines[..n - 1]);
      RenderIsOneLine(lines[n - 1]);
      TextSizeSnoc(lines[..n - 1], lines[n - 1]);
      assert lines == lines[..n - 1] + [lines[n - 1]];
    }
  }

  lemma {:induction false} TextSizeSnoc(lines: seq<Line>, line: Line)
    ensures TextSize(lines + [line]) == TextSize(lines) + Size(line)
  {
    hide Size;
    if lines == [] {
      assert lines + [line] == [line];
      assert TextSize([line]) == Size(line) + TextSize([line][1..]);
    } else {
      TextSizeSnoc(lines[1..], line);
      assert (lines + [line])[1..] == lines[1..] + [line];
    }
  }

  lemma TextsAppend(lines: seq<Line>, line: Line)
    ensures Texts(lines + [line]) == Texts(lines) + [Render(line)]
  {
  }

  /** A stored file reads back as its rendered lines. */
  lemma FileReadsBack(lines: seq<Line>)
    requires lines != []
    ensures Split(Join(Texts(lines))) == Texts(lines)
  {
    forall i | 0 <= i < |lines| ensures '\n' !in Texts(lines)[i] { RenderIsOneLine(lines[i]); }
    SplitJoin(Texts(lines));
  }

  predicate ReadsAs(text: string, line: Line) { ReadLine(text, line.OpenAI?) == Some(EntryOf(line)) }

  /** The lines cut from a file read back, one by one, as the lines that went into it. */
  lemma LinesReadBack(lines: seq<Line>)
    requires lines != []
    ensures var cut := Split(Join(Texts(lines)));
            |cut| == |lines| && forall i :: 0 <= i < |lines| ==> ReadsAs(cut[i], lines[i])
  {
    hide Render, ReadLine, EntryOf, Join, Split;
    FileReadsBack(lines);
    forall i | 0 <= i < |lines| ensures ReadsAs(Texts(lines)[i], lines[i]) { LineReadsBack(lines[i]); }
  }

  /** In the text of the file of its side, after the lines of the earlier items of that side, stands a line that reads
      as the line of the item. */
  ghost predicate StandsIn(items: seq<Item>, n: nat, text: string)
    requires n < |items|
  {
    items[n].line.Some? &&
    var at, cut := Before(items, n, items[n].state.Succeeded?), Split(text);
    at < |cut| && ReadsAs(cut[at], items[n].line.value)
  }

  lemma ItemStandsInFile(items: seq<Item>, n: nat)
    requires n < |items| && forall i :: 0 <= i < |items| ==> items[i].line.Some?
    ensures StandsIn(items, n, Join(Texts(LinesOf(items, items[n].state.Succeeded?))))
  {
    hide Split, Join, LinesOf, Before, Texts, ReadsAs;
    LineAt(items, n);
    LinesReadBack(LinesOf(items, items[n].state.Succeeded?));
  }

  // ------------------------------------------------------------ finalization

  datatype Finalization = Nothing | Refused | Written(batch: Batch, output: string, errors: string, known: bool, totals: Totals)

  lemma LinesOfSnoc(items: seq<Item>, item: Item, succeeded: bool)
    ensures LinesOf(items + [item], succeeded)
            == if item.state.Succeeded? == succeeded && item.line.Some? then LinesOf(items, succeeded) + [item.line.value]
               else LinesOf(items, succeeded)
  {
    LinesOfAppend(items, [item], succeeded);
    assert [item][1..] == [];
  }

  lemma {:induction false} CountFailedSnoc(items: seq<Item>, item: Item)
    ensures CountFailed(items + [item]) == CountFailed(items) + if item.state.Failed? || item.state.Interrupted? then 1 else 0
  {
    if items == [] {
      assert items + [item] == [item];
    } else {
      CountFailedSnoc(items[1..], item);
      assert (items + [item])[1..] == items[1..] + [item];
    }
  }

  /** The items that ended in one of the two states. */
  ghost function EndedIn(items: seq<Item>, a: ItemState, b: ItemState): set<nat> {
    set n: nat | n < |items| && (items[n].state == a || items[n].state == b)
  }

  lemma EndedInSnoc(items: seq<Item>, item: Item, a: ItemState, b: ItemState)
    ensures |EndedIn(items + [item], a, b)| == |EndedIn(items, a, b)| + if item.state == a || item.state == b then 1 else 0
  {
    var all, before := items + [item], EndedIn(items, a, b);
    assert |items| !in before;
    forall n: nat ensures n in EndedIn(all, a, b) <==> n in before || (n == |items| && (item.state == a || item.state == b)) {
      if n < |items| { assert all[n] == items[n]; }
    }
    SetsAgree(EndedIn(all, a, b), before, |items|, item.state == a || item.state == b);
  }

  lemma SetsAgree(all: set<nat>, before: set<nat>, n: nat, more: bool)
    requires n !in before && forall k: nat :: k in all <==> k in before || (k == n && more)
    ensures |all| == |before| + if more then 1 else 0
  {
    if more { assert all == before + {n}; } else { assert all == before; }
  }

  lemma {:induction false} CountsAreCardinalities(items: seq<Item>)
    requires forall n :: 0 <= n < |items| ==> items[n].line.Some?
    ensures CountFailed(items) == |EndedIn(items, Failed, Interrupted)|
    ensures |LinesOf(items, true)| == |EndedIn(items, Succeeded, Succeeded)|
  {
    hide CountFailed, LinesOf, EndedIn;
    if items == [] {
      NothingEnded();
    } else {
      var init, last := items[..|items| - 1], items[|items| - 1];
      assert items == init + [last];
      CountsAreCardinalities(init);
      CountFailedSnoc(init, last);
      LinesOfSnoc(init, last, true);
      EndedInSnoc(init, last, Failed, Interrupted);
      EndedInSnoc(init, last, Succeeded, Succeeded);
    }
  }

  lemma NothingEnded()
    ensures CountFailed([]) == 0 && LinesOf([], true) == []
    ensures EndedIn([], Failed, Interrupted) == {} && EndedIn([], Succeeded, Succeeded) == {}
  {
  }

  /** In every run a finalized OpenAI Batch is cancelled exactly when a cancel was requested, and expired exactly when
      none was and an item expired; request_completed and request_failed are the numbers of items that succeeded and of
      items that failed or were interrupted. No later step changes any of this. */
  lemma FinalStatusAndCounts(states: seq<System>, steps: seq<Step>, i: nat, j: nat, id: BatchId)
    requires Run(states, steps) && i < j < |states| && steps[i] == FinalizeBatch(id) && id in states[j].db
    ensures id in states[i].db && states[j].db[id].files.Some?
    ensures var b, c := states[i].db[id], states[j].db[id];
            && (c.status.Cancelled? <==> b.cancelRequested)
            && (c.status.ExpiredBatch? <==> !b.cancelRequested && exists n :: 0 <= n < |b.items| && b.items[n].state.Expired?)
            && (c.status.Completed? <==> !b.cancelRequested && forall n :: 0 <= n < |b.items| ==> !b.items[n].state.Expired?)
            && c.files.value.completed == |EndedIn(b.items, Succeeded, Succeeded)|
            && c.files.value.failed == |EndedIn(b.items, Failed, Interrupted)|
  {
    hide Next, Calls, Finalized, BatchOk, CountFailed, LinesOf, JoinedSize, EndedIn, BatchEvolves;
    FinalizationIsComplete(states, steps, i, id) by { assert i < |steps|; }
    var b := states[i].db[id];
    BatchRemains(states, steps, i, i + 1, j, id);
    FinalizedOnce(states, steps, i + 1, j, id);
    FinalizedTo(states, steps, i, id);
    CountsAreCardinalities(b.items);
  }

  lemma FinalizedTo(states: seq<System>, steps: seq<Step>, i: nat, id: BatchId)
    requires Run(states, steps) && i < |steps| && steps[i] == FinalizeBatch(id)
    ensures id in states[i].db && states[i + 1].db == states[i].db[id := Finalize(states[i].db[id])]
  {
    hide CanFinalize, Finalize;
    assert Next(states[i], steps[i], states[i + 1]);
  }

  /** Adding one rendered line to a buffer that holds the lines before it. */
  lemma BufferGrows(items: seq<Item>, item: Item, succeeded: bool, buffer: string)
    requires buffer == Join(Texts(LinesOf(items, succeeded)))
    requires item.line.Some? && item.state.Succeeded? == succeeded
    ensures AppendJsonl(buffer, Render(item.line.value)) == Join(Texts(LinesOf(items + [item], succeeded)))
  {
    hide Render, Join;
    var lines := LinesOf(items, succeeded);
    LinesOfSnoc(items, item, succeeded);
    TextsAppend(lines, item.line.value);
    forall i | 0 <= i < |Texts(lines)| ensures Texts(lines)[i] != "" { RenderIsOneLine(lines[i]); SizeIsPositive(lines[i]); }
    JoinAppend(Texts(lines), Render(item.line.value));
  }

  lemma SizeIsPositive(line: Line)
    ensures 0 < Size(line)
  {
    hide NoticeSize, MessageNoticeSize;
  }

  /** What the pass over the rows has gathered. */
  datatype Gathered = Gathered(output: string, failures: string, completed: nat, failed: nat, expired: bool)

  ghost predicate GathersRows(g: Gathered, items: seq<Item>) {
    && g.output == Join(Texts(LinesOf(items, true))) && g.failures == Join(Texts(LinesOf(items, false)))
    && g.completed == |LinesOf(items, true)| && g.failed == CountFailed(items)
    && (g.expired <==> exists i :: 0 <= i < |items| && items[i].state.Expired?)
  }

  ghost predicate GathersUsage(known: bool, totals: Totals, items: seq<Item>, parse: Line -> LineUsage, endpoint: Endpoint) {
    && (known <==> AllCountable(items, parse, endpoint) && Within(Sum(items, parse, endpoint)))
    && (known ==> totals == Sum(items, parse, endpoint))
  }

  /** The row part of one iteration. */
  function GatherRow(g: Gathered, item: Item): Gathered
    requires item.line.Some?
  {
    if item.state.Succeeded?
    then g.(completed := g.completed + 1, output := AppendJsonl(g.output, Render(item.line.value)))
    else g.(expired := g.expired || item.state.Expired?,
            failed := g.failed + if item.state.Failed? || item.state.Interrupted? then 1 else 0,
            failures := AppendJsonl(g.failures, Render(item.line.value)))
  }

  lemma GatherRowGathers(g: Gathered, items: seq<Item>, item: Item)
    requires GathersRows(g, items) && item.line.Some?
    ensures GathersRows(GatherRow(g, item), items + [item])
  {
    hide Render, Join, CountFailed, LinesOf, AppendJsonl;
    LinesOfSnoc(items, item, true);
    LinesOfSnoc(items, item, false);
    CountFailedSnoc(items, item);
    if item.state.Succeeded? { BufferGrows(items, item, true, g.output); } else { BufferGrows(items, item, false, g.failures); }
    var all := items + [item];
    assert all[|items|] == item && forall i :: 0 <= i < |items| ==> all[i] == items[i];
  }

  /** The usage part of one iteration. */
  lemma CountItemGathers(known: bool, totals: Totals, items: seq<Item>, item: Item, parse: Line -> LineUsage, endpoint: Endpoint,
                         known': bool, totals': Totals)
    requires GathersUsage(known, totals, items, parse, endpoint) && item.line.Some?
    requires var u := parse(item.line.value);
             var ok := item.state.Succeeded? && Consistent(u, endpoint) && Within(Plus(totals, Counts(u, endpoint)));
             && totals' == (if ok then Plus(totals, Counts(u, endpoint)) else totals)
             && (known' <==> known && item.usageKnown
                             && (if item.state.Succeeded? then ok else !item.state.Failed? && !item.state.Interrupted? && !item.linked))
    ensures GathersUsage(known', totals', items + [item], parse, endpoint)
  {
    hide Consistent, Counts, Within, Sum;
    PrefixGrows(items, item, parse, endpoint);
  }

  /** The row loop of `finalizeOpenAIBatch`. */
  method GatherRows(items: seq<Item>, parse: Line -> LineUsage, endpoint: Endpoint)
    returns (r: Option<Gathered>, known: bool, totals: Totals)
    requires forall i :: 0 <= i < |items| && Terminal(items[i].state) ==> items[i].line.Some?
    ensures r.None? <==> AnyActive(items)
    ensures r.Some? ==> GathersRows(r.value, items) && GathersUsage(known, totals, items, parse, endpoint)
  {
    hide Render, Join, CountFailed, LinesOf, GathersRows, GathersUsage, Consistent, Counts;
    var g := Gathered("", "", 0, 0, false);
    EmptyPrefix(g, parse, endpoint);
    var usage := new BatchTotals();
    var seen := 0;
    assert items[..0] == [];
    while seen < |items|
      invariant 0 <= seen <= |items|
      invariant !AnyActive(items[..seen])
      invariant GathersRows(g, items[..seen])
      invariant Within(usage.Value()) && GathersUsage(usage.known, usage.Value(), items[..seen], parse, endpoint)
    {
      var item := items[seen];
      if item.state.Active() { return None, false, usage.Value(); }
      ghost var before, wasKnown, were := items[..seen], usage.known, usage.Value();
      assert items[..seen + 1] == before + [item];
      GatherRowGathers(g, before, item);
      g := GatherRow(g, item);
      usage.known := usage.known && item.usageKnown;
      if item.state.Succeeded? {
        var added := usage.Add(parse(item.line.value), endpoint);
        usage.known := added && usage.known;
      } else if item.state.Failed? || item.state.Interrupted? || item.linked {
        usage.known := false;
      }
      CountItemGathers(wasKnown, were, before, item, parse, endpoint, usage.known, usage.Value());
      seen := seen + 1;
    }
    assert items[..seen] == items;
    return Some(g), usage.known, usage.Value();
  }

  /** `finalizeOpenAIBatch`: one pass over the rows fills both files and the totals. It writes exactly when
      `CanFinalize` allows, and then the rows, both texts and the totals are the specified ones. */
  method FinalizeOpenAIBatch(b: Batch, parse: Line -> LineUsage, endpoint: Endpoint) returns (r: Finalization)
    requires b.kind.OpenAIBatch? && forall i :: 0 <= i < |b.items| && Terminal(b.items[i].state) ==> b.items[i].line.Some?
    ensures r.Written? <==> CanFinalize(b)
    ensures r.Nothing? <==> !Open(b) || AnyActive(b.items)
    ensures r.Written? ==>
              && r.batch == Finalize(b)
              && r.output == Join(Texts(FinalFiles(b).output)) && r.errors == Join(Texts(FinalFiles(b).errors))
              && (r.known <==> AllCountable(b.items, parse, endpoint) && Within(Sum(b.items, parse, endpoint)))
              && (r.known ==> r.totals == Sum(b.items, parse, endpoint))
    ensures r.Written? ==> forall n :: 0 <= n < |b.items| ==>
              StandsIn(b.items, n, if b.items[n].state.Succeeded? then r.output else r.errors)
  {
    hide Render, Join, CountFailed, LinesOf, Sum, Within, AllCountable, StandsIn;
    if !(b.status.InProgress? || b.status.Cancelling?) { return Nothing; }
    var rows, known, totals := GatherRows(b.items, parse, endpoint);
    if rows.None? { return Nothing; }
    var g := rows.value;
    JoinSize(LinesOf(b.items, true));
    JoinSize(LinesOf(b.items, false));
    if |b.items| != b.total || |g.output| > MAX_FILE_BYTES || |g.failures| > MAX_FILE_BYTES { return Refused; }
    forall n | 0 <= n < |b.items|
      ensures StandsIn(b.items, n, if b.items[n].state.Succeeded? then g.output else g.failures)
    {
      ItemStandsInFile(b.items, n);
    }
    var status := if b.cancelRequested then Cancelled else if g.expired then ExpiredBatch else Completed;
    var files := Files(LinesOf(b.items, true), LinesOf(b.items, false), g.completed, g.failed);
    return Written(b.(status := status, files := Some(files), items := []), g.output, g.failures, known, totals);
  }

  lemma EmptyPrefix(g: Gathered, parse: Line -> LineUsage, endpoint: Endpoint)
    requires g == Gathered("", "", 0, 0, false)
    ensures GathersRows(g, []) && GathersUsage(true, Totals(0, 0, 0, 0), [], parse, endpoint)
  {
  }

  lemma PrefixGrows(items: seq<Item>, item: Item, parse: Line -> LineUsage, endpoint: Endpoint)
    ensures AllCountable(items + [item], parse, endpoint) <==> AllCountable(items, parse, endpoint) && Countable(item, parse, endpoint)
    ensures Sum(items + [item], parse, endpoint)
            == if item.state.Succeeded? && item.line.Some? && Consistent(parse(item.line.value), endpoint)
               then Plus(Sum(items, parse, endpoint), Counts(parse(item.line.value), endpoint)) else Sum(items, parse, endpoint)
    ensures Within(Sum(items + [item], parse, endpoint)) ==> Within(Sum(items, parse, endpoint))
    ensures AnyActive(items + [item]) <==> AnyActive(items) || item.state.Active()
  {
    hide Consistent, Counts, Countable;
    var all := items + [item];
    assert all[..|all| - 1] == items && all[|items|] == item;
    assert forall i :: 0 <= i < |items| ==> all[i] == items[i];
    if Consistent(parse(if item.line.Some? then item.line.value else OpenAI(Gateway("", "", NotCompleted))), endpoint) {
      ConsistentIsPositive(parse(if item.line.Some? then item.line.value else OpenAI(Gateway("", "", NotCompleted))), endpoint);
    }
  }

  lemma ConsistentIsPositive(u: LineUsage, endpoint: Endpoint)
    requires Consistent(u, endpoint)
    ensures Within(Counts(u, endpoint))
  {
  }
}
