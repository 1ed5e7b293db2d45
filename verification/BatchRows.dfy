/** One batch as the handlers see it: a row and its item rows, changed in place by the loops that cancel, reconcile
    and recover items, and read by the loops that count them and list their results. */
module BatchRows {
  import opened BatchLines
  import opened BatchMachine
  import opened Common
  import opened BatchSafety
  import opened BatchFiles
  import opened LineReading

  predicate Listed(s: ItemState) { s.Claimed? || s.Dispatching? || s.Settling? }

  /** What startup recovery makes of all rows of a batch; `clock(i)` is the time it reads for row `i`. */
  function RecoverItems(b: Batch, clock: nat -> int): seq<Item> {
    seq(|b.items|, i requires 0 <= i < |b.items| =>
      if Listed(b.items[i].state) then RecoverItem(b, b.items[i], b.items[i].state, clock(i)) else b.items[i])
  }

  class BatchRow {
    const kind: Kind
    const owner: nat
    const key: nat
    const deadline: int
    const total: nat
    var status: Status
    var cancelRequested: bool
    var items: seq<Item>
    var files: Option<Files>

    constructor (b: Batch)
      ensures Value() == b
    {
      kind, owner, key, deadline, total := b.kind, b.owner, b.key, b.deadline, b.total;
      status, cancelRequested, items, files := b.status, b.cancelRequested, b.items, b.files;
    }

    ghost function Value(): Batch
      reads this
    {
      Batch(kind, owner, key, status, cancelRequested, deadline, total, items, files)
    }

    /** The ordinals of the rows a SELECT on the unstarted states returns. */
    method SelectUnstarted() returns (rows: seq<nat>)
      ensures forall i :: i in rows <==> 0 <= i < |items| && Unstarted(items[i].state)
    {
      rows := [];
      for i := 0 to |items|
        invariant forall k :: k in rows <==> 0 <= k < i && Unstarted(items[k].state)
      {
        if items[i].state.Queued? || items[i].state.Claimed? { rows := rows + [i]; }
      }
    }

    /** `cancelQueuedBatchItems`, `cancelOpenAIBatchQueuedTx` and the item loops of both reconcilers. */
    method StopUnstarted(canceled: bool)
      modifies this`items
      ensures items == StopItems(kind, old(items), canceled)
    {
      hide StopLine;
      var rows := SelectUnstarted();
      ghost var before := items;
      var n := 0;
      while n < |rows|
        invariant 0 <= n <= |rows| && |items| == |before|
        invariant forall k :: 0 <= k < |items| ==>
                    items[k] == if k in rows[..n] then StopItem(kind, before[k], canceled) else before[k]
      {
        var i := rows[n];
        assert i in rows;
        var item := items[i];
        if item.state.Queued? || item.state.Claimed? {
          items := items[i := FinishItem(item, if canceled then Canceled else Expired,
                                         StopLine(kind, item.resultId, item.customId, canceled, false), false)];
        }
        assert rows[..n + 1] == rows[..n] + [i];
        n := n + 1;
      }
      assert rows[..n] == rows;
      assert items == StopItems(kind, before, canceled);
    }

    /** `finishMessageBatchTx`. */
    method EndWhenDone()
      modifies this`status
      ensures Value() == EndIfDone(old(Value()))
    {
      if kind.OpenAIBatch? || status.Ended? { return; }
      var i := 0;
      while i < |items|
        invariant 0 <= i <= |items| && forall k :: 0 <= k < i ==> !items[k].state.Active()
      {
        if items[i].state.Active() { return; }
        i := i + 1;
      }
      status := Ended;
    }

    /** The retry loop of `finishOpenAIBatchItem` and `finishMessageBatchItem`: whichever attempts take effect or report
        an error, the item is finished at most once, and exactly once if any attempt took effect while it could be. */
    method FinishRetrying(index: nat, state: ItemState, line: Line, linked: bool, reports: seq<Report>) returns (learned: bool)
      requires index < |items| && Terminal(state)
      modifies this`items, this`status
      ensures Value() == if Finishable(old(items)[index].state) && exists n :: 0 <= n < |reports| && !reports[n].LostAndFailed?
                         then EndIfDone(PutItem(old(Value()), index, FinishItem(old(items)[index], state, line, linked)))
                         else old(Value())
      ensures learned ==> exists n :: 0 <= n < |reports| && reports[n].Done?
    {
      hide AnyActive;
      ghost var before := Value();
      var n := 0;
      while n < |reports|
        invariant 0 <= n <= |reports| && index < |items|
        invariant forall k :: 0 <= k < n ==> !reports[k].Done?
        invariant Value() == if Finishable(before.items[index].state) && exists k :: 0 <= k < n && !reports[k].LostAndFailed?
                             then EndIfDone(PutItem(before, index, FinishItem(before.items[index], state, line, linked)))
                             else before
      {
        var item := items[index];
        if !reports[n].LostAndFailed? && Finishable(item.state) {
          items := items[index := FinishItem(item, state, line, linked)];
          EndWhenDone();
        }
        if reports[n].Done? { return true; }
        n := n + 1;
      }
      return false;
    }

    /** The cancel transaction of both handlers. */
    method Cancel()
      modifies this
      ensures Value() == CancelBatch(old(Value()))
    {
      if !(status.InProgress? || status.Cancelling?) { return; }
      status, cancelRequested := Cancelling, true;
      StopUnstarted(true);
      EndWhenDone();
    }

    /** The recovery loop over the rows listed when the gateway starts. */
    method Recover(clock: nat -> int)
      modifies this`items
      ensures items == RecoverItems(old(Value()), clock)
    {
      hide RecoverItem;
      ghost var before := Value();
      var i := 0;
      while i < |items|
        invariant 0 <= i <= |items| && |items| == |before.items|
        invariant forall k :: 0 <= k < |items| ==> items[k] == if k < i then RecoverItems(before, clock)[k] else before.items[k]
      {
        if Listed(items[i].state) {
          var row := Batch(kind, owner, key, status, cancelRequested, deadline, total, items, files);
          RecoveryReadsOneRow(row, before, items[i], items[i].state, clock(i));
          items := items[i := RecoverItem(row, items[i], items[i].state, clock(i))];
        }
        i := i + 1;
      }
    }

    /** `messageBatchResults`: the lines of an ended batch in ordinal order. The size check in the loop never fails. */
    method Results() returns (r: Option<string>)
      requires BatchOk(Value()) && kind.MessageBatch?
      ensures r.Some? <==> status.Ended?
      ensures r.Some? ==> (forall i :: 0 <= i < |items| ==> items[i].line.Some?) && r.value == Join(Texts(AllLines(items)))
      ensures r.Some? ==> var cut := Split(r.value);
                |cut| == |items| && forall i :: 0 <= i < |items| ==> items[i].line.Some? && ReadsAs(cut[i], items[i].line.value)
    {
      hide Render, Join, BatchOk, Size, Split, Texts, ReadsAs;
      if !status.Ended? { return None; }
      EndedLines(Value());
      r := ListResults(items);
      LinesReadBack(AllLines(items));
    }

    /** `messageBatchValue`: the five request counts, from the rows that GROUP BY state returns. */
    method RequestCounts(groups: seq<(ItemState, nat)>) returns (c: Counts)
      requires BatchOk(Value()) && kind.MessageBatch? && Groups(items, groups)
      ensures c.processing + c.succeeded + c.errored + c.canceled + c.expired == |items|
      ensures !status.Ended? ==> c == Counts(|items|, 0, 0, 0, 0)
      ensures status.Ended? ==>
                c == Counts(0, CountState(items, Succeeded), CountState(items, Failed) + CountState(items, Interrupted),
                            CountState(items, Canceled), CountState(items, Expired))
    {
      hide CountsOf, Reported, SumCounts, BatchOk, CountState, Groups;
      c := Counts(0, 0, 0, 0, 0);
      var total, n := 0, 0;
      NoGroups();
      assert groups[..0] == [];
      while n < |groups|
        invariant 0 <= n <= |groups| && total == SumCounts(groups[..n])
        invariant !status.Ended? ==> c == Counts(0, 0, 0, 0, 0)
        invariant status.Ended? ==> CountsOf(c, groups[..n])
      {
        assert groups[..n + 1] == groups[..n] + [groups[n]];
        GroupGrows(groups[..n], groups[n]);
        var (state, count) := groups[n];
        total := total + count;
        if status.Ended? {
          CountsGrow(c, groups[..n], groups[n]);
          c := Counted(c, state, count);
        }
        n := n + 1;
      }
      assert groups[..n] == groups;
      SumOfGroups(items, groups);
      if !status.Ended? {
        c := c.(processing := total);
      } else {
        EndedCounts(Value(), groups, c);
      }
    }
  }

  lemma EmptyResults()
    ensures Join(Texts(AllLines([]))) == ""
  {
  }

  /** The states from which the finishing UPDATE moves on. */
  predicate Finishable(s: ItemState) { s.Claimed? || s.Dispatching? || s.Settling? }

  lemma RecoveryReadsOneRow(a: Batch, b: Batch, item: Item, listed: ItemState, now: int)
    requires a.kind == b.kind && a.deadline == b.deadline
    ensures RecoverItem(a, item, listed, now) == RecoverItem(b, item, listed, now)
  {
    hide Notify;
  }

  // ------------------------------------------------------------------ results

  function AllLines(items: seq<Item>): (r: seq<Line>)
    requires forall i :: 0 <= i < |items| ==> items[i].line.Some?
    ensures |r| == |items|
  {
    seq(|items|, i requires 0 <= i < |items| => items[i].line.value)
  }

  lemma EndedLines(b: Batch)
    requires BatchOk(b) && b.status.Ended?
    ensures 0 < |b.items| <= MAX_ITEMS
    ensures forall i :: 0 <= i < |b.items| ==> b.items[i].line.Some? && Size(b.items[i].line.value) <= MAX_INFERENCE_BODY
  {
    hide Size;
    forall i | 0 <= i < |b.items| ensures b.items[i].line.Some? && Size(b.items[i].line.value) <= MAX_INFERENCE_BODY {
      assert ItemOk(b.kind, b.total, b.items[i]) && !b.items[i].state.Active();
    }
  }

  /** The row loop of `messageBatchResults`, with its size check. */
  method ListResults(items: seq<Item>) returns (r: Option<string>)
    requires |items| <= MAX_ITEMS
    requires forall i :: 0 <= i < |items| ==> items[i].line.Some? && Size(items[i].line.value) <= MAX_INFERENCE_BODY
    ensures r.Some? && r.value == Join(Texts(AllLines(items)))
  {
    hide Render, Join, Size, AppendJsonl, Texts;
    var output := "";
    var i := 0;
    assert items[..0] == [];
    assert output == Join(Texts(AllLines(items[..0]))) by { EmptyResults(); }
    while i < |items|
      invariant 0 <= i <= |items|
      invariant output == Join(Texts(AllLines(items[..i])))
      invariant |output| <= i * (MAX_INFERENCE_BODY + 1)
    {
      var line := Render(items[i].line.value);
      RenderIsOneLine(items[i].line.value);
      if |output| + |line| + 1 > MAX_ITEMS * (MAX_INFERENCE_BODY + 1024) { return None; }
      LinesGrow(items[..i], items[i]);
      assert items[..i + 1] == items[..i] + [items[i]];
      AppendSize(output, line);
      output := AppendJsonl(output, line);
      i := i + 1;
    }
    assert items[..i] == items;
    return Some(output);
  }

  lemma AppendSize(buffer: string, line: string)
    ensures |AppendJsonl(buffer, line)| <= |buffer| + |line| + 1
  {
  }

  lemma LinesGrow(items: seq<Item>, item: Item)
    requires item.line.Some? && forall i :: 0 <= i < |items| ==> items[i].line.Some?
    ensures Join(Texts(AllLines(items + [item]))) == AppendJsonl(Join(Texts(AllLines(items))), Render(item.line.value))
  {
    hide Render, Join;
    var lines := AllLines(items);
    assert AllLines(items + [item]) == lines + [item.line.value];
    TextsAppend(lines, item.line.value);
    forall i | 0 <= i < |Texts(lines)| ensures Texts(lines)[i] != "" { RenderIsOneLine(lines[i]); SizeIsPositive(lines[i]); }
    JoinAppend(Texts(lines), Render(item.line.value));
  }

  // ------------------------------------------------------------------- counts

  datatype Counts = Counts(processing: nat, succeeded: nat, errored: nat, canceled: nat, expired: nat)

  function CountState(items: seq<Item>, state: ItemState): nat {
    if items == [] then 0 else (if items[0].state == state then 1 else 0) + CountState(items[1..], state)
  }

  /** The result of GROUP BY state: each state that occurs, once, with its number of rows. */
  ghost predicate Groups(items: seq<Item>, groups: seq<(ItemState, nat)>) {
    && (forall i, j :: 0 <= i < j < |groups| ==> groups[i].0 != groups[j].0)
    && (forall i :: 0 <= i < |groups| ==> groups[i].1 == CountState(items, groups[i].0))
    && (forall i :: 0 <= i < |items| ==> exists j :: 0 <= j < |groups| && groups[j].0 == items[i].state)
  }

  function SumCounts(groups: seq<(ItemState, nat)>): nat {
    if groups == [] then 0 else SumCounts(groups[..|groups| - 1]) + groups[|groups| - 1].1
  }

  /** The count that the groups report for one state. */
  function Reported(groups: seq<(ItemState, nat)>, state: ItemState): nat {
    if groups == [] then 0
    else Reported(groups[..|groups| - 1], state) + if groups[|groups| - 1].0 == state then groups[|groups| - 1].1 else 0
  }

  ghost predicate CountsOf(c: Counts, groups: seq<(ItemState, nat)>) {
    && c.processing == Reported(groups, Queued) + Reported(groups, Claimed) + Reported(groups, Dispatching) + Reported(groups, Settling)
    && c.succeeded == Reported(groups, Succeeded) && c.canceled == Reported(groups, Canceled) && c.expired == Reported(groups, Expired)
    && c.errored == Reported(groups, Failed) + Reported(groups, Interrupted)
  }

  /** The count that a group of rows in one state goes to. */
  function Counted(c: Counts, state: ItemState, count: nat): Counts {
    match state
    case Queued | Claimed | Dispatching | Settling => c.(processing := c.processing + count)
    case Succeeded => c.(succeeded := c.succeeded + count)
    case Canceled => c.(canceled := c.canceled + count)
    case Expired => c.(expired := c.expired + count)
    case Failed | Interrupted => c.(errored := c.errored + count)
  }

  lemma NoGroups()
    ensures SumCounts([]) == 0 && CountsOf(Counts(0, 0, 0, 0, 0), [])
  {
  }

  lemma CountsGrow(c: Counts, groups: seq<(ItemState, nat)>, group: (ItemState, nat))
    requires CountsOf(c, groups)
    ensures CountsOf(Counted(c, group.0, group.1), groups + [group])
  {
    hide Reported;
    GroupGrows(groups, group);
  }

  lemma GroupGrows(groups: seq<(ItemState, nat)>, group: (ItemState, nat))
    ensures SumCounts(groups + [group]) == SumCounts(groups) + group.1
    ensures forall s :: Reported(groups + [group], s) == Reported(groups, s) + if group.0 == s then group.1 else 0
  {
    assert (groups + [group])[..|groups|] == groups;
  }

  /** Over all nine states the counts add up to the number of rows. */
  lemma {:induction false} CountsSum(items: seq<Item>)
    ensures CountState(items, Queued) + CountState(items, Claimed) + CountState(items, Dispatching) + CountState(items, Settling)
            + CountState(items, Succeeded) + CountState(items, Failed) + CountState(items, Canceled) + CountState(items, Expired)
            + CountState(items, Interrupted) == |items|
  {
    if items != [] { CountsSum(items[1..]); }
  }

  lemma {:induction false} ReportedSum(groups: seq<(ItemState, nat)>)
    ensures SumCounts(groups)
            == Reported(groups, Queued) + Reported(groups, Claimed) + Reported(groups, Dispatching) + Reported(groups, Settling)
               + Reported(groups, Succeeded) + Reported(groups, Failed) + Reported(groups, Canceled) + Reported(groups, Expired)
               + Reported(groups, Interrupted)
  {
    if groups != [] { ReportedSum(groups[..|groups| - 1]); }
  }

  lemma {:induction false} ReportedOnce(groups: seq<(ItemState, nat)>, state: ItemState, j: nat)
    requires forall i, k :: 0 <= i < k < |groups| ==> groups[i].0 != groups[k].0
    requires j < |groups| ==> groups[j].0 == state
    requires j >= |groups| ==> forall i :: 0 <= i < |groups| ==> groups[i].0 != state
    ensures Reported(groups, state) == if j < |groups| then groups[j].1 else 0
  {
    if groups != [] {
      var n := |groups| - 1;
      assert groups[n].0 == state ==> j == n;
      ReportedOnce(groups[..n], state, if j < n then j else n);
    }
  }

  lemma ReportedIsCount(items: seq<Item>, groups: seq<(ItemState, nat)>, state: ItemState)
    requires Groups(items, groups)
    ensures Reported(groups, state) == CountState(items, state)
  {
    if j :| 0 <= j < |groups| && groups[j].0 == state {
      ReportedOnce(groups, state, j);
    } else {
      ReportedOnce(groups, state, |groups|);
      NoneCounted(items, state);
    }
  }

  lemma {:induction false} NoneCounted(items: seq<Item>, state: ItemState)
    requires forall i :: 0 <= i < |items| ==> items[i].state != state
    ensures CountState(items, state) == 0
  {
    if items != [] { NoneCounted(items[1..], state); }
  }

  lemma SumOfGroups(items: seq<Item>, groups: seq<(ItemState, nat)>)
    requires Groups(items, groups)
    ensures SumCounts(groups) == |items|
    ensures forall s :: Reported(groups, s) == CountState(items, s)
  {
    hide Groups;
    forall s ensures Reported(groups, s) == CountState(items, s) { ReportedIsCount(items, groups, s); }
    ReportedSum(groups);
    CountsSum(items);
  }

  lemma EndedCounts(b: Batch, groups: seq<(ItemState, nat)>, c: Counts)
    requires BatchOk(b) && b.status.Ended? && Groups(b.items, groups) && CountsOf(c, groups)
    ensures c == Counts(0, CountState(b.items, Succeeded), CountState(b.items, Failed) + CountState(b.items, Interrupted),
                        CountState(b.items, Canceled), CountState(b.items, Expired))
    ensures c.processing + c.succeeded + c.errored + c.canceled + c.expired == |b.items|
  {
    hide ItemOk, Groups, Reported, CountState;
    SumOfGroups(b.items, groups);
    NoneCounted(b.items, Queued);
    NoneCounted(b.items, Claimed);
    NoneCounted(b.items, Dispatching);
    NoneCounted(b.items, Settling);
    CountsSum(b.items);
  }
}
