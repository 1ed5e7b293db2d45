/** The multi-round dispatch loop of hosted file search, with its call and output budgets. */
module FileSearchLoop {
  import opened Common
  import opened FileSearchBudget

  /** An output item of a provider turn. An internal call asks for a file search; `queries` says whether its arguments
      hold usable queries, `search` whether running them succeeds. */
  datatype Item =
    | Junk
    | Plain(id: nat)
    | ExternalCall(id: nat)
    | InternalCall(callId: nat, wellFormed: bool, queries: bool, search: bool)

  /** An item of the public answer: an internal call is replaced by the search call the client sees. */
  datatype PublicItem = Kept(item: Item) | SearchCall(callId: nat)

  /** What becomes of one dispatch. `finishes` and `appends` say whether the final answer and the next request would
      stay within 16 MiB. */
  datatype Reply =
    | Stale
    | Failed
    | Malformed
    | Turn(output: seq<Item>, usage: Option<seq<Field>>, finishes: bool, appends: bool)

  datatype Reason =
    | ConfigurationChanged | ProviderFailed | BadResponse | OutputExceeded | BadCalls | CallsExceeded | NoOutputBudget
    | BadQueries | SearchFailed | TooLarge

  /** A rejection carries the usage to account for when it is known. */
  datatype Outcome =
    | Rejected(reason: Reason, accounted: Option<(Counts, nat)>)
    | Finished(answer: seq<PublicItem>, usage: Option<Counts>)

  // ------------------------------------------------------------------- calls

  function InternalCalls(output: seq<Item>): nat {
    if output == [] then 0 else InternalCalls(output[..|output| - 1]) + if output[|output| - 1].InternalCall? then 1 else 0
  }

  predicate HasExternal(output: seq<Item>) { exists i :: 0 <= i < |output| && output[i].ExternalCall? }

  predicate WellFormed(output: seq<Item>) {
    forall i :: 0 <= i < |output| ==> !output[i].Junk? && (output[i].InternalCall? ==> output[i].wellFormed)
  }

  /** `responseFileSearchFunctionCalls`: the positions of the internal calls, in order. */
  method FunctionCalls(output: seq<Item>) returns (ok: bool, internal: seq<nat>, external: bool)
    ensures ok <==> WellFormed(output)
    ensures ok ==> |internal| == InternalCalls(output) && (external <==> HasExternal(output))
    ensures ok ==> forall i :: i in internal <==> 0 <= i < |output| && output[i].InternalCall?
  {
    ok, internal, external := true, [], false;
    assert output[..0] == [];
    var index := 0;
    while index < |output|
      invariant 0 <= index <= |output|
      invariant forall i :: 0 <= i < index ==> !output[i].Junk? && (output[i].InternalCall? ==> output[i].wellFormed)
      invariant |internal| == InternalCalls(output[..index])
      invariant external <==> exists i :: 0 <= i < index && output[i].ExternalCall?
      invariant forall i :: i in internal <==> 0 <= i < index && output[i].InternalCall?
    {
      assert output[..index + 1][..index] == output[..index];
      match output[index] {
        case Junk => return false, [], false;
        case InternalCall(_, wellFormed, _, _) =>
          if !wellFormed { return false, [], false; }
          internal := internal + [index];
        case ExternalCall(_) => external := true;
        case Plain(_) =>
      }
      index := index + 1;
    }
    assert output[..index] == output;
  }

  function PublicForm(item: Item): PublicItem { if item.InternalCall? then SearchCall(item.callId) else Kept(item) }

  function Publish(output: seq<Item>): (r: seq<PublicItem>)
    ensures |r| == |output|
  {
    seq(|output|, i requires 0 <= i < |output| => PublicForm(output[i]))
  }

  // ------------------------------------------------------------------- usage

  function Lookup(fields: seq<Field>, name: string): Option<Value> {
    if fields == [] then None else if fields[0].name == name then Some(fields[0].value) else Lookup(fields[1..], name)
  }

  function ReportedInteger(fields: seq<Field>, name: string): Option<int> {
    match Lookup(fields, name) case Some(v) => Integer(v) case None => None
  }

  predicate HasTotals(usage: Option<seq<Field>>) {
    usage.Some? && ReportedInteger(usage.value, "input_tokens").Some? && ReportedInteger(usage.value, "output_tokens").Some?
    && ReportedInteger(usage.value, "total_tokens").Some?
  }

  function OutputTokens(usage: Option<seq<Field>>): nat {
    if HasTotals(usage) then ReportedInteger(usage.value, "output_tokens").value else 0
  }

  /** `mergeResponseUsage`: the new total, and whether this turn's usage is known. */
  function MergeUsage(total: Option<Counts>, usage: Option<seq<Field>>): (Option<Counts>, bool) {
    if !HasTotals(usage) then (total, false)
    else
      var (merged, ok) := MergeFields(if total.Some? then total.value else map[], usage.value);
      (Some(merged), ok)
  }

  /** The total and whether everything is known after the first `n` replies. */
  function UsageAfter(replies: nat -> Reply, n: nat): (Option<Counts>, bool) {
    if n == 0 then (None, true)
    else
      var (total, known) := UsageAfter(replies, n - 1);
      if replies(n - 1).Turn? then
        var (merged, ok) := MergeUsage(total, replies(n - 1).usage);
        (merged, known && ok)
      else (total, known)
  }

  /** The answer after the first `n` replies. */
  function AnswerAfter(replies: nat -> Reply, n: nat): seq<PublicItem> {
    if n == 0 then []
    else AnswerAfter(replies, n - 1) + if replies(n - 1).Turn? then Publish(replies(n - 1).output) else []
  }

  // -------------------------------------------------------------------- loop

  /** Round `i` continued: it called search at least once, asked for nothing external, and its usage was known. */
  ghost predicate Continued(reply: Reply, round: Round) {
    && reply.Turn? && WellFormed(reply.output) && !HasExternal(reply.output) && HasTotals(reply.usage)
    && round == Round(InternalCalls(reply.output), OutputTokens(reply.usage)) && round.calls >= 1
  }

  /** What holds of every run: at most maxCalls + 1 dispatches, at most maxCalls searches, continuing turns that leave
      some of the output budget, and every dispatch told what is left of it. */
  ghost predicate WithinBudget(config: Config, replies: nat -> Reply, sent: seq<int64>, rounds: seq<Round>) {
    && |rounds| <= |sent| <= |rounds| + 1 && |rounds| <= CallsOf(rounds) <= config.maxCalls as int
    && (forall i :: 0 <= i < |rounds| ==> Continued(replies(i), rounds[i]))
    && OutputOf(rounds) < config.maxOutput as int
    && (forall i :: 0 <= i < |sent| ==> sent[i] as int == config.maxOutput as int - OutputOf(rounds[..i]))
  }

  lemma SendKeepsBudget(config: Config, replies: nat -> Reply, sent: seq<int64>, rounds: seq<Round>, remaining: int64)
    requires WithinBudget(config, replies, sent, rounds) && |sent| == |rounds|
    requires remaining as int == config.maxOutput as int - OutputOf(rounds)
    ensures WithinBudget(config, replies, sent + [remaining], rounds)
  {
    hide Continued;
    assert rounds[..|rounds|] == rounds;
  }

  lemma ContinueKeepsBudget(config: Config, replies: nat -> Reply, sent: seq<int64>, rounds: seq<Round>, round: Round)
    requires WithinBudget(config, replies, sent, rounds) && |sent| == |rounds| + 1
    requires Continued(replies(|rounds|), round)
    requires CallsOf(rounds) + round.calls <= config.maxCalls as int && OutputOf(rounds) + round.output < config.maxOutput as int
    ensures WithinBudget(config, replies, sent, rounds + [round])
    ensures CallsOf(rounds + [round]) == CallsOf(rounds) + round.calls && OutputOf(rounds + [round]) == OutputOf(rounds) + round.output
  {
    hide WellFormed, HasExternal, HasTotals, CallsOf, OutputOf;
    RoundsAppend(rounds, round);
    assert round.calls >= 1;
    hide Continued;
    var all := rounds + [round];
    forall i | 0 <= i < |sent| ensures sent[i] as int == config.maxOutput as int - OutputOf(all[..i]) {
      assert all[..i] == rounds[..i];
    }
    forall i | 0 <= i < |all| ensures Continued(replies(i), all[i]) { }
  }

  /** What the last reply must look like for each way in which the loop can end; `total` is the usage before it. */
  ghost predicate Explains(config: Config, reply: Reply, first: bool, total: Option<Counts>, rounds: seq<Round>, outcome: Outcome) {
    var left := config.maxOutput as int - OutputOf(rounds);
    match outcome
    case Finished(_, _) =>
      reply.Turn? && reply.finishes && WellFormed(reply.output) && (InternalCalls(reply.output) == 0 || HasExternal(reply.output))
    case Rejected(ConfigurationChanged, _) => reply.Stale? && !first
    case Rejected(ProviderFailed, _) => reply.Failed? || (reply.Stale? && first)
    case Rejected(BadResponse, _) => reply.Malformed?
    case Rejected(OutputExceeded, _) => reply.Turn? && MergeUsage(total, reply.usage).1 && OutputTokens(reply.usage) > left
    case Rejected(BadCalls, _) => reply.Turn? && !WellFormed(reply.output)
    case Rejected(CallsExceeded, _) => reply.Turn? && CallsOf(rounds) + InternalCalls(reply.output) > config.maxCalls as int
    case Rejected(NoOutputBudget, _) =>
      reply.Turn? && InternalCalls(reply.output) > 0 && !HasExternal(reply.output)
      && (!MergeUsage(total, reply.usage).1 || OutputTokens(reply.usage) == left)
    case Rejected(BadQueries, _) =>
      reply.Turn? && exists i :: 0 <= i < |reply.output| && reply.output[i].InternalCall? && !reply.output[i].queries
    case Rejected(SearchFailed, _) =>
      reply.Turn? && exists i :: 0 <= i < |reply.output| && reply.output[i].InternalCall? && !reply.output[i].search
    case Rejected(TooLarge, _) => reply.Turn? && (!reply.finishes || !reply.appends)
  }

  /** The search calls of one turn, in order; `reason` is what stops them. */
  method RunSearches(output: seq<Item>, internal: seq<nat>, before: int64, config: Config) returns (completed: int64, reason: Option<Reason>)
    requires forall i :: i in internal ==> 0 <= i < |output| && output[i].InternalCall?
    requires config.Valid() && 0 <= before && before as int + |internal| <= config.maxCalls as int
    ensures 0 <= completed <= config.maxCalls && (reason.None? ==> completed as int == before as int + |internal|)
    ensures reason.None? <==> forall i :: i in internal ==> output[i].queries && output[i].search
    ensures reason == Some(BadQueries) ==> exists i :: 0 <= i < |output| && output[i].InternalCall? && !output[i].queries
    ensures reason == Some(SearchFailed) ==> exists i :: 0 <= i < |output| && output[i].InternalCall? && !output[i].search
    ensures reason.Some? ==> reason.value.BadQueries? || reason.value.SearchFailed?
  {
    completed, reason := before, None;
    var n := 0;
    while n < |internal|
      invariant 0 <= n <= |internal| && completed as int == before as int + n
      invariant forall i :: i in internal[..n] ==> 0 <= i < |output| && output[i].InternalCall? && output[i].queries && output[i].search
    {
      assert internal[n] in internal;
      assert internal[..n + 1] == internal[..n] + [internal[n]];
      var call := output[internal[n]];
      if !call.queries { return completed, Some(BadQueries); }
      if !call.search { return completed, Some(SearchFailed); }
      completed := completed + 1;
      n := n + 1;
    }
    assert internal[..n] == internal;
  }

  /** The variables of the loop that a turn changes. */
  datatype Progress = Progress(carried: seq<PublicItem>, usage: Option<Counts>, known: bool, remaining: int64, completed: int64)

  /** The part of an iteration after a decodable answer: it ends the loop or continues it with less of both budgets. */
  method TakeTurn(config: Config, reply: Reply, p: Progress, ghost rounds: seq<Round>) returns (outcome: Option<Outcome>, next: Progress)
    requires config.Valid() && reply.Turn? && 0 <= p.completed <= config.maxCalls && p.completed as int == CallsOf(rounds)
    requires 1 <= p.remaining <= config.maxOutput && p.remaining as int == config.maxOutput as int - OutputOf(rounds)
    ensures outcome.Some? ==> forall first :: Explains(config, reply, first, p.usage, rounds, outcome.value)
    ensures (next.usage, next.known) == (MergeUsage(p.usage, reply.usage).0, p.known && MergeUsage(p.usage, reply.usage).1)
    ensures outcome.Some? && outcome.value.Finished? ==>
              outcome.value.answer == p.carried + Publish(reply.output) && outcome.value.usage == if next.known then next.usage else None
    ensures outcome.Some? && outcome.value.Rejected? && outcome.value.accounted.Some? ==>
              outcome.value.accounted.value.1 <= config.maxCalls as int
              && next.known && next.usage == Some(outcome.value.accounted.value.0)
    ensures outcome.None? ==>
              var round := Round(InternalCalls(reply.output), OutputTokens(reply.usage));
              && Continued(reply, round) && 1 <= next.remaining && next.remaining as int == p.remaining as int - round.output
              && p.completed < next.completed <= config.maxCalls && next.completed as int == p.completed as int + round.calls
              && next.carried == p.carried + Publish(reply.output)
  {
    hide MergeUsage, WellFormed, HasExternal, CallsOf, OutputOf;
    var turnOutput := OutputTokens(reply.usage);
    var (merged, turnUsageKnown) := MergeUsage(p.usage, reply.usage);
    MergeNeedsTotals(p.usage, reply.usage);
    next := Progress(p.carried, merged, p.known && turnUsageKnown, p.remaining, p.completed);
    if turnUsageKnown {
      if turnOutput > p.remaining as int { return Some(Rejected(OutputExceeded, Account(next))), next; }
      next := next.(remaining := p.remaining - turnOutput as int64);
    }
    var ok, internal, external := FunctionCalls(reply.output);
    if !ok { return Some(Rejected(BadCalls, Account(next))), next; }
    if |internal| == 0 {
      NothingInternal(reply.output, internal);
      next := next.(carried := next.carried + KeepAll(reply.output));
      if !reply.finishes { return Some(Rejected(TooLarge, Account(next))), next; }
      return Some(Finished(next.carried, if next.known then next.usage else None)), next;
    }
    if next.completed as int + |internal| > config.maxCalls as int { return Some(Rejected(CallsExceeded, Account(next))), next; }
    if !external && (!turnUsageKnown || next.remaining < 1) { return Some(Rejected(NoOutputBudget, Account(next))), next; }
    var completed, reason := RunSearches(reply.output, internal, next.completed, config);
    next := next.(completed := completed);
    if reason.Some? { return Some(Rejected(reason.value, Account(next))), next; }
    next := next.(carried := next.carried + Publish(reply.output));
    if external {
      if !reply.finishes { return Some(Rejected(TooLarge, Account(next))), next; }
      return Some(Finished(next.carried, if next.known then next.usage else None)), next;
    }
    if !reply.appends { return Some(Rejected(TooLarge, Account(next))), next; }
    return None, next;
  }

  /** `dispatchResponseFileSearch`. `sent` lists the max_output_tokens of the dispatches, `rounds` the turns that
      continued. */
  method Dispatch(config: Config, replies: nat -> Reply) returns (outcome: Outcome, sent: seq<int64>, ghost rounds: seq<Round>)
    requires config.Valid()
    ensures WithinBudget(config, replies, sent, rounds)
    ensures Explains(config, replies(|rounds|), rounds == [], UsageAfter(replies, |rounds|).0, rounds, outcome)
    ensures outcome.Finished? ==>
              && |sent| == |rounds| + 1 && outcome.answer == AnswerAfter(replies, |sent|)
              && outcome.usage == if UsageAfter(replies, |sent|).1 then UsageAfter(replies, |sent|).0 else None
    ensures outcome.Rejected? && outcome.accounted.Some? ==>
              && outcome.accounted.value.1 <= config.maxCalls as int
              && UsageAfter(replies, |sent|) == (Some(outcome.accounted.value.0), true)
  {
    hide MergeUsage, WithinBudget, WellFormed, HasExternal, Continued;
    var p := Progress([], None, true, config.maxOutput, 0);
    sent, rounds := [], [];
    assert WithinBudget(config, replies, sent, rounds) by { NothingSent(config, replies); }
    while true
      invariant |sent| == |rounds| && WithinBudget(config, replies, sent, rounds)
      invariant 0 <= p.completed <= config.maxCalls && p.completed as int == CallsOf(rounds)
      invariant 1 <= p.remaining <= config.maxOutput && p.remaining as int == config.maxOutput as int - OutputOf(rounds)
      invariant UsageAfter(replies, |sent|) == (p.usage, p.known)
      invariant p.carried == AnswerAfter(replies, |sent|)
      decreases config.maxCalls - p.completed
    {
      var reply := replies(|sent|);
      if reply.Stale? && sent != [] { return Rejected(ConfigurationChanged, Account(p)), sent, rounds; }
      SendKeepsBudget(config, replies, sent, rounds, p.remaining);
      sent := sent + [p.remaining];
      if reply.Stale? || reply.Failed? { return Rejected(ProviderFailed, Account(p)), sent, rounds; }
      if reply.Malformed? { return Rejected(BadResponse, Account(p)), sent, rounds; }
      var ended, next := TakeTurn(config, reply, p, rounds);
      if ended.Some? { return ended.value, sent, rounds; }
      ghost var round := Round(InternalCalls(reply.output), OutputTokens(reply.usage));
      ContinueKeepsBudget(config, replies, sent, rounds, round);
      rounds := rounds + [round];
      p := next;
    }
  }

  /** `responseFileSearchAccountingFailure`. */
  function Account(p: Progress): Option<(Counts, nat)>
    requires 0 <= p.completed
  {
    if p.known && p.usage.Some? then Some((p.usage.value, p.completed as int)) else None
  }

  lemma NothingSent(config: Config, replies: nat -> Reply)
    requires config.Valid()
    ensures WithinBudget(config, replies, [], [])
  {
  }

  lemma MergeNeedsTotals(total: Option<Counts>, usage: Option<seq<Field>>)
    ensures MergeUsage(total, usage).1 ==> HasTotals(usage)
    ensures InRange(OutputTokens(usage))
  {
  }

  /** Appending a turn without internal calls unchanged. */
  function KeepAll(output: seq<Item>): seq<PublicItem> { seq(|output|, i requires 0 <= i < |output| => Kept(output[i])) }

  lemma NothingInternal(output: seq<Item>, internal: seq<nat>)
    requires internal == [] && forall i :: i in internal <==> 0 <= i < |output| && output[i].InternalCall?
    ensures KeepAll(output) == Publish(output)
  {
  }

  // ------------------------------------------------------------ consequences

  /** Everything the providers' first `n` replies put out, in order. */
  function ItemsAfter(replies: nat -> Reply, n: nat): seq<Item> {
    if n == 0 then [] else ItemsAfter(replies, n - 1) + if replies(n - 1).Turn? then replies(n - 1).output else []
  }

  /** The public answer has every item of the providers in its place, with each internal search call replaced by its
      public form, so that none is left. */
  lemma {:induction false} AnswerIsPublic(replies: nat -> Reply, n: nat)
    ensures var answer, items := AnswerAfter(replies, n), ItemsAfter(replies, n);
            && |answer| == |items|
            && forall i :: 0 <= i < |answer| ==>
                 match items[i]
                 case InternalCall(callId, _, _, _) => answer[i] == SearchCall(callId)
                 case _ => answer[i] == Kept(items[i])
  {
    if n > 0 { AnswerIsPublic(replies, n - 1); }
  }

  /** The integer that a usage object reports at a path of names: under its first name, or in the detail object there. */
  function ReportedAt(fields: seq<Field>, path: seq<string>): Option<int>
    decreases |path|
  {
    if path == [] then None
    else if |path| == 1 then ReportedInteger(fields, path[0])
    else match Lookup(fields, path[0])
         case Some(Object(detail)) => ReportedAt(detail, path[1..])
         case _ => None
  }

  /** The total kept at a path. */
  function TotalAt(total: Counts, path: seq<string>): Option<int>
    decreases |path|
  {
    if path == [] || path[0] !in total then None
    else match total[path[0]]
         case Sum(n) => if |path| == 1 then Some(n) else None
         case Nested(counts) => TotalAt(counts, path[1..])
  }

  function PreviousAt(total: Counts, path: seq<string>): int {
    if TotalAt(total, path).Some? then TotalAt(total, path).value else 0
  }

  /** No object repeats a name, at any depth. */
  predicate DeepDistinct(fields: seq<Field>)
    decreases fields
  {
    && (forall i, j :: 0 <= i < j < |fields| ==> fields[i].name != fields[j].name)
    && (forall i :: 0 <= i < |fields| && fields[i].value.Object? ==> DeepDistinct(fields[i].value.fields))
  }

  /** The sum of what the first `n` turns report at a path. */
  function SumOf(replies: nat -> Reply, n: nat, path: seq<string>): int {
    if n == 0 then 0
    else SumOf(replies, n - 1, path)
         + if replies(n - 1).Turn? && replies(n - 1).usage.Some? && ReportedAt(replies(n - 1).usage.value, path).Some?
           then ReportedAt(replies(n - 1).usage.value, path).value else 0
  }

  lemma {:induction false} LookupIsField(fields: seq<Field>, name: string) returns (i: nat)
    requires Lookup(fields, name).Some?
    ensures i < |fields| && fields[i] == Field(name, Lookup(fields, name).value)
  {
    if fields[0].name == name {
      i := 0;
    } else {
      i := LookupIsField(fields[1..], name);
      i := i + 1;
    }
  }

  lemma MergedSum(total: Counts, fields: seq<Field>, name: string)
    requires Distinct(fields) && MergeFields(total, fields).1 && ReportedInteger(fields, name).Some?
    ensures var merged := MergeFields(total, fields).0;
            name in merged && merged[name] == Sum(Previous(total, name) + ReportedInteger(fields, name).value)
            && merged[name].n <= MAXIMUM as int
  {
    MergeIsPointwise(total, fields);
    var i := LookupIsField(fields, name);
    assert Agree(MergeFields(total, fields).0, MergeField(total, name, fields[i].value).0, name);
  }

  /** The counts kept under a name that stands for a detail object. */
  function NestedIn(total: Counts, name: string): Counts { if name in total && total[name].Nested? then total[name].counts else map[] }

  lemma MergedDetail(total: Counts, fields: seq<Field>, name: string)
    requires Distinct(fields) && MergeFields(total, fields).1 && Lookup(fields, name).Some? && Lookup(fields, name).value.Object?
    ensures var merged, detail := MergeFields(total, fields).0, Lookup(fields, name).value.fields;
            MergeFields(NestedIn(total, name), detail).1
            && name in merged && merged[name] == Nested(MergeFields(NestedIn(total, name), detail).0)
  {
    MergeIsPointwise(total, fields);
    var i := LookupIsField(fields, name);
    assert Agree(MergeFields(total, fields).0, MergeField(total, name, fields[i].value).0, name);
  }

  lemma TopTotal(total: Counts, path: seq<string>)
    requires |path| == 1
    ensures TotalAt(total, path) == if path[0] in total && total[path[0]].Sum? then Some(total[path[0]].n) else None
  {
    if path[0] in total && total[path[0]].Nested? { assert path[1..] == []; }
  }

  /** A merge adds what is reported at a path to what was kept there. */
  lemma {:induction false} MergedSumAt(total: Counts, fields: seq<Field>, path: seq<string>)
    requires DeepDistinct(fields) && MergeFields(total, fields).1 && ReportedAt(fields, path).Some?
    ensures TotalAt(MergeFields(total, fields).0, path) == Some(PreviousAt(total, path) + ReportedAt(fields, path).value)
    ensures PreviousAt(total, path) + ReportedAt(fields, path).value <= MAXIMUM as int
    decreases |path|
  {
    hide MergeFields, ReportedInteger;
    var name := path[0];
    if |path| == 1 {
      TopTotal(total, path);
      TopTotal(MergeFields(total, fields).0, path);
      MergedSum(total, fields, name);
    } else {
      MergedDetail(total, fields, name);
      var i := LookupIsField(fields, name);
      MergedSumAt(NestedIn(total, name), fields[i].value.fields, path[1..]);
    }
  }

  lemma ReportedIsInteger(fields: seq<Field>, path: seq<string>)
    requires ReportedAt(fields, path).Some?
    ensures 0 <= ReportedAt(fields, path).value
    decreases |path|
  {
    if |path| > 1 { ReportedIsInteger(Lookup(fields, path[0]).value.fields, path[1..]); }
  }

  /** A name is found if and only if some entry has it, and is then reported if and only if its value is an integer within
      range. */
  lemma {:induction false} ReportedIff(fields: seq<Field>, name: string)
    requires forall i, j :: 0 <= i < j < |fields| ==> fields[i].name != fields[j].name
    ensures forall i :: 0 <= i < |fields| && fields[i].name == name ==> Lookup(fields, name) == Some(fields[i].value)
    ensures Lookup(fields, name).Some? <==> exists i :: 0 <= i < |fields| && fields[i].name == name
    ensures forall i :: 0 <= i < |fields| && fields[i].name == name ==>
              ReportedAt(fields, [name]) == if fields[i].value.Number? && InRange(fields[i].value.n) then Some(fields[i].value.n) else None
  {
    if fields != [] {
      var rest := fields[1..];
      ReportedIff(rest, name);
      forall i | 0 <= i < |fields| && fields[i].name == name
        ensures Lookup(fields, name) == Some(fields[i].value)
      {
        if i > 0 { assert rest[i - 1] == fields[i]; }
      }
      if Lookup(rest, name).Some? {
        var i :| 0 <= i < |rest| && rest[i].name == name;
        assert fields[i + 1].name == name;
      }
    }
  }

  /** Usage does become known: one turn that reports its three totals and nothing else makes them the totals. */
  lemma OneTurnIsKnown(replies: nat -> Reply, input: int, output: int, total: int)
    requires InRange(input) && InRange(output) && InRange(total)
    requires replies(0).Turn?
             && replies(0).usage == Some([Field("input_tokens", Number(input)), Field("output_tokens", Number(output)),
                                           Field("total_tokens", Number(total))])
    ensures UsageAfter(replies, 1).1 && UsageAfter(replies, 1).0.Some?
    ensures var counts := UsageAfter(replies, 1).0.value;
            TotalAt(counts, ["input_tokens"]) == Some(input) && TotalAt(counts, ["output_tokens"]) == Some(output)
            && TotalAt(counts, ["total_tokens"]) == Some(total)
  {
    var fields := [Field("input_tokens", Number(input)), Field("output_tokens", Number(output)), Field("total_tokens", Number(total))];
    assert fields[0].name[0] == 'i' && fields[1].name[0] == 'o' && fields[2].name[0] == 't';
    ReportedIff(fields, "input_tokens");
    ReportedIff(fields, "output_tokens");
    ReportedIff(fields, "total_tokens");
    MergeIsPointwise(map[], fields);
    forall i | 0 <= i < 3 ensures MergeField(map[], fields[i].name, fields[i].value).1 { }
    assert UsageAfter(replies, 0) == (None, true);
  }

  /** While everything is known, a total that every turn reports is the exact sum, within 2^53 - 1, whether it stands at the
      top or in a detail object at any depth. */
  lemma {:induction false} KnownTotalsAreExact(replies: nat -> Reply, n: nat, path: seq<string>)
    requires forall i :: 0 <= i < n ==> replies(i).Turn? && (replies(i).usage.Some? ==> DeepDistinct(replies(i).usage.value))
    requires forall i :: 0 <= i < n ==> replies(i).usage.Some? && ReportedAt(replies(i).usage.value, path).Some?
    requires n > 0 && UsageAfter(replies, n).1
    ensures UsageAfter(replies, n).0.Some? && TotalAt(UsageAfter(replies, n).0.value, path) == Some(SumOf(replies, n, path))
    ensures InRange(SumOf(replies, n, path))
  {
    hide MergeFields, DeepDistinct;
    var (total, known) := UsageAfter(replies, n - 1);
    var before := if total.Some? then total.value else map[];
    if n > 1 { KnownTotalsAreExact(replies, n - 1, path); }
    assert PreviousAt(before, path) == SumOf(replies, n - 1, path);
    MergedSumAt(before, replies(n - 1).usage.value, path);
    ReportedIsInteger(replies(n - 1).usage.value, path);
  }

  /** The whole budget: in any run of `Dispatch` at most maxCalls + 1 requests are dispatched, each with a positive
      output limit, and the input of all of them together is at most what was reserved before the first. */
  lemma RunStaysWithinReservation(config: Config, replies: nat -> Reply, sent: seq<int64>, rounds: seq<Round>, input: nat)
    requires config.Valid() && WithinBudget(config, replies, sent, rounds)
    ensures |sent| <= config.maxCalls as int + 1
    ensures forall i :: 0 <= i < |sent| ==> 1 <= sent[i] <= config.maxOutput
    ensures TotalInput(input, PerSearch(config), rounds) <= Reservation(input, config.maxOutput as int, config)
  {
    hide WellFormed, HasExternal, HasTotals;
    ReservationDominates(input, config, rounds);
    forall i | 0 <= i < |sent| ensures 1 <= sent[i] <= config.maxOutput { PrefixOutput(rounds, i); }
  }

  lemma {:induction false} PrefixOutput(rounds: seq<Round>, n: nat)
    requires n <= |rounds|
    ensures OutputOf(rounds[..n]) <= OutputOf(rounds)
  {
    if n > 0 {
      PrefixOutput(rounds[1..], n - 1);
      assert rounds[..n][1..] == rounds[1..][..n - 1];
    }
  }
}
