/** Token totals of a finalized OpenAI Batch: a line is added only when its report fits the endpoint and the totals
    stay exact JSON numbers. */
module BatchUsage {
  import opened BatchLines
  import opened BatchMachine
  import opened Common

  /** The largest integer that JSON readers keep exact: 2^53 - 1. */
  const MAX_USAGE: int64 := 9007199254740991

  datatype Endpoint = Completions | Embeddings | Responses

  /** The token counts found in a stored success line. `details*` come from `parseUsageDetails`, the other fields from
      the usage object itself; the details objects only matter by presence and by their reasoning count. */
  datatype LineUsage = NoUsage | LineUsage(detailsInput: Option<int64>, detailsOutput: Option<int64>, detailsCached: Option<int64>,
                                        input: Option<int64>, output: Option<int64>, prompt: Option<int64>,
                                        completion: Option<int64>, total: Option<int64>,
                                        inputDetails: bool, promptDetails: bool,
                                        outputReasoning: Option<int64>, completionReasoning: Option<int64>)

  datatype Totals = Totals(input: int, output: int, cached: int, reasoning: int)

  /** The fields present are those of the endpoint's own usage shape. */
  predicate ShapeFits(u: LineUsage, endpoint: Endpoint) {
    u.LineUsage? && u.detailsInput.Some? && u.detailsOutput.Some? &&
    match endpoint
    case Completions =>
      u.prompt.Some? && u.completion.Some? && u.input.None? && u.output.None? && !u.inputDetails && u.outputReasoning.None?
    case Embeddings =>
      u.prompt.Some? && u.total == u.prompt && u.input.None? && u.output.None? && u.completion.None?
      && !u.inputDetails && !u.promptDetails && u.outputReasoning.None? && u.completionReasoning.None? && u.detailsCached.None?
    case Responses =>
      u.input.Some? && u.output.Some? && u.prompt.None? && u.completion.None? && !u.promptDetails && u.completionReasoning.None?
  }

  /** The counts a report of the right shape stands for. */
  function Counts(u: LineUsage, endpoint: Endpoint): Totals
    requires ShapeFits(u, endpoint)
  {
    Totals(u.detailsInput.value as int, u.detailsOutput.value as int,
           if u.detailsCached.Some? then u.detailsCached.value as int else 0,
           if endpoint.Completions? && u.completionReasoning.Some? then u.completionReasoning.value as int
           else if u.outputReasoning.Some? then u.outputReasoning.value as int else 0)
  }

  /** A report that says something possible: parts within wholes, and a total that is the sum. */
  predicate Consistent(u: LineUsage, endpoint: Endpoint) {
    ShapeFits(u, endpoint) &&
    var c := Counts(u, endpoint);
    0 <= c.cached <= c.input && 0 <= c.reasoning <= c.output && c.input + c.output <= MAX_USAGE as int
    && (u.total.Some? ==> u.total.value as int == c.input + c.output)
  }

  function Plus(a: Totals, b: Totals): Totals {
    Totals(a.input + b.input, a.output + b.output, a.cached + b.cached, a.reasoning + b.reasoning)
  }

  predicate Within(t: Totals) {
    0 <= t.cached <= t.input && 0 <= t.reasoning <= t.output && t.input + t.output <= MAX_USAGE as int
  }

  /** `openAIBatchUsage`. */
  class BatchTotals {
    var known: bool
    var input: int64
    var output: int64
    var cached: int64
    var reasoning: int64

    constructor ()
      ensures known && Value() == Totals(0, 0, 0, 0)
    {
      known := true;
      input, output, cached, reasoning := 0, 0, 0, 0;
    }

    function Value(): Totals
      reads this
    {
      Totals(input as int, output as int, cached as int, reasoning as int)
    }

    /** The chain of comparisons accepts a report exactly when it is consistent and the new grand total is still
        exact; the arithmetic never leaves 64 bits, and a refused report changes nothing. */
    method Add(u: LineUsage, endpoint: Endpoint) returns (ok: bool)
      requires Within(Value())
      modifies this
      ensures known == old(known)
      ensures ok <==> Consistent(u, endpoint) && Within(Plus(old(Value()), Counts(u, endpoint)))
      ensures Value() == if ok then Plus(old(Value()), Counts(u, endpoint)) else old(Value())
    {
      if u.NoUsage? || u.detailsInput.None? || u.detailsOutput.None? { return false; }
      match endpoint {
        case Completions =>
          if u.prompt.None? || u.completion.None? || u.input.Some? || u.output.Some? || u.inputDetails || u.outputReasoning.Some? {
            return false;
          }
        case Embeddings =>
          if u.prompt.None? || u.total.None? || u.total.value != u.prompt.value || u.input.Some? || u.output.Some?
             || u.completion.Some? || u.inputDetails || u.promptDetails || u.outputReasoning.Some?
             || u.completionReasoning.Some? || u.detailsCached.Some? {
            return false;
          }
        case Responses =>
          if u.input.None? || u.output.None? || u.prompt.Some? || u.completion.Some? || u.promptDetails
             || u.completionReasoning.Some? {
            return false;
          }
      }
      var moreInput, moreOutput := u.detailsInput.value, u.detailsOutput.value;
      var moreCached: int64, moreReasoning: int64 := 0, 0;
      if u.outputReasoning.Some? { moreReasoning := u.outputReasoning.value; }
      if u.detailsCached.Some? { moreCached := u.detailsCached.value; }
      if endpoint.Completions? && u.completionReasoning.Some? { moreReasoning := u.completionReasoning.value; }
      if moreInput < 0 || moreOutput < 0 || moreCached < 0 || moreCached > moreInput || moreReasoning < 0
         || moreReasoning > moreOutput || moreInput > MAX_USAGE - moreOutput
         || (u.total.Some? && u.total.value != moreInput + moreOutput)
         || moreInput > MAX_USAGE - input || moreOutput > MAX_USAGE - output
         || input + moreInput > MAX_USAGE - (output + moreOutput)
         || moreCached > MAX_USAGE - cached || moreReasoning > MAX_USAGE - reasoning {
        return false;
      }
      input := input + moreInput;
      output := output + moreOutput;
      cached := cached + moreCached;
      reasoning := reasoning + moreReasoning;
      return true;
    }
  }

  // -------------------------------------------------------- totals of a batch

  /** The report behind an item that counts towards the totals. */
  predicate Countable(item: Item, parse: Line -> LineUsage, endpoint: Endpoint) {
    item.usageKnown &&
    if item.state.Succeeded? then item.line.Some? && Consistent(parse(item.line.value), endpoint)
    else !item.state.Failed? && !item.state.Interrupted? && !item.linked
  }

  predicate AllCountable(items: seq<Item>, parse: Line -> LineUsage, endpoint: Endpoint) {
    forall i :: 0 <= i < |items| ==> Countable(items[i], parse, endpoint)
  }

  /** The exact sum over the succeeded items that report consistently. */
  function Sum(items: seq<Item>, parse: Line -> LineUsage, endpoint: Endpoint): (t: Totals)
    ensures 0 <= t.cached <= t.input && 0 <= t.reasoning <= t.output
  {
    if items == [] then Totals(0, 0, 0, 0)
    else
      var rest := Sum(items[..|items| - 1], parse, endpoint);
      var last := items[|items| - 1];
      if last.state.Succeeded? && last.line.Some? && Consistent(parse(last.line.value), endpoint)
      then Plus(rest, Counts(parse(last.line.value), endpoint)) else rest
  }
}
