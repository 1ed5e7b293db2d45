/** The arithmetic around hosted file search: checked integers, the input reservation, and the merging of reported
    token usage. */
module FileSearchBudget {
  import opened Common

  /** `responseUsageMaximum`: 2^53 - 1. */
  const MAXIMUM: int64 := 9007199254740991
  const CHUNK_BYTES: int64 := 65536

  predicate InRange(n: int) { 0 <= n <= MAXIMUM as int }

  /** `safePositiveProduct`: the exact product, unless an operand is negative or a product with a non-zero left operand
      leaves the range. */
  method SafePositiveProduct(left: int64, right: int64) returns (r: Option<int64>)
    ensures r.Some? <==> left >= 0 && right >= 0 && (left == 0 || InRange(left as int * right as int))
    ensures r.Some? ==> r.value as int == left as int * right as int
  {
    if left < 0 || right < 0 { return None; }
    if left != 0 {
      QuotientBound(left as int, right as int, MAXIMUM as int);
      if right > MAXIMUM / left { return None; }
    }
    return Some(left * right);
  }

  lemma QuotientBound(left: int, right: int, max: int)
    requires left > 0 && right >= 0 && max >= 0
    ensures right > max / left <==> left * right > max
    ensures left * right >= 0
  {
    var q := max / left;
    assert max == left * q + max % left;
    if right > q {
      OrderedProduct(left, q + 1, right);
      assert left * (q + 1) == left * q + left;
    } else {
      OrderedProduct(left, right, q);
    }
  }

  lemma OrderedProduct(k: nat, a: nat, b: nat)
    requires a <= b
    ensures k * a <= k * b
  {
  }

  /** `safePositiveSum`. */
  method SafePositiveSum(left: int64, right: int64) returns (r: Option<int64>)
    ensures r.Some? <==> left >= 0 && right >= 0 && InRange(left as int + right as int)
    ensures r.Some? ==> r.value as int == left as int + right as int
  {
    if left < 0 || right < 0 || left > MAXIMUM - right { return None; }
    return Some(left + right);
  }

  // -------------------------------------------------------------- reservation

  /** The validated limits of a request: at most 4 calls and 50 results a search. */
  datatype Config = Config(maxCalls: int64, maxResults: int64, maxOutput: int64)
  {
    predicate Valid() { 1 <= maxCalls <= 4 && 1 <= maxResults <= 50 && 1 <= maxOutput <= MAXIMUM }
  }

  /** What one search can add to the next request. */
  function PerSearch(config: Config): int { config.maxResults as int * CHUNK_BYTES as int }

  function Reservation(input: int, output: int, config: Config): int {
    var calls := config.maxCalls as int;
    (calls + 1) * input + calls * (calls + 1) / 2 * (PerSearch(config) + output)
  }

  /** `responseFileSearchInputReservation`: the whole formula, exactly when it is an exact JSON number. No step of the
      calculation overflows. */
  method InputReservation(input: int64, output: int64, config: Config) returns (r: Option<int64>)
    requires config.Valid()
    ensures r.Some? <==> input >= 0 && output >= 0 && InRange(Reservation(input as int, output as int, config))
    ensures r.Some? ==> r.value as int == Reservation(input as int, output as int, config)
  {
    var calls := config.maxCalls;
    if input >= 0 && output >= 0 { PartsBelowTotal(calls as int, input as int, PerSearch(config), output as int); }
    var inputFactor := SafePositiveProduct(calls + 1, input);
    if inputFactor.None? { return None; }
    var repeated := calls * (calls + 1) / 2;
    var perSearch := SafePositiveProduct(config.maxResults, CHUNK_BYTES);
    if perSearch.None? { return None; }
    var perRound := SafePositiveSum(perSearch.value, output);
    if perRound.None? { return None; }
    var repeatedInput := SafePositiveProduct(repeated, perRound.value);
    if repeatedInput.None? { return None; }
    r := SafePositiveSum(inputFactor.value, repeatedInput.value);
  }

  lemma PartsBelowTotal(calls: int, input: int, perSearch: int, output: int)
    requires 1 <= calls && 0 <= input && 0 <= perSearch && 0 <= output
    ensures var repeated := calls * (calls + 1) / 2;
            1 <= repeated && 0 <= (calls + 1) * input && perSearch + output <= repeated * (perSearch + output)
  {
    assert calls * (calls + 1) >= 2 by { assert calls * (calls + 1) >= 1 * 2; }
  }

  // ------------------------------------------------- spreading calls over rounds

  /** A continuing round: the search calls it made (at least one) and the output the provider reported. */
  datatype Round = Round(calls: nat, output: nat)

  function CallsOf(rounds: seq<Round>): nat {
    if rounds == [] then 0 else rounds[0].calls + CallsOf(rounds[1..])
  }

  function OutputOf(rounds: seq<Round>): nat {
    if rounds == [] then 0 else rounds[0].output + OutputOf(rounds[1..])
  }

  /** Input of all dispatches when each round adds its output and its search results to every later one. */
  function TotalInput(input: nat, perSearch: nat, rounds: seq<Round>): nat
    decreases |rounds|
  {
    if rounds == [] then input
    else input + TotalInput(input + rounds[0].output + rounds[0].calls * perSearch, perSearch, rounds[1..])
  }

  function Triangle(n: nat): nat { n * (n + 1) / 2 }

  /** However the calls are spread over rounds, the input of all dispatches together stays within the formula. */
  lemma {:induction false} SpreadBound(input: nat, perSearch: nat, limit: nat, rounds: seq<Round>, calls: nat)
    requires forall i :: 0 <= i < |rounds| ==> rounds[i].calls >= 1 && rounds[i].output <= limit
    requires CallsOf(rounds) <= calls
    ensures TotalInput(input, perSearch, rounds) <= (calls + 1) * input + Triangle(calls) * (perSearch + limit)
    decreases |rounds|
  {
    if rounds == [] {
      assert (calls + 1) * input >= input by { Product(calls, input); }
      Product(Triangle(calls), perSearch + limit);
    } else {
      var c := rounds[0].calls;
      var left := calls - c;
      var more := rounds[0].output + c * perSearch;
      SpreadBound(input + more, perSearch, limit, rounds[1..], left);
      Carry(left, c, perSearch, limit, rounds[0].output, input);
    }
  }

  lemma Product(a: int, b: int)
    requires 0 <= a && 0 <= b
    ensures 0 <= a * b && (a + 1) * b == a * b + b
  {
  }

  /** One round with `c` calls and `left` calls after it: what it adds to the later dispatches fits in the share of
      the triangle between `left` and `left + c`. */
  lemma Carry(left: nat, c: nat, perSearch: nat, limit: nat, output: nat, input: nat)
    requires c >= 1 && output <= limit
    ensures input + (left + 1) * (input + output + c * perSearch) + Triangle(left) * (perSearch + limit)
            <= (left + c + 1) * input + Triangle(left + c) * (perSearch + limit)
  {
    hide Triangle;
    TriangleStep(left, c);
    var share := Triangle(left + c) - Triangle(left);
    CarryInput(left, c, input);
    CarryOutput(left + 1, c, share, output, limit);
    CarrySearch(left + 1, c, share, perSearch);
    Distribute(left + 1, input, output, c * perSearch);
    Shares(Triangle(left), share, perSearch, limit);
  }

  lemma CarryInput(left: nat, c: nat, input: nat)
    requires c >= 1
    ensures input + (left + 1) * input <= (left + c + 1) * input
  {
    Monotone2(left + 2, left + c + 1, input);
    assert (left + 2) * input == (left + 1) * input + input;
  }

  lemma CarryOutput(k: nat, c: nat, share: int, output: nat, limit: nat)
    requires c >= 1 && share >= k * c && output <= limit
    ensures k * output <= share * limit
  {
    Monotone(k, 1, c);
    Monotone(k, output, limit);
    Monotone2(k, share, limit);
  }

  lemma CarrySearch(k: nat, c: nat, share: int, perSearch: nat)
    requires share >= k * c
    ensures k * (c * perSearch) <= share * perSearch
  {
    assert k * (c * perSearch) == (k * c) * perSearch;
    assert 0 <= k * c;
    Monotone2(k * c, share, perSearch);
  }

  lemma Shares(base: nat, share: int, perSearch: nat, limit: nat)
    ensures (base + share) * (perSearch + limit) == base * (perSearch + limit) + share * perSearch + share * limit
  {
  }

  lemma Distribute(k: nat, a: nat, b: nat, d: nat)
    ensures k * (a + b + d) == k * a + k * b + k * d
  {
  }

  lemma Monotone(k: nat, a: nat, b: nat)
    requires a <= b
    ensures k * a <= k * b
  {
  }

  lemma Monotone2(a: nat, b: nat, k: nat)
    requires a <= b
    ensures a * k <= b * k
  {
  }

  lemma {:induction false} TriangleStep(left: nat, c: nat)
    requires c >= 1
    ensures Triangle(left + c) - Triangle(left) >= (left + 1) * c
  {
    TriangleNext(left + c - 1);
    if c > 1 {
      TriangleStep(left, c - 1);
      assert (left + 1) * c == (left + 1) * (c - 1) + left + 1;
    }
  }

  lemma TriangleNext(n: nat)
    ensures Triangle(n + 1) == Triangle(n) + n + 1
  {
    assert (n + 1) * (n + 2) == n * (n + 1) + 2 * (n + 1);
  }

  /** The reservation dominates every run that keeps the call and output limits. */
  lemma ReservationDominates(input: nat, config: Config, rounds: seq<Round>)
    requires config.Valid() && CallsOf(rounds) <= config.maxCalls as int && OutputOf(rounds) <= config.maxOutput as int
    requires forall i :: 0 <= i < |rounds| ==> rounds[i].calls >= 1
    ensures TotalInput(input, PerSearch(config), rounds) <= Reservation(input, config.maxOutput as int, config)
  {
    forall i | 0 <= i < |rounds| ensures rounds[i].output <= config.maxOutput as int { OneOfSum(rounds, i); }
    SpreadBound(input, PerSearch(config), config.maxOutput as int, rounds, config.maxCalls as int);
  }

  lemma {:induction false} OneOfSum(rounds: seq<Round>, i: nat)
    requires i < |rounds|
    ensures rounds[i].output <= OutputOf(rounds)
  {
    if i > 0 { OneOfSum(rounds[1..], i - 1); }
  }

  lemma {:induction false} RoundsAppend(rounds: seq<Round>, round: Round)
    ensures CallsOf(rounds + [round]) == CallsOf(rounds) + round.calls
    ensures OutputOf(rounds + [round]) == OutputOf(rounds) + round.output
  {
    if rounds == [] {
      assert rounds + [round] == [round] && [round][1..] == [];
    } else {
      RoundsAppend(rounds[1..], round);
      assert (rounds + [round])[1..] == rounds[1..] + [round];
    }
  }

  lemma {:induction false} EveryRoundCalls(rounds: seq<Round>)
    requires forall i :: 0 <= i < |rounds| ==> rounds[i].calls >= 1
    ensures |rounds| <= CallsOf(rounds)
  {
    if rounds != [] { EveryRoundCalls(rounds[1..]); }
  }

  // ---------------------------------------------------------- usage merging

  /** A value of a reported usage object; `Fraction` stands for every number that is not a 64-bit integer. */
  datatype Value = Number(n: int) | Fraction | Object(fields: seq<Field>) | Null | Other

  datatype Field = Field(name: string, value: Value)

  datatype Count = Sum(n: int) | Nested(counts: map<string, Count>)

  type Counts = map<string, Count>

  /** `responseUsageInteger`. */
  function Integer(v: Value): Option<int> { if v.Number? && InRange(v.n) then Some(v.n) else None }

  function Previous(total: Counts, name: string): int {
    if name in total && total[name].Sum? then total[name].n else 0
  }

  /** One entry of `mergeResponseUsageMap`. */
  function MergeField(total: Counts, name: string, value: Value): (Counts, bool)
    decreases value
  {
    match value
    case Object(fields) =>
      var nested := if name in total && total[name].Nested? then total[name].counts else map[];
      var (merged, ok) := MergeFields(nested, fields);
      (total[name := Nested(merged)], ok)
    case Null => (total, true)
    case Other => (total, false)
    case _ =>
      if Integer(value).None? || Integer(value).value > MAXIMUM as int - Previous(total, name) then (total, false)
      else (total[name := Sum(Previous(total, name) + Integer(value).value)], true)
  }

  /** The entries in the order the map happens to yield them, up to the first that cannot be merged. */
  function MergeFields(total: Counts, fields: seq<Field>): (Counts, bool)
    decreases fields
  {
    if fields == [] then (total, true)
    else
      var (next, ok) := MergeField(total, fields[0].name, fields[0].value);
      if ok then MergeFields(next, fields[1..]) else (next, false)
  }

  ghost predicate Distinct(fields: seq<Field>) {
    forall i, j :: 0 <= i < j < |fields| ==> fields[i].name != fields[j].name
  }

  /** Two totals agree on a name. */
  predicate Agree(a: Counts, b: Counts, name: string) { (name in a <==> name in b) && (name in a ==> a[name] == b[name]) }

  lemma MergeFieldIsLocal(a: Counts, b: Counts, name: string, value: Value)
    requires Agree(a, b, name)
    ensures MergeField(a, name, value).1 == MergeField(b, name, value).1
    ensures Agree(MergeField(a, name, value).0, MergeField(b, name, value).0, name)
    ensures forall other :: other != name ==> Agree(MergeField(a, name, value).0, a, other)
  {
  }

  /** Each entry is merged on its own: all succeed or the merge fails, and every name ends as its entry alone would
      leave it. */
  lemma {:induction false} MergeIsPointwise(total: Counts, fields: seq<Field>)
    requires Distinct(fields)
    decreases |fields|
    ensures MergeFields(total, fields).1 <==> forall i :: 0 <= i < |fields| ==> MergeField(total, fields[i].name, fields[i].value).1
    ensures MergeFields(total, fields).1 ==>
              && (forall i :: 0 <= i < |fields| ==>
                    Agree(MergeFields(total, fields).0, MergeField(total, fields[i].name, fields[i].value).0, fields[i].name))
              && (forall name :: (forall i :: 0 <= i < |fields| ==> fields[i].name != name) ==>
                    Agree(MergeFields(total, fields).0, total, name))
  {
    if fields != [] {
      var (next, ok) := MergeField(total, fields[0].name, fields[0].value);
      var rest := fields[1..];
      MergeFieldIsLocal(total, total, fields[0].name, fields[0].value);
      forall i | 0 <= i < |rest|
        ensures MergeField(next, rest[i].name, rest[i].value).1 == MergeField(total, fields[i + 1].name, fields[i + 1].value).1
        ensures Agree(MergeField(next, rest[i].name, rest[i].value).0, MergeField(total, fields[i + 1].name, fields[i + 1].value).0, rest[i].name)
      {
        assert rest[i] == fields[i + 1] && fields[0].name != fields[i + 1].name;
        MergeFieldIsLocal(next, total, rest[i].name, rest[i].value);
      }
      assert forall i :: 1 <= i < |fields| ==> fields[i] == rest[i - 1];
      if ok {
        MergeIsPointwise(next, rest);
      }
    }
    forall name | forall i :: 0 <= i < |fields| ==> fields[i].name != name
      ensures Agree(MergeFields(total, fields).0, total, name)
    {
      Untouched(total, fields, name);
    }
  }

  lemma {:induction false} Untouched(total: Counts, fields: seq<Field>, name: string)
    requires forall i :: 0 <= i < |fields| ==> fields[i].name != name
    ensures Agree(MergeFields(total, fields).0, total, name)
    decreases |fields|
  {
    if fields != [] {
      var (next, ok) := MergeField(total, fields[0].name, fields[0].value);
      MergeFieldIsLocal(total, total, fields[0].name, fields[0].value);
      assert forall i :: 0 <= i < |fields[1..]| ==> fields[1..][i] == fields[i + 1];
      if ok { Untouched(next, fields[1..], name); }
    }
  }

  /** The result does not depend on the order in which the entries are visited. */
  lemma MergeOrderIsIrrelevant(total: Counts, a: seq<Field>, b: seq<Field>)
    requires Distinct(a) && Distinct(b) && forall f :: f in a <==> f in b
    ensures MergeFields(total, a).1 == MergeFields(total, b).1
    ensures MergeFields(total, a).1 ==> MergeFields(total, a).0 == MergeFields(total, b).0
  {
    MergeIsPointwise(total, a);
    MergeIsPointwise(total, b);
    if MergeFields(total, b).1 { SameOutcome(total, a, b); }
    if MergeFields(total, a).1 { SameOutcome(total, b, a); }
    if MergeFields(total, a).1 {
      var x, y := MergeFields(total, a).0, MergeFields(total, b).0;
      forall name ensures Agree(x, y, name) {
        if i :| 0 <= i < |a| && a[i].name == name {
          assert a[i] in b;
          var j :| 0 <= j < |b| && b[j] == a[i];
          assert Agree(x, MergeField(total, a[i].name, a[i].value).0, name) && Agree(y, MergeField(total, b[j].name, b[j].value).0, name);
        } else {
          forall j | 0 <= j < |b| ensures b[j].name != name { assert b[j] in a; }
          assert Agree(x, total, name) && Agree(y, total, name);
        }
      }
      assert forall name :: name in x <==> name in y by { forall name ensures name in x <==> name in y { assert Agree(x, y, name); } }
      assert forall name :: name in x ==> x[name] == y[name] by { forall name | name in x ensures x[name] == y[name] { assert Agree(x, y, name); } }
      assert x == y;
    }
  }

  lemma SameOutcome(total: Counts, a: seq<Field>, b: seq<Field>)
    requires forall f :: f in a ==> f in b
    requires forall j :: 0 <= j < |b| ==> MergeField(total, b[j].name, b[j].value).1
    ensures forall i :: 0 <= i < |a| ==> MergeField(total, a[i].name, a[i].value).1
  {
    hide MergeField;
    forall i | 0 <= i < |a| ensures MergeField(total, a[i].name, a[i].value).1 {
      assert a[i] in b;
      var j :| 0 <= j < |b| && b[j] == a[i];
    }
  }
}
