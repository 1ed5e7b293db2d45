/** Admission of background work: the three queues share one set of job caps, and the retained Message Batch items stay
    within the caps their creation was checked against. */
module Admission {
  import opened Common
  import opened BatchLines
  import B = BatchMachine
  import BS = BatchSafety
  import BR = BatchRuns
  import R = ResponseMachine
  import RS = ResponseSafety
  import RR = ResponseRuns

  /** Whose resources a cap counts. */
  datatype Scope = All | Owner(owner: nat) | Key(key: nat)

  predicate In(scope: Scope, owner: nat, key: nat) { scope.All? || scope == Owner(owner) || scope == Key(key) }

  /** `backgroundQueueJobs`, `backgroundOwnerJobs`, `backgroundKeyJobs`. */
  function JobCap(scope: Scope): nat { if scope.All? then 32 else if scope.Owner? then 16 else 4 }

  /** `backgroundQueueBytes`, `backgroundOwnerBytes`, `backgroundKeyBytes`. */
  function QueueByteCap(scope: Scope): nat { if scope.All? then 67108864 else if scope.Owner? then 33554432 else 16777216 }

  /** `retainedResponseJobs`, `retainedOwnerJobs`, `retainedKeyJobs`. */
  function RetainedCap(scope: Scope): nat { if scope.All? then 10000 else if scope.Owner? then 2500 else 250 }

  function RetainedByteCap(scope: Scope): nat {
    if scope.All? then 1073741824 else if scope.Owner? then 536870912 else 134217728
  }

  /** `reserved_result_bytes` of a Message Batch item. */
  const RESERVED: nat := MAX_INFERENCE_BODY

  /** The nonce and the tag that AES-GCM adds to a payload. */
  const SEALING: nat := 28

  /** How much longer a Response's stored body gets when its status turns from "queued" to "in_progress". */
  const ANNOUNCEMENT: nat := 5

  /** From the processing deadline of a Message Batch (24 hours) to the end of its retention (29 days), in ms. */
  const RETENTION_AFTER_DEADLINE: nat := 2419200000

  type ItemKey = (nat, nat)

  datatype Gateway = Gateway(batches: B.System, responses: R.System)

  // --------------------------------------------------------------------- sums

  ghost function Sum<K(!new)>(m: map<K, nat>): nat
    decreases |m|
  {
    if m == map[] then 0
    else
      var k :| k in m;
      m[k] + Sum(m - {k})
  }

  /** The entries with one of the given keys. */
  ghost function Part<K(!new)>(m: map<K, nat>, keys: set<K>): map<K, nat> { map k | k in m && k in keys :: m[k] }

  lemma EmptySum<K(!new)>()
    ensures Sum<K>(map[]) == 0
  {
  }

  lemma {:induction false} SumRemove<K(!new)>(m: map<K, nat>, k: K)
    requires k in m
    ensures Sum(m) == m[k] + Sum(m - {k})
    decreases |m|
  {
    var c :| c in m && Sum(m) == m[c] + Sum(m - {c});
    if c != k {
      SumRemove(m - {c}, k);
      SumRemove(m - {k}, c);
      assert m - {c} - {k} == m - {k} - {c};
    }
  }

  /** Fewer entries, none of them larger, sum to no more. */
  lemma {:induction false} SumShrinks<K(!new)>(a: map<K, nat>, b: map<K, nat>)
    requires b.Keys <= a.Keys && forall k :: k in b ==> b[k] <= a[k]
    ensures Sum(b) <= Sum(a) && |b.Keys| <= |a.Keys|
    decreases |a|
  {
    hide Sum;
    EmptySum<K>();
    if a == map[] {
      assert b == map[];
    } else {
      var k :| k in a;
      SumRemove(a, k);
      if k in b { SumRemove(b, k); } else { assert b - {k} == b; }
      assert (a - {k}).Keys == a.Keys - {k} && (b - {k}).Keys == b.Keys - {k};
      SumShrinks(a - {k}, b - {k});
    }
  }

  lemma SumNew<K(!new)>(m: map<K, nat>, k: K, v: nat)
    requires k !in m
    ensures Sum(m[k := v]) == Sum(m) + v && |m[k := v].Keys| == |m.Keys| + 1
  {
    hide Sum;
    SumRemove(m[k := v], k);
    assert m[k := v] - {k} == m;
    assert m[k := v].Keys == m.Keys + {k};
  }

  lemma TakeOne<K(!new)>(b: map<K, nat>, k: K)
    requires k in b
    ensures var init := b - {k}; b == init[k := b[k]] && k !in init && init.Keys == b.Keys - {k} && |init| < |b|
  {
    assert b.Keys == (b - {k}).Keys + {k};
  }

  lemma PutRight<K(!new)>(a: map<K, nat>, b: map<K, nat>, init: map<K, nat>, k: K)
    requires k !in a && k in b && k !in init && b == init[k := b[k]]
    ensures k !in a + init && a + b == (a + init)[k := b[k]]
  {
    assert a + init[k := b[k]] == (a + init)[k := b[k]];
  }

  lemma NothingRight<K(!new)>(a: map<K, nat>, b: map<K, nat>)
    requires b == map[]
    ensures a + b == a
  {
  }

  lemma {:induction false} SumUnion<K(!new)>(a: map<K, nat>, b: map<K, nat>)
    requires a.Keys !! b.Keys
    ensures Sum(a + b) == Sum(a) + Sum(b)
    decreases |b|
  {
    hide Sum;
    if b == map[] {
      EmptySum<K>();
      NothingRight(a, b);
    } else {
      var k :| k in b;
      var init := b - {k};
      TakeOne(b, k);
      PutRight(a, b, init, k);
      SumUnion(a, init);
      SumNew(init, k, b[k]);
      SumNew(a + init, k, b[k]);
    }
  }

  /** Entries that were there and did not grow, together with some added ones. */
  lemma SumReleases<K(!new)>(a: map<K, nat>, b: map<K, nat>, added: set<K>)
    requires forall k :: k in b && k !in added ==> k in a && b[k] <= a[k]
    ensures Sum(b) <= Sum(a) + Sum(Part(b, added)) && |b.Keys| <= |a.Keys| + |Part(b, added).Keys|
  {
    hide Sum, Part;
    var kept := b - added;
    PartSplits(b, added);
    SumUnion(kept, Part(b, added));
    SumShrinks(a, kept);
  }

  lemma PartSplits<K(!new)>(m: map<K, nat>, keys: set<K>)
    ensures var kept, part := m - keys, Part(m, keys);
            && kept.Keys !! part.Keys && m == kept + part && m.Keys == kept.Keys + part.Keys
  {
    var kept, part := m - keys, Part(m, keys);
    assert m.Keys == (kept + part).Keys;
  }

  lemma {:induction false} SumAdds<K(!new)>(a: map<K, nat>, b: map<K, nat>, c: map<K, nat>)
    requires a.Keys == b.Keys == c.Keys && forall k :: k in a ==> a[k] == b[k] + c[k]
    ensures Sum(a) == Sum(b) + Sum(c)
    decreases |a|
  {
    hide Sum;
    EmptySum<K>();
    if a == map[] {
      assert b == map[] && c == map[];
    } else {
      var k :| k in a;
      SumRemove(a, k);
      SumRemove(b, k);
      SumRemove(c, k);
      SumAdds(a - {k}, b - {k}, c - {k});
    }
  }

  lemma Times(a: nat, b: nat, most: nat, each: nat)
    requires a + b <= most
    ensures a * each + b * each == (a + b) * each <= most * each
  {
  }

  lemma {:induction false} SumBounded<K(!new)>(m: map<K, nat>, most: nat)
    requires forall k :: k in m ==> m[k] <= most
    ensures Sum(m) <= |m.Keys| * most
    decreases |m|
  {
    hide Sum;
    EmptySum<K>();
    if m != map[] {
      var k :| k in m;
      SumRemove(m, k);
      assert (m - {k}).Keys == m.Keys - {k};
      SumBounded(m - {k}, most);
      Times(|m.Keys| - 1, 1, |m.Keys|, most);
    }
  }

  lemma SumPut<K(!new)>(m: map<K, nat>, k: K, more: nat)
    requires k in m
    ensures Sum(m[k := m[k] + more]) == Sum(m) + more
  {
    SumRemove(m, k);
    SumRemove(m[k := m[k] + more], k);
    assert m[k := m[k] + more] - {k} == m - {k};
  }

  // ------------------------------------------------------------- what counts

  ghost function ActiveItems(s: B.System, scope: Scope): set<ItemKey> {
    set id, i | id in s.db && 0 <= i < |s.db[id].items| && s.db[id].items[i].state.Active()
                && In(scope, s.db[id].owner, s.db[id].key) :: (id, i)
  }

  ghost function ActiveResponses(s: R.System, scope: Scope): set<nat> {
    set id | id in s.db && s.db[id].phase.Active() && In(scope, s.db[id].owner, s.db[id].key)
  }

  /** The jobs that `checkBackgroundQueueCapacity` counts over the three tables. */
  ghost function ActiveJobs(g: Gateway, scope: Scope): nat {
    |ActiveItems(g.batches, scope)| + |ActiveResponses(g.responses, scope)|
  }

  function LineBytes(item: B.Item): nat { if item.line.Some? then Size(item.line.value) else 0 }

  /** What the stored columns of an active item hold beyond the bytes its admission counted: OpenAI Batches seal the
      request and the result, and a result is stored as soon as the item settles. */
  function ItemGrowth(kind: B.Kind, item: B.Item): nat {
    (if kind.OpenAIBatch? then SEALING else 0) + if item.line.Some? then ResultBytes(kind, item.line.value) else 0
  }

  function ResultBytes(kind: B.Kind, line: Line): nat { Size(line) + if kind.OpenAIBatch? then SEALING else 0 }

  function ResponseGrowth(r: R.Response): nat { if r.announced then ANNOUNCEMENT else 0 }

  ghost function AdmittedItems(s: B.System, scope: Scope): map<ItemKey, nat> {
    map k | k in ActiveItems(s, scope) :: s.db[k.0].items[k.1].requestBytes
  }

  ghost function GrownItems(s: B.System, scope: Scope): map<ItemKey, nat> {
    map k | k in ActiveItems(s, scope) :: ItemGrowth(s.db[k.0].kind, s.db[k.0].items[k.1])
  }

  ghost function QueuedItems(s: B.System, scope: Scope): map<ItemKey, nat> {
    map k | k in ActiveItems(s, scope) :: s.db[k.0].items[k.1].requestBytes + ItemGrowth(s.db[k.0].kind, s.db[k.0].items[k.1])
  }

  ghost function AdmittedResponses(s: R.System, scope: Scope): map<nat, nat> {
    map id | id in ActiveResponses(s, scope) :: s.db[id].bytes
  }

  ghost function GrownResponses(s: R.System, scope: Scope): map<nat, nat> {
    map id | id in ActiveResponses(s, scope) :: ResponseGrowth(s.db[id])
  }

  ghost function QueuedResponses(s: R.System, scope: Scope): map<nat, nat> {
    map id | id in ActiveResponses(s, scope) :: s.db[id].bytes + ResponseGrowth(s.db[id])
  }

  /** The bytes that `checkBackgroundQueueCapacity` counts over the three tables. */
  ghost function QueueBytes(g: Gateway, scope: Scope): nat {
    Sum(QueuedItems(g.batches, scope)) + Sum(QueuedResponses(g.responses, scope))
  }

  /** The bytes with which the work that is active was admitted, and what it has grown by since. */
  ghost function AdmittedBytes(g: Gateway, scope: Scope): nat {
    Sum(AdmittedItems(g.batches, scope)) + Sum(AdmittedResponses(g.responses, scope))
  }

  ghost function GrownBytes(g: Gateway, scope: Scope): nat {
    Sum(GrownItems(g.batches, scope)) + Sum(GrownResponses(g.responses, scope))
  }

  predicate Kept(s: B.System, id: nat) {
    id in s.db && s.db[id].kind.MessageBatch? && s.now < s.db[id].deadline + RETENTION_AFTER_DEADLINE
  }

  /** The size that `checkRetainedResourceCapacity` counts for a Message Batch item. */
  function RetainedBytes(item: B.Item): nat {
    item.requestBytes
    + if item.state.Active() then (if LineBytes(item) > RESERVED then LineBytes(item) else RESERVED) else LineBytes(item)
  }

  ghost function KeptKeys(s: B.System, scope: Scope): set<ItemKey> {
    set id, i | id in s.db && 0 <= i < |s.db[id].items| && Kept(s, id) && In(scope, s.db[id].owner, s.db[id].key) :: (id, i)
  }

  /** The Message Batch items that are retained, with what they retain. */
  ghost function KeptItems(s: B.System, scope: Scope): map<ItemKey, nat> {
    map k | k in KeptKeys(s, scope) :: RetainedBytes(s.db[k.0].items[k.1])
  }

  // --------------------------------------------------------------- admission

  ghost predicate QueueRoom(g: Gateway, owner: nat, key: nat, count: nat, bytes: nat) {
    forall scope :: scope in {All, Owner(owner), Key(key)} ==>
      ActiveJobs(g, scope) + count <= JobCap(scope) && QueueBytes(g, scope) + bytes <= QueueByteCap(scope)
  }

  /** Room for a new Message Batch next to whatever else is retained (`others` counts the other tables). */
  ghost predicate RetainedRoom(s: B.System, scope: Scope, count: nat, bytes: nat, others: (nat, nat)) {
    && |KeptItems(s, scope).Keys| + others.0 + count <= RetainedCap(scope)
    && Sum(KeptItems(s, scope)) + others.1 + bytes <= RetainedByteCap(scope)
  }

  function RequestBytes(items: seq<B.Item>): nat {
    if items == [] then 0 else RequestBytes(items[..|items| - 1]) + items[|items| - 1].requestBytes
  }

  datatype Step =
    | BatchStep(batch: B.Step, body: nat, others: map<Scope, (nat, nat)>)
    | ResponseStep(response: R.Step)

  /** `createOpenAIBatch` asks for queue room for its request bodies; `createMessageBatch` for its whole request body, and
      reserves a full result for every item besides. */
  ghost predicate Admits(g: Gateway, step: Step)
    requires step.BatchStep? && step.batch.Create?
  {
    var b := step.batch.batch;
    && QueueRoom(g, b.owner, b.key, |b.items|, if b.kind.MessageBatch? then step.body else RequestBytes(b.items))
    && (b.kind.MessageBatch? ==>
          RequestBytes(b.items) <= step.body
          && forall scope :: scope in {All, Owner(b.owner), Key(b.key)} ==>
               scope in step.others && RetainedRoom(g.batches, scope, |b.items|, step.body + |b.items| * RESERVED, step.others[scope]))
  }

  ghost predicate Next(g: Gateway, step: Step, h: Gateway) {
    match step
    case BatchStep(batch, _, _) =>
      h.responses == g.responses && B.Next(g.batches, batch, h.batches) && (batch.Create? ==> Admits(g, step))
    case ResponseStep(response) =>
      h.batches == g.batches && R.Next(g.responses, response, h.responses)
      && (response.Enqueue? ==> QueueRoom(g, response.response.owner, response.response.key, 1, response.response.bytes))
  }

  ghost predicate Run(states: seq<Gateway>, steps: seq<Step>) {
    |states| == |steps| + 1 && B.Init(states[0].batches) && R.Init(states[0].responses)
    && forall i :: 0 <= i < |steps| ==> Next(states[i], steps[i], states[i + 1])
  }

  // --------------------------------------------------------------- invariant

  ghost predicate ScopeOk(g: Gateway, scope: Scope) {
    && ActiveJobs(g, scope) <= JobCap(scope) && AdmittedBytes(g, scope) <= QueueByteCap(scope)
    && |KeptItems(g.batches, scope).Keys| <= RetainedCap(scope)
    && Sum(KeptItems(g.batches, scope)) <= RetainedByteCap(scope)
  }

  ghost predicate Inv(g: Gateway) { BR.Inv(g.batches) && RS.Inv(g.responses) && forall scope :: ScopeOk(g, scope) }

  /** The queue counts what it admitted and what that has grown by. */
  lemma QueueSplits(g: Gateway, scope: Scope)
    ensures QueueBytes(g, scope) == AdmittedBytes(g, scope) + GrownBytes(g, scope)
  {
    hide ActiveItems, ActiveResponses;
    SumAdds(QueuedItems(g.batches, scope), AdmittedItems(g.batches, scope), GrownItems(g.batches, scope));
    SumAdds(QueuedResponses(g.responses, scope), AdmittedResponses(g.responses, scope), GrownResponses(g.responses, scope));
  }

  // ------------------------------------------------------- rows only release

  /** An item's retained size never exceeds its request and the result it reserved. */
  lemma ReservationCovers(b: B.Batch, i: nat)
    requires BS.BatchOk(b) && b.kind.MessageBatch? && i < |b.items|
    ensures RetainedBytes(b.items[i]) <= b.items[i].requestBytes + RESERVED
    ensures b.items[i].state.Active() ==> RetainedBytes(b.items[i]) == b.items[i].requestBytes + RESERVED
  {
    hide Size;
    assert BS.ItemOk(b.kind, b.total, b.items[i]);
  }

  /** Whatever happens to an item that exists, it stays or stops being active, and it never retains more. */
  lemma ItemReleases(s: B.System, t: B.System, k: ItemKey)
    requires BR.Inv(s) && BR.Inv(t) && BR.Evolves(s, t) && k.0 in s.used && B.HasItem(t, k.0, k.1)
    ensures B.HasItem(s, k.0, k.1)
            && s.db[k.0].owner == t.db[k.0].owner && s.db[k.0].key == t.db[k.0].key && s.db[k.0].kind == t.db[k.0].kind
            && s.db[k.0].deadline == t.db[k.0].deadline && s.now <= t.now
    ensures var x, y := B.ItemAt(s, k.0, k.1), B.ItemAt(t, k.0, k.1);
            && (y.state.Active() ==> x.state.Active()) && x.requestBytes == y.requestBytes
            && (s.db[k.0].kind.MessageBatch? ==> RetainedBytes(y) <= RetainedBytes(x))
  {
    hide Size, BR.Calls, BR.Finalized, BS.ItemOk, BS.PcOk;
    var a, b := s.db[k.0], t.db[k.0];
    assert BR.BatchEvolves(a, b);
    assert BS.BatchOk(a) && BS.BatchOk(b);
    if a.kind.MessageBatch? {
      ReservationCovers(a, k.1);
      ReservationCovers(b, k.1);
    }
  }

  /** Items that are not those of one newly created batch were counted before, with no less. */
  lemma ItemsRelease(s: B.System, t: B.System, added: set<ItemKey>, scope: Scope)
    requires BR.Inv(s) && BR.Inv(t) && BR.Evolves(s, t)
    requires forall k: ItemKey :: B.HasItem(t, k.0, k.1) && k.0 !in s.used ==> k in added
    ensures forall k :: k in AdmittedItems(t, scope) && k !in added ==>
              k in AdmittedItems(s, scope) && AdmittedItems(t, scope)[k] <= AdmittedItems(s, scope)[k]
    ensures forall k :: k in KeptItems(t, scope) && k !in added ==>
              k in KeptItems(s, scope) && KeptItems(t, scope)[k] <= KeptItems(s, scope)[k]
  {
    hide BR.Inv, BR.Evolves, RetainedBytes;
    forall k | k in AdmittedItems(t, scope) && k !in added
      ensures k in AdmittedItems(s, scope) && AdmittedItems(t, scope)[k] <= AdmittedItems(s, scope)[k]
    {
      ItemReleases(s, t, k);
    }
    forall k | k in KeptItems(t, scope) && k !in added
      ensures k in KeptItems(s, scope) && KeptItems(t, scope)[k] <= KeptItems(s, scope)[k]
    {
      ItemReleases(s, t, k);
    }
  }

  lemma SameKeys(s: B.System, r: R.System, scope: Scope)
    ensures AdmittedItems(s, scope).Keys == ActiveItems(s, scope) && AdmittedResponses(r, scope).Keys == ActiveResponses(r, scope)
  {
    hide ActiveItems, ActiveResponses;
  }

  /** What the items of a state count for, against the state before and the added ones. */
  lemma ItemSums(g: Gateway, h: Gateway, added: set<ItemKey>, scope: Scope)
    requires BR.Inv(g.batches) && BR.Inv(h.batches) && BR.Evolves(g.batches, h.batches) && h.responses == g.responses
    requires forall k: ItemKey :: B.HasItem(h.batches, k.0, k.1) && k.0 !in g.batches.used ==> k in added
    ensures ActiveJobs(h, scope) <= ActiveJobs(g, scope) + |Part(AdmittedItems(h.batches, scope), added).Keys|
    ensures AdmittedBytes(h, scope) <= AdmittedBytes(g, scope) + Sum(Part(AdmittedItems(h.batches, scope), added))
    ensures |KeptItems(h.batches, scope).Keys| <= |KeptItems(g.batches, scope).Keys| + |Part(KeptItems(h.batches, scope), added).Keys|
    ensures Sum(KeptItems(h.batches, scope)) <= Sum(KeptItems(g.batches, scope)) + Sum(Part(KeptItems(h.batches, scope), added))
  {
    hide BR.Inv, BR.Evolves, AdmittedItems, KeptItems, ActiveItems, ActiveResponses, AdmittedResponses, Part, Sum;
    var s, t := g.batches, h.batches;
    ItemsRelease(s, t, added, scope);
    SumReleases(AdmittedItems(s, scope), AdmittedItems(t, scope), added);
    SumReleases(KeptItems(s, scope), KeptItems(t, scope), added);
    SameKeys(s, g.responses, scope);
    SameKeys(t, h.responses, scope);
  }

  // -------------------------------------------------------------- batch steps

  lemma OnlyCreateIntroduces(s: B.System, step: B.Step, t: B.System, k: ItemKey)
    requires BR.Inv(s) && B.Next(s, step, t) && B.HasItem(t, k.0, k.1) && k.0 !in s.used
    ensures step.Create? && k.0 == step.id && k.1 < |step.batch.items| && t.db[step.id] == step.batch
  {
    hide BS.BatchOk, BS.PcOk, BR.Calls, BR.Finalized, B.NewBatch;
    if B.Works(step) {
      BR.WorkerKeepsFiles(s, step, t);
      WorkerCreatesNothing(s, step, t);
    } else {
      TableCreatesOne(s, step, t, k.0);
    }
  }

  lemma WorkerCreatesNothing(s: B.System, step: B.Step, t: B.System)
    requires B.Works(step)
    requires B.WorkerStep(s, step, t)
    ensures t.db.Keys == s.db.Keys
  {
    hide B.NoticeFinish, B.Judge, B.Check, B.StartFinish, B.FinishItem, B.EndIfDone;
  }

  lemma TableCreatesOne(s: B.System, step: B.Step, t: B.System, id: nat)
    requires !B.Works(step)
    requires B.TableStep(s, step, t) && id in t.db && id !in s.db
    ensures step.Create? && id == step.id && t.db[id] == step.batch
  {
    hide B.RecoverItem, B.StopItem, B.CancelBatch, B.EndIfDone, B.NewBatch, B.CanFinalize, B.Finalize;
  }

  function ItemKeys(id: nat, n: nat): (r: set<ItemKey>)
    ensures |r| == n && forall k :: k in r <==> k.0 == id && k.1 < n
  {
    if n == 0 then {} else ItemKeys(id, n - 1) + {(id, n - 1)}
  }

  /** New items, each counted with its request and something extra. */
  ghost function FreshItems(id: nat, items: seq<B.Item>, extra: nat): (m: map<ItemKey, nat>)
    ensures m.Keys == ItemKeys(id, |items|)
    ensures forall k :: k in m ==> m[k] == items[k.1].requestBytes + extra
  {
    if items == [] then map[]
    else
      var n := |items| - 1;
      FreshItems(id, items[..n], extra)[(id, n) := items[n].requestBytes + extra]
  }

  lemma {:induction false} FreshSum(id: nat, items: seq<B.Item>, extra: nat)
    ensures Sum(FreshItems(id, items, extra)) == RequestBytes(items) + |items| * extra
  {
    hide ItemKeys, Sum, FreshItems;
    FreshNext(id, items, extra);
    if items == [] {
      EmptySum<ItemKey>();
    } else {
      var n := |items| - 1;
      FreshSum(id, items[..n], extra);
      SumNew(FreshItems(id, items[..n], extra), (id, n), items[n].requestBytes + extra);
      Times(n, 1, n + 1, extra);
    }
  }

  lemma FreshNext(id: nat, items: seq<B.Item>, extra: nat)
    ensures if items == [] then FreshItems(id, items, extra) == map[]
            else
              var n, init := |items| - 1, FreshItems(id, items[..|items| - 1], extra);
              (id, n) !in init && FreshItems(id, items, extra) == init[(id, n) := items[n].requestBytes + extra]
  {
    hide ItemKeys;
  }

  /** Entries for new items that count no more than those do. */
  lemma AtMostFresh(m: map<ItemKey, nat>, id: nat, items: seq<B.Item>, extra: nat)
    requires forall k :: k in m ==> k.0 == id && k.1 < |items| && m[k] <= items[k.1].requestBytes + extra
    ensures |m.Keys| <= |items| && Sum(m) <= RequestBytes(items) + |items| * extra
  {
    hide ItemKeys, Sum, FreshItems, RequestBytes;
    FreshSum(id, items, extra);
    SumShrinks(FreshItems(id, items, extra), m);
  }

  /** The items of the new batch count in the scopes of its owner and key only, with no more than it asked room for. */
  lemma NewItemSums(t: B.System, id: nat, scope: Scope)
    requires id in t.db && forall i :: 0 <= i < |t.db[id].items| ==> B.NewItem(t.db[id].items[i])
    ensures var b := t.db[id];
            var admitted, kept := Part(AdmittedItems(t, scope), ItemKeys(id, |b.items|)), Part(KeptItems(t, scope), ItemKeys(id, |b.items|));
            && |admitted.Keys| <= |b.items| && Sum(admitted) <= RequestBytes(b.items)
            && |kept.Keys| <= |b.items| && Sum(kept) <= RequestBytes(b.items) + |b.items| * RESERVED
            && (!In(scope, b.owner, b.key) ==> admitted == map[] && kept == map[])
            && (!b.kind.MessageBatch? ==> kept == map[])
  {
    hide Sum, RetainedBytes, ItemKeys, RequestBytes;
    var items := t.db[id].items;
    forall i | 0 <= i < |items| ensures RetainedBytes(items[i]) == items[i].requestBytes + RESERVED { NewItemBytes(items[i]); }
    AtMostFresh(Part(AdmittedItems(t, scope), ItemKeys(id, |items|)), id, items, 0);
    AtMostFresh(Part(KeptItems(t, scope), ItemKeys(id, |items|)), id, items, RESERVED);
  }

  lemma NewItemBytes(item: B.Item)
    requires B.NewItem(item)
    ensures RetainedBytes(item) == item.requestBytes + RESERVED
  {
  }

  lemma CreateKeepsScope(g: Gateway, step: Step, h: Gateway, scope: Scope)
    requires Inv(g) && BR.Inv(h.batches) && BR.Evolves(g.batches, h.batches) && step.BatchStep? && step.batch.Create? && Next(g, step, h)
    ensures ScopeOk(h, scope)
  {
    hide BR.Inv, BR.Evolves, RS.Inv, AdmittedItems, KeptItems, ActiveJobs, AdmittedBytes, QueueBytes, GrownBytes, Part, Sum, B.NewItem, ItemKeys,
      RequestBytes;
    var t, id, b := h.batches, step.batch.id, step.batch.batch;
    var added := ItemKeys(id, |b.items|);
    assert t.db[id] == b && ScopeOk(g, scope);
    forall k: ItemKey | B.HasItem(t, k.0, k.1) && k.0 !in g.batches.used ensures k in added {
      OnlyCreateIntroduces(g.batches, step.batch, t, k);
    }
    ItemSums(g, h, added, scope);
    NewItemSums(t, id, scope);
    EmptySum<ItemKey>();
    QueueSplits(g, scope);
    if In(scope, b.owner, b.key) {
      assert scope in {All, Owner(b.owner), Key(b.key)};
      assert ActiveJobs(h, scope) <= JobCap(scope);
      assert AdmittedBytes(h, scope) <= QueueByteCap(scope);
      if b.kind.MessageBatch? {
        assert RetainedRoom(g.batches, scope, |b.items|, step.body + |b.items| * RESERVED, step.others[scope]);
      }
    }
  }

  lemma NothingIntroduced(s: B.System, step: B.Step, t: B.System)
    requires BR.Inv(s) && B.Next(s, step, t) && !step.Create?
    ensures forall k: ItemKey :: B.HasItem(t, k.0, k.1) ==> k.0 in s.used
  {
    hide BR.Inv, B.Next;
    forall k: ItemKey | B.HasItem(t, k.0, k.1) ensures k.0 in s.used {
      if k.0 !in s.used { OnlyCreateIntroduces(s, step, t, k); }
    }
  }

  lemma BatchStepKeepsScope(g: Gateway, step: Step, h: Gateway, scope: Scope)
    requires Inv(g) && BR.Inv(h.batches) && BR.Evolves(g.batches, h.batches) && step.BatchStep? && !step.batch.Create? && Next(g, step, h)
    ensures ScopeOk(h, scope)
  {
    hide BR.Inv, BR.Evolves, RS.Inv, AdmittedItems, KeptItems, ActiveJobs, AdmittedBytes, Sum, B.Next;
    NothingIntroduced(g.batches, step.batch, h.batches);
    ItemSums(g, h, {}, scope);
    EmptySum<ItemKey>();
    assert Part(AdmittedItems(h.batches, scope), {}) == map[] && Part(KeptItems(h.batches, scope), {}) == map[];
    assert ScopeOk(g, scope);
  }

  // ----------------------------------------------------------- response steps

  lemma OnlyEnqueueIntroduces(s: R.System, step: R.Step, t: R.System, id: nat)
    requires RS.Inv(s) && R.Next(s, step, t) && id in t.db && id !in s.db
    ensures step.Enqueue? && id == step.id && t.db[id] == step.response
  {
    hide RS.Conversing, RS.Turns, RS.Calls, RS.Known, R.StatementOf;
    if R.Sql(step) {
      RR.SqlKeepsRows(s, step, t);
    } else if R.Local(step) {
      LocalKeepsDb(s, step, t);
    } else {
      RowsAdded(s, step, t, id);
    }
  }

  lemma LocalKeepsDb(s: R.System, step: R.Step, t: R.System)
    requires R.Local(step) && R.LocalStep(s, step, t)
    ensures t.db == s.db
  {
  }

  lemma RowsAdded(s: R.System, step: R.Step, t: R.System, id: nat)
    requires !R.Sql(step) && !R.Local(step) && R.TableStep(s, step, t) && id in t.db && id !in s.db
    ensures step.Enqueue? && id == step.id && t.db[id] == step.response
  {
    if RS.Editing(step) || step.Prepare? || step.ForegroundTurn? || step.Tick? { RR.ConversationStepRows(s, step, t); }
  }

  lemma ResponsesRelease(s: R.System, t: R.System, added: set<nat>, scope: Scope)
    requires RS.ResponsesEvolve(s, t) && s.db.Keys <= s.used && forall id :: id in t.db && id !in s.db ==> id in added
    ensures forall id :: id in AdmittedResponses(t, scope) && id !in added ==>
              id in AdmittedResponses(s, scope) && AdmittedResponses(t, scope)[id] <= AdmittedResponses(s, scope)[id]
  {
    forall id | id in AdmittedResponses(t, scope) && id !in added
      ensures id in AdmittedResponses(s, scope) && AdmittedResponses(t, scope)[id] <= AdmittedResponses(s, scope)[id]
    {
      assert RS.ResponseEvolves(s.db[id], t.db[id]);
    }
  }

  /** What the one added Response counts for. */
  lemma NewResponseSum(t: R.System, added: set<nat>, scope: Scope)
    requires added == {} || exists id :: added == {id} && id in t.db
    ensures var m := Part(AdmittedResponses(t, scope), added);
            if added == {} then m == map[]
            else forall id :: added == {id} ==>
              if In(scope, t.db[id].owner, t.db[id].key) then |m.Keys| <= 1 && Sum(m) <= t.db[id].bytes else m == map[]
  {
    if id :| added == {id} && id in t.db {
      var m, one := Part(AdmittedResponses(t, scope), added), map[id := t.db[id].bytes];
      SumRemove(one, id);
      assert one - {id} == map[] && one.Keys == {id};
      SumShrinks(one, m);
    }
  }

  lemma ResponseSums(g: Gateway, h: Gateway, added: set<nat>, scope: Scope)
    requires h.batches == g.batches && RS.ResponsesEvolve(g.responses, h.responses) && g.responses.db.Keys <= g.responses.used
    requires forall id :: id in h.responses.db && id !in g.responses.db ==> id in added
    ensures ActiveJobs(h, scope) <= ActiveJobs(g, scope) + |Part(AdmittedResponses(h.responses, scope), added).Keys|
    ensures AdmittedBytes(h, scope) <= AdmittedBytes(g, scope) + Sum(Part(AdmittedResponses(h.responses, scope), added))
  {
    hide RS.ResponsesEvolve, AdmittedItems, ActiveItems, ActiveResponses, AdmittedResponses, Part, Sum;
    ResponsesRelease(g.responses, h.responses, added, scope);
    SumReleases(AdmittedResponses(g.responses, scope), AdmittedResponses(h.responses, scope), added);
    SameKeys(g.batches, g.responses, scope);
    SameKeys(h.batches, h.responses, scope);
  }

  lemma ResponseStepKeepsScope(g: Gateway, step: Step, h: Gateway, scope: Scope)
    requires Inv(g) && RS.Inv(h.responses) && RS.Evolves(g.responses, h.responses) && step.ResponseStep? && Next(g, step, h)
    ensures ScopeOk(h, scope)
  {
    hide BR.Inv, RS.Conversing, RS.Turns, RS.Calls, RS.Known, RS.PcOk, RS.ResponsesEvolve, R.Next, AdmittedResponses, KeptItems, ActiveJobs,
      AdmittedBytes, QueueBytes, GrownBytes, Part, Sum;
    var s, t := g.responses, h.responses;
    var added: set<nat> := if step.response.Enqueue? then {step.response.id} else {};
    forall id | id in t.db && id !in s.db ensures id in added { OnlyEnqueueIntroduces(s, step.response, t, id); }
    if step.response.Enqueue? { EnqueuedRow(s, step.response, t); }
    ResponseSums(g, h, added, scope);
    NewResponseSum(t, added, scope);
    EmptySum<nat>();
    QueueSplits(g, scope);
    assert ScopeOk(g, scope);
    if step.response.Enqueue? && In(scope, step.response.response.owner, step.response.response.key) {
      assert scope in {All, Owner(step.response.response.owner), Key(step.response.response.key)};
    }
  }

  lemma EnqueuedRow(s: R.System, step: R.Step, t: R.System)
    requires step.Enqueue? && R.Next(s, step, t)
    ensures step.id in t.db && t.db[step.id] == step.response
  {
  }

  // --------------------------------------------------------------------- runs

  lemma StepKeepsInv(g: Gateway, step: Step, h: Gateway)
    requires Inv(g) && Next(g, step, h)
    ensures Inv(h)
  {
    hide BR.Inv, RS.Inv, BR.Evolves, RS.Evolves, ScopeOk, B.Next, R.Next, Admits, QueueRoom;
    match step
    case BatchStep(batch, _, _) =>
      BR.StepKeepsInv(g.batches, batch, h.batches);
      forall scope ensures ScopeOk(h, scope) {
        if batch.Create? { CreateKeepsScope(g, step, h, scope); } else { BatchStepKeepsScope(g, step, h, scope); }
      }
    case ResponseStep(response) =>
      RR.StepKeepsInv(g.responses, response, h.responses);
      forall scope ensures ScopeOk(h, scope) { ResponseStepKeepsScope(g, step, h, scope); }
  }

  lemma InitInv(g: Gateway)
    requires B.Init(g.batches) && R.Init(g.responses)
    ensures Inv(g)
  {
    RR.InitInv(g.responses);
    forall scope ensures ScopeOk(g, scope) { NothingCounts(g, scope); }
  }

  lemma NothingCounts(g: Gateway, scope: Scope)
    requires g.batches.db == map[] && g.responses.db == map[]
    ensures ActiveJobs(g, scope) == 0 && AdmittedBytes(g, scope) == 0 && QueueBytes(g, scope) == 0 && KeptItems(g.batches, scope) == map[]
    ensures ScopeOk(g, scope)
  {
    hide Sum;
    EmptySum<ItemKey>();
    EmptySum<nat>();
    NoItems(g.batches, scope);
    NoResponses(g.responses, scope);
  }

  lemma NoItems(s: B.System, scope: Scope)
    requires s.db == map[]
    ensures ActiveItems(s, scope) == {} && AdmittedItems(s, scope) == map[] && QueuedItems(s, scope) == map[] && KeptItems(s, scope) == map[]
  {
    hide RetainedBytes, ItemGrowth;
    assert ActiveItems(s, scope) == {} && KeptKeys(s, scope) == {};
  }

  lemma NoResponses(s: R.System, scope: Scope)
    requires s.db == map[]
    ensures ActiveResponses(s, scope) == {} && AdmittedResponses(s, scope) == map[] && QueuedResponses(s, scope) == map[]
  {
    assert ActiveResponses(s, scope) == {};
  }

  lemma {:induction false} RunKeepsInv(states: seq<Gateway>, steps: seq<Step>, i: nat)
    requires Run(states, steps) && i < |states|
    ensures Inv(states[i])
  {
    hide Inv, Next, B.Init, R.Init;
    if i == 0 {
      InitInv(states[0]);
    } else {
      RunKeepsInv(states, steps, i - 1);
      StepKeepsInv(states[i - 1], steps[i - 1], states[i]);
    }
  }

  /** In every reachable state the queued and running work of all three kinds together stays within the global, the
      per-owner and the per-key job caps. */
  lemma ActiveJobsStayCapped(states: seq<Gateway>, steps: seq<Step>, i: nat, scope: Scope)
    requires Run(states, steps) && i < |states|
    ensures ActiveJobs(states[i], scope) <= JobCap(scope)
  {
    hide BR.Inv, RS.Inv, Next, ActiveJobs;
    RunKeepsInv(states, steps, i);
    assert ScopeOk(states[i], scope);
  }

  /** In every reachable state the retained Message Batch items stay within the count and byte caps, through claims,
      stored and finished results, cancels, expiry and recovery. */
  lemma RetainedItemsStayCapped(states: seq<Gateway>, steps: seq<Step>, i: nat, scope: Scope)
    requires Run(states, steps) && i < |states|
    ensures var kept := KeptItems(states[i].batches, scope);
            |kept.Keys| <= RetainedCap(scope) && Sum(kept) <= RetainedByteCap(scope)
  {
    hide BR.Inv, RS.Inv, Next, ActiveJobs;
    RunKeepsInv(states, steps, i);
    assert ScopeOk(states[i], scope);
  }

  // ------------------------------------------------------------ queue byte caps

  lemma GrowthIsBounded(s: B.System, scope: Scope)
    requires BR.Inv(s)
    ensures forall k :: k in GrownItems(s, scope) ==> GrownItems(s, scope)[k] <= MAX_INFERENCE_BODY + 2 * SEALING
  {
    hide Size, BR.Calls, BR.Finalized, BS.PcOk;
    forall k | k in GrownItems(s, scope) ensures GrownItems(s, scope)[k] <= MAX_INFERENCE_BODY + 2 * SEALING {
      var b := s.db[k.0];
      assert BS.BatchOk(b);
      assert BS.ItemOk(b.kind, b.total, b.items[k.1]);
    }
  }

  /** In every reachable state the bytes that the queue caps count are those that active work was admitted with, which
      stay within the caps, and what that work has grown by since: sealing, stored results and announcements. */
  lemma QueueBytesAreAdmittedOrGrown(states: seq<Gateway>, steps: seq<Step>, i: nat, scope: Scope)
    requires Run(states, steps) && i < |states|
    ensures var g := states[i];
            && QueueBytes(g, scope) == AdmittedBytes(g, scope) + GrownBytes(g, scope)
            && AdmittedBytes(g, scope) <= QueueByteCap(scope)
            && GrownBytes(g, scope) <= JobCap(scope) * (MAX_INFERENCE_BODY + 2 * SEALING)
  {
    hide BR.Inv, RS.Inv, Next, QueueBytes, AdmittedBytes, GrownBytes, ActiveJobs, KeptItems;
    RunKeepsInv(states, steps, i);
    assert ScopeOk(states[i], scope);
    QueueSplits(states[i], scope);
    GrownBytesAreBounded(states[i], scope);
  }

  lemma GrownBytesAreBounded(g: Gateway, scope: Scope)
    requires BR.Inv(g.batches) && ActiveJobs(g, scope) <= JobCap(scope)
    ensures GrownBytes(g, scope) <= JobCap(scope) * (MAX_INFERENCE_BODY + 2 * SEALING)
  {
    hide BR.Inv, Sum, ActiveItems, ActiveResponses, ItemGrowth, JobCap;
    GrowthIsBounded(g.batches, scope);
    var items, responses := GrownItems(g.batches, scope), GrownResponses(g.responses, scope);
    assert items.Keys == ActiveItems(g.batches, scope) && responses.Keys == ActiveResponses(g.responses, scope);
    SumBounded(items, MAX_INFERENCE_BODY + 2 * SEALING);
    SumBounded(responses, MAX_INFERENCE_BODY + 2 * SEALING);
    Times(|items.Keys|, |responses.Keys|, JobCap(scope), MAX_INFERENCE_BODY + 2 * SEALING);
  }

  /** Storing a provider result adds exactly its bytes to the queue: it takes a scope of the batch over its byte cap if
      and only if the bytes counted before, with those of the result, exceed it. */
  lemma SettlingGrowsQueue(g: Gateway, step: Step, h: Gateway, scope: Scope)
    requires Inv(g) && Next(g, step, h) && step.BatchStep? && step.batch.Store? && !step.batch.report.LostAndFailed?
    requires step.batch.epoch in g.batches.workers && g.batches.workers[step.batch.epoch].Storing?
    requires B.CanStore(g.batches, step.batch.epoch, g.batches.workers[step.batch.epoch].job)
    ensures var pc := g.batches.workers[step.batch.epoch];
            var b := g.batches.db[pc.job.id];
            QueueBytes(h, scope) == QueueBytes(g, scope) + if In(scope, b.owner, b.key) then ResultBytes(b.kind, pc.line) else 0
  {
    hide Sum, ResultBytes, BR.Inv, RS.Inv, ScopeOk, B.Next, B.CanStore, QueuedItems, QueuedResponses;
    var s, t := g.batches, h.batches;
    var pc := s.workers[step.batch.epoch];
    var k := (pc.job.id, pc.job.index);
    StoredRow(s, step.batch, t);
    StoredItems(s, t, k, t.db[k.0].items[k.1], pc.line, scope);
    if In(scope, s.db[k.0].owner, s.db[k.0].key) { SumPut(QueuedItems(s, scope), k, ResultBytes(s.db[k.0].kind, pc.line)); }
  }

  lemma StoredRow(s: B.System, step: B.Step, t: B.System)
    requires BR.Inv(s) && B.Next(s, step, t) && step.Store? && !step.report.LostAndFailed? && step.epoch in s.workers
    requires s.workers[step.epoch].Storing? && B.CanStore(s, step.epoch, s.workers[step.epoch].job)
    ensures var pc := s.workers[step.epoch];
            var id, i := pc.job.id, pc.job.index;
            && B.HasItem(s, id, i) && B.ItemAt(s, id, i).line.None? && B.ItemAt(s, id, i).state.Active() && B.HasItem(t, id, i)
            && var item := B.ItemAt(t, id, i);
            && item.state.Active() && item.requestBytes == B.ItemAt(s, id, i).requestBytes && item.line == Some(pc.line)
            && t.db == s.db[id := B.PutItem(s.db[id], i, item)]
  {
    hide BR.Calls, BR.Finalized, BS.PcOk, BS.LineOk, B.StartFinish;
    var job := s.workers[step.epoch].job;
    var b := s.db[job.id];
    assert BS.BatchOk(b);
    assert BS.ItemOk(b.kind, b.total, b.items[job.index]);
  }

  lemma StoredItems(s: B.System, t: B.System, k: ItemKey, item: B.Item, line: Line, scope: Scope)
    requires B.HasItem(s, k.0, k.1) && B.ItemAt(s, k.0, k.1).line.None? && B.ItemAt(s, k.0, k.1).state.Active()
    requires item.state.Active() && item.requestBytes == B.ItemAt(s, k.0, k.1).requestBytes && item.line == Some(line)
    requires t.db == s.db[k.0 := B.PutItem(s.db[k.0], k.1, item)]
    ensures var b := s.db[k.0];
            QueuedItems(t, scope) == if In(scope, b.owner, b.key)
                                     then QueuedItems(s, scope)[k := QueuedItems(s, scope)[k] + ResultBytes(b.kind, line)]
                                     else QueuedItems(s, scope)
    ensures In(scope, s.db[k.0].owner, s.db[k.0].key) ==> k in QueuedItems(s, scope)
  {
    hide ResultBytes, ActiveItems, ItemGrowth, QueuedItems;
    SameActive(s, t, k, item, scope);
    GrowsByResult(s.db[k.0].kind, B.ItemAt(s, k.0, k.1), item, line);
    QueuedAt(s, scope);
    QueuedAt(t, scope);
    PutOne(QueuedItems(s, scope), QueuedItems(t, scope), k, ResultBytes(s.db[k.0].kind, line));
  }

  lemma PutOne<K(!new)>(before: map<K, nat>, after: map<K, nat>, k: K, more: nat)
    requires before.Keys == after.Keys && forall c :: c in before && c != k ==> after[c] == before[c]
    requires k in before ==> after[k] == before[k] + more
    ensures after == if k in before then before[k := before[k] + more] else before
  {
  }

  lemma QueuedAt(s: B.System, scope: Scope)
    ensures QueuedItems(s, scope).Keys == ActiveItems(s, scope)
    ensures forall c :: c in ActiveItems(s, scope) ==>
              && B.HasItem(s, c.0, c.1)
              && QueuedItems(s, scope)[c] == B.ItemAt(s, c.0, c.1).requestBytes + ItemGrowth(s.db[c.0].kind, B.ItemAt(s, c.0, c.1))
  {
    hide ItemGrowth;
  }

  lemma GrowsByResult(kind: B.Kind, x: B.Item, y: B.Item, line: Line)
    requires x.line.None? && y.line == Some(line)
    ensures ItemGrowth(kind, y) == ItemGrowth(kind, x) + ResultBytes(kind, line)
  {
  }

  lemma SameActive(s: B.System, t: B.System, k: ItemKey, item: B.Item, scope: Scope)
    requires B.HasItem(s, k.0, k.1) && B.ItemAt(s, k.0, k.1).state.Active() && item.state.Active()
    requires t.db == s.db[k.0 := B.PutItem(s.db[k.0], k.1, item)]
    ensures ActiveItems(t, scope) == ActiveItems(s, scope)
    ensures k in ActiveItems(s, scope) <==> In(scope, s.db[k.0].owner, s.db[k.0].key)
    ensures forall c :: c in ActiveItems(s, scope) ==> B.HasItem(s, c.0, c.1) && B.HasItem(t, c.0, c.1)
    ensures forall c :: c in ActiveItems(s, scope) ==> t.db[c.0].kind == s.db[c.0].kind && (c != k ==> B.ItemAt(t, c.0, c.1) == B.ItemAt(s, c.0, c.1))
  {
    forall c: ItemKey ensures c in ActiveItems(t, scope) <==> c in ActiveItems(s, scope) { }
  }

  // --------------------------------------------------- a queue over its byte cap

  function Sent(bytes: nat): B.Batch {
    B.Batch(B.OpenAIBatch, 1, 1, B.InProgress, false, 10, 1, [B.Item("a", "r", bytes, Queued, 0, None, false, true, Queued)], None)
  }

  /** 10 MiB, and what the count of that leaves of the 16 MiB of a key. */
  const FIRST: nat := 10485760
  const SECOND: nat := 6291428

  /** Nothing but freshly created OpenAI Batches of one item each. */
  function Holding(sizes: seq<nat>): Gateway {
    var db := map id: nat | id < |sizes| :: Sent(sizes[id]);
    Gateway.Gateway(B.System(db, 0, map[], db.Keys, {}, multiset{}, multiset{}),
                    R.System(map[], {}, map[], {}, map[], map[], map[], {}, 0, multiset{}, multiset{}, multiset{}))
  }

  function FirstItems(n: nat): (r: set<ItemKey>)
    ensures forall k :: k in r <==> k.1 == 0 && k.0 < n
  {
    if n == 0 then {} else FirstItems(n - 1) + {(n - 1, 0)}
  }

  function Counted(sizes: seq<nat>): (m: map<ItemKey, nat>)
    ensures m.Keys == FirstItems(|sizes|)
    ensures forall k :: k in m ==> m[k] == sizes[k.0] + SEALING
  {
    if sizes == [] then map[]
    else
      var n := |sizes| - 1;
      Counted(sizes[..n])[(n, 0) := sizes[n] + SEALING]
  }

  function Total(sizes: seq<nat>): nat { if sizes == [] then 0 else Total(sizes[..|sizes| - 1]) + sizes[|sizes| - 1] + SEALING }

  lemma {:induction false} CountedSum(sizes: seq<nat>)
    ensures Sum(Counted(sizes)) == Total(sizes) && |Counted(sizes).Keys| == |sizes|
  {
    hide Sum, Counted, FirstItems;
    CountedNext(sizes);
    if sizes == [] {
      EmptySum<ItemKey>();
    } else {
      var n := |sizes| - 1;
      CountedSum(sizes[..n]);
      SumNew(Counted(sizes[..n]), (n, 0), sizes[n] + SEALING);
    }
  }

  lemma CountedNext(sizes: seq<nat>)
    ensures if sizes == [] then Counted(sizes) == map[]
            else
              var n, init := |sizes| - 1, Counted(sizes[..|sizes| - 1]);
              (n, 0) !in init && Counted(sizes) == init[(n, 0) := sizes[n] + SEALING]
  {
    hide FirstItems;
  }

  lemma HoldingItems(sizes: seq<nat>, scope: Scope)
    requires In(scope, 1, 1)
    ensures ActiveItems(Holding(sizes).batches, scope) == Counted(sizes).Keys
    ensures QueuedItems(Holding(sizes).batches, scope) == Counted(sizes)
  {
    hide Counted;
    hide QueuedItems;
    var s := Holding(sizes).batches;
    assert ActiveItems(s, scope) == Counted(sizes).Keys;
    QueuedAt(s, scope);
  }

  lemma QueueOf(sizes: seq<nat>, scope: Scope)
    requires In(scope, 1, 1)
    ensures QueueBytes(Holding(sizes), scope) == Total(sizes) && ActiveJobs(Holding(sizes), scope) == |sizes|
  {
    hide Sum, Counted, Total, ActiveItems, QueuedItems;
    HoldingItems(sizes, scope);
    CountedSum(sizes);
    EmptySum<nat>();
    NoResponses(Holding(sizes).responses, scope);
  }

  lemma AdmitsBatch(sizes: seq<nat>, bytes: nat)
    requires |sizes| < 4 && Total(sizes) + bytes <= QueueByteCap(Key(1))
    ensures Next(Holding(sizes), BatchStep(B.Create(|sizes|, Sent(bytes)), 0, map[]), Holding(sizes + [bytes]))
  {
    hide Total, B.Next, Holding, QueueRoom;
    assert Sent(bytes).items[..0] == [] && RequestBytes(Sent(bytes).items[..0]) == 0;
    assert RequestBytes(Sent(bytes).items) == bytes && |Sent(bytes).items| == 1;
    HasRoom(sizes, bytes);
    CreatesBatch(sizes, bytes);
  }

  lemma HasRoom(sizes: seq<nat>, bytes: nat)
    requires |sizes| < 4 && Total(sizes) + bytes <= QueueByteCap(Key(1))
    ensures QueueRoom(Holding(sizes), 1, 1, 1, bytes)
  {
    hide QueueBytes, ActiveJobs, Total, Holding;
    forall scope | scope in {All, Owner(1), Key(1)}
      ensures ActiveJobs(Holding(sizes), scope) + 1 <= JobCap(scope) && QueueBytes(Holding(sizes), scope) + bytes <= QueueByteCap(scope)
    {
      QueueOf(sizes, scope);
    }
  }

  lemma CreatesBatch(sizes: seq<nat>, bytes: nat)
    ensures B.Next(Holding(sizes).batches, B.Create(|sizes|, Sent(bytes)), Holding(sizes + [bytes]).batches)
    ensures Holding(sizes + [bytes]).responses == Holding(sizes).responses
  {
    var s, t, id := Holding(sizes).batches, Holding(sizes + [bytes]).batches, |sizes|;
    assert B.NewBatch(Sent(bytes), 0);
    assert t.db == s.db[id := Sent(bytes)];
    assert t.used == s.used + {id};
  }

  /** The byte caps of the queue hold at each admission, not in every state: two batches that a key has room for are
      over its cap as soon as the second is there, because their sealed requests count for more than they did. */
  lemma QueueCanExceedItsByteCap()
    ensures exists states, steps :: Run(states, steps) && QueueBytes(states[|steps|], Key(1)) > QueueByteCap(Key(1))
  {
    hide QueueBytes, Next, Holding;
    var states := [Holding([]), Holding([FIRST]), Holding([FIRST, SECOND])];
    var steps := [BatchStep(B.Create(0, Sent(FIRST)), 0, map[]), BatchStep(B.Create(1, Sent(SECOND)), 0, map[])];
    assert [FIRST][..0] == [] && [FIRST, SECOND][..1] == [FIRST] && [] + [FIRST] == [FIRST] && [FIRST] + [SECOND] == [FIRST, SECOND];
    AdmitsBatch([], FIRST);
    AdmitsBatch([FIRST], SECOND);
    NothingHeld();
    QueueOf([FIRST, SECOND], Key(1));
    assert Run(states, steps);
    assert states[|steps|] == Holding([FIRST, SECOND]);
  }

  lemma NothingHeld()
    ensures B.Init(Holding([]).batches) && R.Init(Holding([]).responses)
  {
  }
}
