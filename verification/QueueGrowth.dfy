/** Step by step, what makes the bytes counted by the queue caps grow, and so exactly when a cap is exceeded. */
module QueueGrowth {
  import opened Common
  import opened BatchLines
  import opened Admission
  import B = BatchMachine
  import BS = BatchSafety
  import BR = BatchRuns
  import BT = BatchTheorems
  import R = ResponseMachine
  import RS = ResponseSafety
  import RR = ResponseRuns

  /** The UPDATE that stores a result and takes effect. */
  ghost predicate Stores(s: B.System, step: B.Step) {
    step.Store? && !step.report.LostAndFailed? && step.epoch in s.workers && s.workers[step.epoch].Storing?
    && B.CanStore(s, step.epoch, s.workers[step.epoch].job)
  }

  /** The UPDATE that replaces a queued body by an in-progress one and takes effect for the first time. */
  ghost predicate Announces(s: R.System, step: R.Step) {
    step.Announce? && !step.report.LostAndFailed? && step.epoch in s.workers && s.workers[step.epoch].Claimed?
    && var id := s.workers[step.epoch].job.id; R.Holds(s, step.epoch, id) && !s.db[id].announced
  }

  function Sealings(b: B.Batch): nat { if b.kind.OpenAIBatch? then |b.items| * SEALING else 0 }

  /** By how much a step makes the count of a scope grow. It can be told before the step. */
  ghost function Growth(g: Gateway, step: Step, scope: Scope): nat {
    match step
    case BatchStep(batch, _, _) =>
      if batch.Create? then
        (if In(scope, batch.batch.owner, batch.batch.key) then RequestBytes(batch.batch.items) + Sealings(batch.batch) else 0)
      else if Stores(g.batches, batch) then
        var pc := g.batches.workers[batch.epoch];
        var b := g.batches.db[pc.job.id];
        if In(scope, b.owner, b.key) then ResultBytes(b.kind, pc.line) else 0
      else 0
    case ResponseStep(response) =>
      if response.Enqueue? then (if In(scope, response.response.owner, response.response.key) then response.response.bytes else 0)
      else if Announces(g.responses, response) then
        var r := g.responses.db[g.responses.workers[response.epoch].job.id];
        if In(scope, r.owner, r.key) then ANNOUNCEMENT else 0
      else 0
  }

  // -------------------------------------------------------------------- create

  /** Creating a batch adds its request bytes and, for an OpenAI Batch, what sealing them adds: 28 bytes an item more than
      its admission asked room for. */
  lemma CreatingGrowsQueue(g: Gateway, step: Step, h: Gateway, scope: Scope)
    requires Inv(g) && Next(g, step, h) && step.BatchStep? && step.batch.Create?
    ensures QueueBytes(h, scope) == QueueBytes(g, scope) + Growth(g, step, scope)
  {
    hide Inv, Next, QueuedItems, QueuedResponses, Sum, RequestBytes, B.NewItem, FreshItems;
    var s, id, b := g.batches, step.batch.id, step.batch.batch;
    CreatedTable(g, step, h);
    CreatedItems(s, h.batches, id, b, scope);
    if In(scope, b.owner, b.key) {
      var extra := if b.kind.OpenAIBatch? then SEALING else 0;
      FreshSum(id, b.items, extra);
      NewKeys(s, id, b.items, extra, scope);
      SumUnion(QueuedItems(s, scope), FreshItems(id, b.items, extra));
    }
  }

  lemma CreatedTable(g: Gateway, step: Step, h: Gateway)
    requires Inv(g) && Next(g, step, h) && step.BatchStep? && step.batch.Create?
    ensures var id, b := step.batch.id, step.batch.batch;
            && id !in g.batches.db && h.batches.db == g.batches.db[id := b] && h.responses == g.responses
            && forall i :: 0 <= i < |b.items| ==> B.NewItem(b.items[i])
  {
    hide BR.Calls, BR.Finalized, BS.BatchOk, BS.PcOk, RS.Inv, ScopeOk, Admits, B.NewItem;
  }

  lemma NewKeys(s: B.System, id: nat, items: seq<B.Item>, extra: nat, scope: Scope)
    requires id !in s.db
    ensures QueuedItems(s, scope).Keys !! FreshItems(id, items, extra).Keys
  {
    hide ItemGrowth, FreshItems, ItemKeys;
    QueuedAt(s, scope);
  }

  lemma CreatedItems(s: B.System, t: B.System, id: nat, b: B.Batch, scope: Scope)
    requires id !in s.db && t.db == s.db[id := b] && forall i :: 0 <= i < |b.items| ==> B.NewItem(b.items[i])
    ensures var created := FreshItems(id, b.items, if b.kind.OpenAIBatch? then SEALING else 0);
            QueuedItems(t, scope) == if In(scope, b.owner, b.key) then QueuedItems(s, scope) + created else QueuedItems(s, scope)
  {
    hide FreshItems, ItemKeys, ActiveItems, QueuedItems, B.NewItem, ItemGrowth;
    var extra := if b.kind.OpenAIBatch? then SEALING else 0;
    forall i | 0 <= i < |b.items| ensures b.items[i].state.Active() { NewGrowth(b.kind, b.items[i]); }
    CreatedActive(s, t, id, b, scope);
    OldItems(s, t, scope);
    if In(scope, b.owner, b.key) {
      NewItems(t, id, scope);
      NewKeys(s, id, b.items, extra, scope);
      Join(QueuedItems(s, scope), FreshItems(id, b.items, extra), QueuedItems(t, scope));
    } else {
      SameMap(QueuedItems(s, scope), QueuedItems(t, scope));
    }
  }

  lemma OldItems(s: B.System, t: B.System, scope: Scope)
    requires forall k :: k in ActiveItems(s, scope) ==> k in ActiveItems(t, scope) && k.0 in s.db && k.0 in t.db && t.db[k.0] == s.db[k.0]
    ensures QueuedItems(s, scope).Keys == ActiveItems(s, scope) && QueuedItems(t, scope).Keys == ActiveItems(t, scope)
    ensures forall k :: k in ActiveItems(s, scope) ==> QueuedItems(t, scope)[k] == QueuedItems(s, scope)[k]
  {
    hide ActiveItems, QueuedItems, ItemGrowth;
    QueuedAt(s, scope);
    QueuedAt(t, scope);
  }

  lemma NewItems(t: B.System, id: nat, scope: Scope)
    requires id in t.db && forall i :: 0 <= i < |t.db[id].items| ==> B.NewItem(t.db[id].items[i])
    requires forall k :: k in ItemKeys(id, |t.db[id].items|) ==> k in ActiveItems(t, scope)
    ensures var b := t.db[id];
            var created := FreshItems(id, b.items, if b.kind.OpenAIBatch? then SEALING else 0);
            created.Keys == ItemKeys(id, |b.items|) && forall k :: k in created ==> k in QueuedItems(t, scope) && QueuedItems(t, scope)[k] == created[k]
  {
    hide ActiveItems, QueuedItems, ItemGrowth, FreshItems, ItemKeys, B.NewItem;
    QueuedAt(t, scope);
    var b := t.db[id];
    forall i | 0 <= i < |b.items| ensures ItemGrowth(b.kind, b.items[i]) == if b.kind.OpenAIBatch? then SEALING else 0 { NewGrowth(b.kind, b.items[i]); }
  }

  lemma CreatedActive(s: B.System, t: B.System, id: nat, b: B.Batch, scope: Scope)
    requires id !in s.db && t.db == s.db[id := b] && forall i :: 0 <= i < |b.items| ==> b.items[i].state.Active()
    ensures ActiveItems(t, scope) == ActiveItems(s, scope) + if In(scope, b.owner, b.key) then ItemKeys(id, |b.items|) else {}
    ensures forall k :: k in ActiveItems(s, scope) ==> k.0 != id && k.0 in s.db && t.db[k.0] == s.db[k.0]
  {
    hide ItemKeys, ActiveItems;
    var all := ActiveItems(s, scope) + if In(scope, b.owner, b.key) then ItemKeys(id, |b.items|) else {};
    forall k: ItemKey
      ensures k in ActiveItems(t, scope) <==> k in all
      ensures k in ActiveItems(s, scope) ==> k.0 != id && k.0 in s.db
    {
      ActiveAt(s, k, scope);
      ActiveAt(t, k, scope);
    }
  }

  lemma ActiveAt(s: B.System, k: ItemKey, scope: Scope)
    ensures k in ActiveItems(s, scope) <==> B.HasItem(s, k.0, k.1) && B.ItemAt(s, k.0, k.1).state.Active() && In(scope, s.db[k.0].owner, s.db[k.0].key)
  {
  }

  lemma Join<K(!new)>(before: map<K, nat>, more: map<K, nat>, after: map<K, nat>)
    requires after.Keys == before.Keys + more.Keys && before.Keys !! more.Keys
    requires (forall k :: k in before ==> after[k] == before[k]) && forall k :: k in more ==> after[k] == more[k]
    ensures after == before + more
  {
  }

  lemma SameMap<K(!new)>(before: map<K, nat>, after: map<K, nat>)
    requires after.Keys == before.Keys && forall k :: k in before ==> after[k] == before[k]
    ensures after == before
  {
  }

  lemma NewGrowth(kind: B.Kind, item: B.Item)
    requires B.NewItem(item)
    ensures item.state.Active() && ItemGrowth(kind, item) == if kind.OpenAIBatch? then SEALING else 0
  {
  }

  // ------------------------------------------------------------ other batch steps

  /** Without storing a result, a step leaves no settling item that was not there just so. */
  lemma SettlingIsOld(s: B.System, step: B.Step, t: B.System, k: ItemKey)
    requires BR.Inv(s) && B.Next(s, step, t) && !step.Create? && !Stores(s, step)
    requires B.HasItem(t, k.0, k.1) && B.ItemAt(t, k.0, k.1).state.Settling?
    ensures B.HasItem(s, k.0, k.1) && B.ItemAt(t, k.0, k.1) == B.ItemAt(s, k.0, k.1)
  {
    hide BR.Inv, B.StartFinish, B.NoticeFinish, B.Check, B.Judge, B.RecoverItem, B.StopItem, B.CancelBatch, B.EndIfDone, B.CanFinalize, B.NewBatch,
      B.WorkerStep, B.TableStep;
    if B.Works(step) {
      WorkerPresent(s, step, t);
      WorkerSettles(s, step, t, k);
    } else {
      TableSettles(s, step, t, k);
    }
  }

  lemma WorkerPresent(s: B.System, step: B.Step, t: B.System)
    requires BR.Inv(s) && B.Works(step) && B.WorkerStep(s, step, t)
    ensures step.epoch in s.workers && (s.workers[step.epoch].Finishing? ==> B.Terminal(s.workers[step.epoch].state))
  {
    hide BR.Calls, BR.Finalized, BS.BatchOk, BS.LineOk, B.Attempt, B.StartFinish, B.NoticeFinish, B.Check, B.Judge;
    assert step.epoch in s.workers;
    assert BS.PcOk(s, s.workers[step.epoch]);
  }

  lemma WorkerSettles(s: B.System, step: B.Step, t: B.System, k: ItemKey)
    requires B.Works(step) && B.WorkerStep(s, step, t) && !Stores(s, step) && (s.workers[step.epoch].Finishing? ==> B.Terminal(s.workers[step.epoch].state))
    requires B.HasItem(t, k.0, k.1) && B.ItemAt(t, k.0, k.1).state.Settling?
    ensures B.HasItem(s, k.0, k.1) && B.ItemAt(t, k.0, k.1) == B.ItemAt(s, k.0, k.1)
  {
    hide B.StartFinish, B.NoticeFinish, B.Check, B.Judge, B.EndIfDone;
    var pc := s.workers[step.epoch];
    if step.Finish? && B.CanFinish(s, pc.job) {
      BT.EndKeepsItems(B.PutItem(s.db[pc.job.id], pc.job.index, B.FinishItem(B.ItemAt(s, pc.job.id, pc.job.index), pc.state, pc.line, pc.linked)));
    }
  }

  lemma TableSettles(s: B.System, step: B.Step, t: B.System, k: ItemKey)
    requires !B.Works(step) && B.TableStep(s, step, t) && !step.Create?
    requires B.HasItem(t, k.0, k.1) && B.ItemAt(t, k.0, k.1).state.Settling?
    ensures B.HasItem(s, k.0, k.1) && B.ItemAt(t, k.0, k.1) == B.ItemAt(s, k.0, k.1)
  {
    hide B.RecoverItem, B.StopItem, B.CancelBatch, B.EndIfDone, B.CanFinalize;
    match step
    case Reconcile(id, i, canceled) => BT.StopUnsettles(s.db[id].kind, B.ItemAt(s, id, i), canceled);
    case Recover(id, i, listed) => BT.RecoverUnsettles(s.db[id], B.ItemAt(s, id, i), listed, s.now);
    case Cancel(id) => BT.CancelUnsettles(s.db[id]);
    case End(id) => BT.EndKeepsItems(s.db[id]);
    case _ =>
  }

  /** No other step of the batch machine makes any count grow. */
  lemma OtherBatchStepsRelease(g: Gateway, step: Step, h: Gateway, scope: Scope)
    requires Inv(g) && Next(g, step, h) && step.BatchStep? && !step.batch.Create? && !Stores(g.batches, step.batch)
    ensures QueueBytes(h, scope) <= QueueBytes(g, scope)
  {
    hide BR.Inv, RS.Inv, ScopeOk, B.Next, Stores, Sum, QueuedItems, QueuedResponses;
    BR.StepKeepsInv(g.batches, step.batch, h.batches);
    forall k | k in QueuedItems(h.batches, scope)
      ensures k in QueuedItems(g.batches, scope) && QueuedItems(h.batches, scope)[k] <= QueuedItems(g.batches, scope)[k]
    {
      ItemDoesNotGrow(g.batches, step.batch, h.batches, k, scope);
    }
    SumShrinks(QueuedItems(g.batches, scope), QueuedItems(h.batches, scope));
  }

  lemma ItemDoesNotGrow(s: B.System, step: B.Step, t: B.System, k: ItemKey, scope: Scope)
    requires BR.Inv(s) && BR.Inv(t) && BR.Evolves(s, t) && B.Next(s, step, t) && !step.Create? && !Stores(s, step)
    requires k in QueuedItems(t, scope)
    ensures k in QueuedItems(s, scope) && QueuedItems(t, scope)[k] <= QueuedItems(s, scope)[k]
  {
    hide BR.Inv, BR.Evolves, B.Next, Stores, RetainedBytes, ItemGrowth;
    NothingIntroduced(s, step, t);
    ItemReleases(s, t, k);
    var x, y := B.ItemAt(s, k.0, k.1), B.ItemAt(t, k.0, k.1);
    if y.state.Settling? {
      SettlingIsOld(s, step, t, k);
    } else {
      UnsettledGrowth(t, k);
      GrowthAtLeast(s.db[k.0].kind, x);
    }
  }

  lemma UnsettledGrowth(s: B.System, k: ItemKey)
    requires BR.Inv(s) && B.HasItem(s, k.0, k.1) && B.ItemAt(s, k.0, k.1).state.Active() && !B.ItemAt(s, k.0, k.1).state.Settling?
    ensures ItemGrowth(s.db[k.0].kind, B.ItemAt(s, k.0, k.1)) == if s.db[k.0].kind.OpenAIBatch? then SEALING else 0
  {
    hide BR.Calls, BR.Finalized, BS.PcOk, BS.LineOk;
    assert BS.BatchOk(s.db[k.0]);
    assert BS.ItemOk(s.db[k.0].kind, s.db[k.0].total, B.ItemAt(s, k.0, k.1));
  }

  lemma GrowthAtLeast(kind: B.Kind, item: B.Item)
    ensures ItemGrowth(kind, item) >= if kind.OpenAIBatch? then SEALING else 0
  {
  }

  // ------------------------------------------------------------ response steps

  /** Enqueuing a background Response adds the bytes it was admitted with. */
  lemma EnqueuingGrowsQueue(g: Gateway, step: Step, h: Gateway, scope: Scope)
    requires Inv(g) && Next(g, step, h) && step.ResponseStep? && step.response.Enqueue?
    ensures QueueBytes(h, scope) == QueueBytes(g, scope) + Growth(g, step, scope)
  {
    hide Inv, Next, Sum, QueuedItems, QueuedResponses, ActiveResponses;
    var s, t, id, r := g.responses, h.responses, step.response.id, step.response.response;
    EnqueuedTable(g, step, h);
    EnqueuedSum(s, t, id, r, scope);
  }

  lemma EnqueuedSum(s: R.System, t: R.System, id: nat, r: R.Response, scope: Scope)
    requires id !in s.db && t.db == s.db[id := r] && r.phase.Active() && !r.announced
    ensures Sum(QueuedResponses(t, scope)) == Sum(QueuedResponses(s, scope)) + if In(scope, r.owner, r.key) then r.bytes else 0
  {
    hide Sum, QueuedResponses, ActiveResponses;
    ResponsesAt(s, scope);
    ResponsesAt(t, scope);
    EnqueuedActive(s, t, id, r, scope);
    var before, after := QueuedResponses(s, scope), QueuedResponses(t, scope);
    if In(scope, r.owner, r.key) {
      SumNew(before, id, r.bytes);
      SameMap(before[id := r.bytes], after);
    } else {
      SameMap(before, after);
    }
  }

  lemma EnqueuedActive(s: R.System, t: R.System, id: nat, r: R.Response, scope: Scope)
    requires id !in s.db && t.db == s.db[id := r] && r.phase.Active()
    ensures ActiveResponses(t, scope) == ActiveResponses(s, scope) + (if In(scope, r.owner, r.key) then {id} else {}) && id !in ActiveResponses(s, scope)
  {
    var all := ActiveResponses(s, scope) + if In(scope, r.owner, r.key) then {id} else {};
    forall k ensures k in ActiveResponses(t, scope) <==> k in all { }
  }

  lemma ResponsesAt(s: R.System, scope: Scope)
    ensures QueuedResponses(s, scope).Keys == ActiveResponses(s, scope)
    ensures forall k :: k in ActiveResponses(s, scope) ==> k in s.db && QueuedResponses(s, scope)[k] == s.db[k].bytes + ResponseGrowth(s.db[k])
  {
  }

  lemma EnqueuedTable(g: Gateway, step: Step, h: Gateway)
    requires Inv(g) && Next(g, step, h) && step.ResponseStep? && step.response.Enqueue?
    ensures var id, r := step.response.id, step.response.response;
            && id !in g.responses.db && h.responses.db == g.responses.db[id := r] && r.phase.Active() && !r.announced && h.batches == g.batches
  {
    hide BR.Inv, RS.Conversing, RS.Turns, RS.Calls, RS.Known, RS.PcOk, ScopeOk, QueueRoom;
  }

  /** Announcing a Response adds the five bytes by which its in-progress body is longer. */
  lemma AnnouncingGrowsQueue(g: Gateway, step: Step, h: Gateway, scope: Scope)
    requires Inv(g) && Next(g, step, h) && step.ResponseStep? && Announces(g.responses, step.response)
    ensures QueueBytes(h, scope) == QueueBytes(g, scope) + Growth(g, step, scope)
  {
    hide BR.Inv, RS.Inv, ScopeOk, Sum, QueuedItems, QueuedResponses, ActiveResponses;
    var s, t := g.responses, h.responses;
    var id := s.workers[step.response.epoch].job.id;
    AnnouncedTable(s, step.response, t);
    ResponsesAt(s, scope);
    ResponsesAt(t, scope);
    AnnouncedActive(s, t, id, scope);
    var before := QueuedResponses(s, scope);
    PutOne(before, QueuedResponses(t, scope), id, ANNOUNCEMENT);
    if In(scope, s.db[id].owner, s.db[id].key) { SumPut(before, id, ANNOUNCEMENT); }
  }

  lemma AnnouncedActive(s: R.System, t: R.System, id: nat, scope: Scope)
    requires id in s.db && s.db[id].phase.Active() && t.db == s.db[id := s.db[id].(announced := true)]
    ensures ActiveResponses(t, scope) == ActiveResponses(s, scope)
    ensures id in ActiveResponses(s, scope) <==> In(scope, s.db[id].owner, s.db[id].key)
  {
    forall k ensures k in ActiveResponses(t, scope) <==> k in ActiveResponses(s, scope) { }
  }

  lemma AnnouncedTable(s: R.System, step: R.Step, t: R.System)
    requires R.Next(s, step, t) && Announces(s, step)
    ensures var id := s.workers[step.epoch].job.id; t.db == s.db[id := s.db[id].(announced := true)]
  {
  }

  /** Any other step leaves a Response announced only if it was. */
  lemma AnnouncedBefore(s: R.System, step: R.Step, t: R.System, id: nat)
    requires R.Next(s, step, t) && !step.Enqueue? && !Announces(s, step) && id in t.db && t.db[id].announced
    ensures id in s.db && s.db[id].announced
  {
    hide R.StatementOf, R.LocalStep, R.TableStep;
    if R.Sql(step) {
      if step.Complete? { CompletedBefore(s, step, id); } else { StatementBefore(s, step, id); }
    } else if R.Local(step) {
      LocalKeepsDb(s, step, t);
    } else {
      TableAnnounced(s, step, t, id);
    }
  }

  lemma StatementBefore(s: R.System, step: R.Step, id: nat)
    requires R.Sql(step) && !step.Complete? && step.epoch in s.workers && R.Issues(s.workers[step.epoch], step)
    ensures var t := R.StatementOf(s, step).effect;
            id in t.db && t.db[id].announced ==>
              id in s.db && (s.db[id].announced || (step.Announce? && s.workers[step.epoch].job.id == id && R.Holds(s, step.epoch, id)))
  {
    hide R.CompleteTx;
  }

  lemma CompletedBefore(s: R.System, step: R.Step, id: nat)
    requires step.Complete? && step.epoch in s.workers && R.Issues(s.workers[step.epoch], step)
    ensures var t := R.StatementOf(s, step).effect; id in t.db && t.db[id].announced ==> id in s.db && s.db[id].announced
  {
    hide R.CompleteTx;
    var pc := s.workers[step.epoch];
    if R.CompleteTx(s, step.epoch, pc.job, pc.recorder, step.room).Commit? {
      RS.CompletionEffect(s, step.epoch, pc.job, pc.recorder, step.room);
    }
  }

  lemma TableAnnounced(s: R.System, step: R.Step, t: R.System, id: nat)
    requires !R.Sql(step) && !R.Local(step) && R.TableStep(s, step, t) && !step.Enqueue? && id in t.db && t.db[id].announced
    ensures id in s.db && s.db[id].announced
  {
    hide R.TableStep;
    if RS.Editing(step) || step.Prepare? || step.ForegroundTurn? || step.Tick? {
      RR.ConversationStepRows(s, step, t);
    } else {
      RowStepAnnounced(s, step, t, id);
    }
  }

  lemma RowStepAnnounced(s: R.System, step: R.Step, t: R.System, id: nat)
    requires (step.Cancel? || step.Delete? || step.Recover? || step.Boot? || step.Crash?) && R.TableStep(s, step, t) && id in t.db && t.db[id].announced
    ensures id in s.db && s.db[id].announced
  {
  }

  /** No other step of the Response machine makes any count grow. */
  lemma OtherResponseStepsRelease(g: Gateway, step: Step, h: Gateway, scope: Scope)
    requires Inv(g) && Next(g, step, h) && step.ResponseStep? && !step.response.Enqueue? && !Announces(g.responses, step.response)
    ensures QueueBytes(h, scope) <= QueueBytes(g, scope)
  {
    hide BR.Inv, ScopeOk, R.Next, Announces, Sum, QueuedItems, RS.Conversing, RS.Turns, RS.Calls, RS.Known, RS.PcOk;
    var s, t := g.responses, h.responses;
    RR.StepKeepsInv(s, step.response, t);
    var before, after := QueuedResponses(s, scope), QueuedResponses(t, scope);
    forall id | id in after ensures id in before && after[id] <= before[id] {
      if id !in s.db { OnlyEnqueueIntroduces(s, step.response, t, id); }
      assert RS.ResponseEvolves(s.db[id], t.db[id]);
      if t.db[id].announced { AnnouncedBefore(s, step.response, t, id); }
    }
    SumShrinks(before, after);
  }

  // -------------------------------------------------------------- the condition

  /** In every run, a step from a state within a byte cap exceeds it if and only if the bytes counted before and the step's
      own growth do. Only creating a batch, enqueuing or announcing a Response, and storing a result grow the count, by
      exactly that much. */
  lemma CapIsExceededIff(states: seq<Gateway>, steps: seq<Step>, i: nat, scope: Scope)
    requires Run(states, steps) && i < |steps| && QueueBytes(states[i], scope) <= QueueByteCap(scope)
    ensures var g, h := states[i], states[i + 1];
            && (QueueBytes(h, scope) > QueueByteCap(scope) <==> QueueBytes(g, scope) + Growth(g, steps[i], scope) > QueueByteCap(scope))
            && (Growth(g, steps[i], scope) > 0 ==> QueueBytes(h, scope) == QueueBytes(g, scope) + Growth(g, steps[i], scope))
  {
    hide Inv, Next, QueueBytes, Growth;
    RunKeepsInv(states, steps, i);
    StepExceedsIff(states[i], steps[i], states[i + 1], scope);
  }

  lemma StepExceedsIff(g: Gateway, step: Step, h: Gateway, scope: Scope)
    requires Inv(g) && Next(g, step, h) && QueueBytes(g, scope) <= QueueByteCap(scope)
    ensures QueueBytes(h, scope) > QueueByteCap(scope) <==> QueueBytes(g, scope) + Growth(g, step, scope) > QueueByteCap(scope)
    ensures Growth(g, step, scope) > 0 ==> QueueBytes(h, scope) == QueueBytes(g, scope) + Growth(g, step, scope)
  {
    hide Inv, Next, QueueBytes, Stores, Announces, RequestBytes, ResultBytes;
    match step
    case BatchStep(batch, _, _) =>
      if batch.Create? {
        CreatingGrowsQueue(g, step, h, scope);
      } else if Stores(g.batches, batch) {
        StoringGrowsQueue(g, step, h, scope);
      } else {
        OtherBatchStepsRelease(g, step, h, scope);
      }
    case ResponseStep(response) =>
      if response.Enqueue? {
        EnqueuingGrowsQueue(g, step, h, scope);
      } else if Announces(g.responses, response) {
        AnnouncingGrowsQueue(g, step, h, scope);
      } else {
        OtherResponseStepsRelease(g, step, h, scope);
      }
  }

  lemma StoringGrowsQueue(g: Gateway, step: Step, h: Gateway, scope: Scope)
    requires Inv(g) && Next(g, step, h) && step.BatchStep? && Stores(g.batches, step.batch)
    ensures QueueBytes(h, scope) == QueueBytes(g, scope) + Growth(g, step, scope)
  {
    hide Inv, Next, QueueBytes, ResultBytes;
    SettlingGrowsQueue(g, step, h, scope);
  }
}
