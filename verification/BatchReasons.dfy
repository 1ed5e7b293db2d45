/** Why an item ended as it did: its line says its state, nothing is canceled without a cancel request, and nothing
    expires before the deadline. */
module BatchReasons {
  import opened BatchLines
  import opened BatchMachine
  import opened Common
  import opened BatchSafety
  import opened BatchRuns
  import opened BatchTheorems

  /** The state that a stored line tells its reader. A provider error may carry any code, also one that recovery reads as
      the gateway's own. */
  predicate Says(line: Line, state: ItemState) {
    match line
    case OpenAI(Success(_, _, _, _, _)) => state.Succeeded?
    case OpenAI(Failure(_, _, code, _)) => state.Failed? || state == CodeState(code)
    case OpenAI(Gateway(_, _, n)) => if n.Restarted? then state.Interrupted? else state == NoticeState(n)
    case Anthropic(Result(_, canceled)) => if canceled then state.Canceled? else state.Expired?
    case Anthropic(Message(_, _)) => state.Succeeded?
    case Anthropic(Errored(_, _)) => state.Failed?
    case Anthropic(GatewayError(_, n)) => if n.Restarted? then state.Interrupted? else state.Failed?
  }

  predicate ProviderError(line: Line) { line.OpenAI? && line.openai.Failure? }

  /** The state is what the line says, and a cancellation or expiry by the gateway had its cause. */
  predicate Justified(requested: bool, late: bool, line: Line, state: ItemState) {
    && Says(line, state)
    && (state.Canceled? && !ProviderError(line) ==> requested)
    && (state.Expired? && !ProviderError(line) ==> late)
  }

  predicate ItemReason(requested: bool, late: bool, item: Item) {
    && (Terminal(item.state) ==> item.line.Some? && Justified(requested, late, item.line.value, item.state))
    && (item.state.Settling? ==> item.line.Some? && (item.intended.Succeeded? || item.intended.Failed?) && Says(item.line.value, item.intended))
  }

  predicate Requested(s: System, id: BatchId) { id in s.db ==> s.db[id].cancelRequested }

  ghost predicate PcReason(s: System, pc: Pc) {
    && (pc.Storing? ==> (pc.state.Succeeded? || pc.state.Failed?) && Says(pc.line, pc.state))
    && (pc.Finishing? ==> Terminal(pc.state) && Justified(Requested(s, pc.job.id), pc.job.deadline <= s.now, pc.line, pc.state))
  }

  ghost predicate BatchReason(b: Batch, now: int) {
    forall i :: 0 <= i < |b.items| ==> ItemReason(b.cancelRequested, b.deadline <= now, b.items[i])
  }

  ghost predicate Reasons(s: System) {
    && (forall id :: id in s.db ==> BatchReason(s.db[id], s.now))
    && (forall e :: e in s.workers ==> PcReason(s, s.workers[e]))
  }

  // ---------------------------------------------------------------- functions

  lemma NotifySays(kind: Kind, resultId: string, customId: string, n: Notice)
    ensures Says(Notify(kind, resultId, customId, n),
                 if n.Restarted? then Interrupted else if kind.OpenAIBatch? then NoticeState(n) else Failed)
  {
  }

  lemma BoundReason(job: Job, state: ItemState, line: Line, requested: bool, late: bool)
    requires job.total <= MAX_ITEMS && Justified(requested, late, line, state)
    ensures var (l, st) := Bound(job, state, line);
            Justified(requested, late, l, st) && (state.Succeeded? || state.Failed? ==> st.Succeeded? || st.Failed?) && (Terminal(state) ==> Terminal(st))
  {
    hide OpenAISize, MessageSize;
  }

  lemma StartFinishReason(s: System, job: Job, state: ItemState, line: Line, linked: bool)
    requires job.total <= MAX_ITEMS && Terminal(state)
    requires Justified(Requested(s, job.id), job.deadline <= s.now, line, state)
    ensures PcReason(s, StartFinish(job, state, line, linked))
  {
    hide Justified, Bound;
    BoundReason(job, state, line, Requested(s, job.id), job.deadline <= s.now);
  }

  lemma StopLineReason(kind: Kind, resultId: string, customId: string, canceled: bool, started: bool, requested: bool, late: bool)
    requires if canceled then requested else late
    ensures Justified(requested, late, StopLine(kind, resultId, customId, canceled, started), if canceled then Canceled else Expired)
  {
  }

  lemma OutcomeReason(job: Job, r: Recorder)
    ensures var (line, state) := Outcome(job, r); Says(line, state) && (state.Succeeded? || state.Failed?)
  {
  }

  lemma CheckReason(s: System, job: Job, readOk: bool, contextCanceled: bool)
    requires job.total <= MAX_ITEMS && (contextCanceled ==> MayBeStopped(s, job))
    ensures PcReason(s, Check(job, readOk, Flag(s, job), s.now, contextCanceled))
  {
    hide StartFinish, Justified, StopLine, Notify;
    var requested, late := Requested(s, job.id), job.deadline <= s.now;
    var canceled, expired := StopLine(job.kind, job.resultId, job.customId, true, false), StopLine(job.kind, job.resultId, job.customId, false, false);
    if requested {
      StopLineReason(job.kind, job.resultId, job.customId, true, false, requested, late);
      StartFinishReason(s, job, Canceled, canceled, false);
    }
    if late {
      StopLineReason(job.kind, job.resultId, job.customId, false, false, requested, late);
      StartFinishReason(s, job, Expired, expired, false);
    }
    NoticeFinishReason(s, job, CancelUnknown);
  }

  lemma NoticeFinishReason(s: System, job: Job, n: Notice)
    requires job.total <= MAX_ITEMS && !n.Restarted? && NoticeState(n) == Failed
    ensures PcReason(s, NoticeFinish(job, n))
  {
    hide StartFinish;
    NotifySays(job.kind, job.resultId, job.customId, n);
    StartFinishReason(s, job, Failed, Notify(job.kind, job.resultId, job.customId, n), false);
  }

  lemma JudgeReason(s: System, job: Job, r: Recorder, readOk: bool, contextCanceled: bool)
    requires job.total <= MAX_ITEMS && (contextCanceled ==> MayBeStopped(s, job))
    ensures PcReason(s, Judge(job, r, readOk, Flag(s, job), s.now, contextCanceled))
  {
    hide StartFinish, StopLine, Outcome, Bound, Says;
    var requested, late, linked := Requested(s, job.id), job.deadline <= s.now, r.requestId != "";
    if requested {
      StopLineReason(job.kind, job.resultId, job.customId, true, true, requested, late);
      StartFinishReason(s, job, Canceled, StopLine(job.kind, job.resultId, job.customId, true, true), linked);
    }
    if late {
      StopLineReason(job.kind, job.resultId, job.customId, false, true, requested, late);
      StartFinishReason(s, job, Expired, StopLine(job.kind, job.resultId, job.customId, false, true), linked);
    }
    OutcomeReason(job, r);
    var (line, state) := Outcome(job, r);
    BoundReason(job, state, line, requested, late);
    var (line', state') := Bound(job, state, line);
    StartFinishReason(s, job, state', line', false);
  }

  lemma RecoverReason(b: Batch, item: Item, listed: ItemState, now: int)
    requires ItemReason(b.cancelRequested, b.deadline <= now, item)
    ensures ItemReason(b.cancelRequested, b.deadline <= now, RecoverItem(b, item, listed, now))
  {
  }

  lemma StopItemReason(kind: Kind, item: Item, canceled: bool, requested: bool, late: bool)
    requires ItemReason(requested, late, item) && (if canceled then requested else late)
    ensures ItemReason(requested, late, StopItem(kind, item, canceled))
  {
    hide StopLine;
    StopLineReason(kind, item.resultId, item.customId, canceled, false, requested, late);
  }

  /** More time and a cancel request never invalidate a reason. */
  lemma ReasonIsKept(requested: bool, late: bool, requested': bool, late': bool, item: Item)
    requires ItemReason(requested, late, item) && (requested ==> requested') && (late ==> late')
    ensures ItemReason(requested', late', item)
  {
  }

  // -------------------------------------------------------------------- steps

  /** Every step leaves items with reasons if those it changed have them, and likewise workers. */
  lemma ReasonsFrame(s: System, t: System)
    requires Rows(s) && Reasons(s) && Evolves(s, t)
    requires forall id, i :: HasItem(t, id, i) && !(HasItem(s, id, i) && ItemAt(t, id, i) == ItemAt(s, id, i)) ==>
               ItemReason(t.db[id].cancelRequested, t.db[id].deadline <= t.now, ItemAt(t, id, i))
    requires forall e :: e in t.workers && !(e in s.workers && t.workers[e] == s.workers[e]) ==> PcReason(t, t.workers[e])
    ensures Reasons(t)
  {
    hide ItemReason, Justified, BatchOk, PcOk;
    forall id | id in t.db ensures BatchReason(t.db[id], t.now) { BatchFrame(s, t, id); }
    forall e | e in t.workers ensures PcReason(t, t.workers[e]) {
      if e in s.workers && t.workers[e] == s.workers[e] {
        assert PcOk(s, s.workers[e]);
        PcFrame(s, t, s.workers[e]);
      }
    }
  }

  lemma BatchFrame(s: System, t: System, id: BatchId)
    requires Rows(s) && Reasons(s) && Evolves(s, t) && id in t.db
    requires forall i :: HasItem(t, id, i) && !(HasItem(s, id, i) && ItemAt(t, id, i) == ItemAt(s, id, i)) ==>
               ItemReason(t.db[id].cancelRequested, t.db[id].deadline <= t.now, ItemAt(t, id, i))
    ensures BatchReason(t.db[id], t.now)
  {
    hide ItemReason, BatchOk, PcOk, ItemEvolves;
    var b := t.db[id];
    forall i: nat | i < |b.items| ensures ItemReason(b.cancelRequested, b.deadline <= t.now, b.items[i]) {
      if HasItem(s, id, i) && ItemAt(t, id, i) == ItemAt(s, id, i) {
        var a := s.db[id];
        assert BatchEvolves(a, b);
        assert ItemReason(a.cancelRequested, a.deadline <= s.now, a.items[i]);
        ReasonIsKept(a.cancelRequested, a.deadline <= s.now, b.cancelRequested, b.deadline <= t.now, a.items[i]);
      } else {
        assert HasItem(t, id, i);
      }
    }
  }

  lemma PcFrame(s: System, t: System, pc: Pc)
    requires PcReason(s, pc) && PcOk(s, pc) && Evolves(s, t)
    ensures PcReason(t, pc)
  {
    hide LineOk, Says;
    if pc.Finishing? && pc.job.id in t.db { assert BatchEvolves(s.db[pc.job.id], t.db[pc.job.id]); }
  }

  lemma ClaimReasons(s: System, step: Step, t: System)
    requires Rows(s) && Reasons(s) && Evolves(s, t) && step.Claim? && WorkerStep(s, step, t)
    ensures Reasons(t)
  {
    hide BatchOk, PcOk, BatchEvolves, Reasons, Justified;
    ReasonsFrame(s, t);
  }

  lemma ArmReasons(s: System, step: Step, t: System)
    requires Rows(s) && Reasons(s) && Evolves(s, t) && step.Arm? && WorkerStep(s, step, t)
    ensures Reasons(t)
  {
    hide BatchOk, PcOk, BatchEvolves, Reasons, Justified;
    ReasonsFrame(s, t);
  }

  lemma StoreReasons(s: System, step: Step, t: System)
    requires Rows(s) && Reasons(s) && Evolves(s, t) && step.Store? && WorkerStep(s, step, t)
    ensures Reasons(t)
  {
    hide Rows, Evolves, StartFinish, Reasons, ItemReason, PcReason;
    var pc := s.workers[step.epoch];
    PcOf(s, step.epoch);
    IdleReason(t);
    StoredReason(s, pc, t);
    ReasonsFrame(s, t);
  }

  lemma StoredReason(s: System, pc: Pc, t: System)
    requires pc.Storing? && PcReason(s, pc) && pc.job.total <= MAX_ITEMS
    ensures PcReason(t, StartFinish(pc.job, pc.state, pc.line, pc.linked))
    ensures forall item: Item, requested, late ::
              ItemReason(requested, late, item.(state := Settling, line := Some(pc.line), linked := pc.linked, intended := pc.state))
  {
    hide Says, StartFinish;
    StartFinishReason(t, pc.job, pc.state, pc.line, pc.linked);
  }

  lemma PcOf(s: System, e: Epoch)
    requires Reasons(s) && e in s.workers
    ensures PcReason(s, s.workers[e])
  {
  }

  lemma FinishReasons(s: System, step: Step, t: System)
    requires Rows(s) && Reasons(s) && Evolves(s, t) && step.Finish? && WorkerStep(s, step, t)
    ensures Reasons(t)
  {
    hide Rows, Evolves, Reasons, ItemReason, PcReason, FinishItem, EndIfDone;
    var pc := s.workers[step.epoch];
    PcOf(s, step.epoch);
    IdleReason(t);
    if CanFinish(s, pc.job) { FinishedItem(s, step.epoch); }
    ReasonsFrame(s, t);
  }

  lemma IdleReason(s: System)
    ensures PcReason(s, Idle)
  {
  }

  lemma FinishedItem(s: System, e: Epoch)
    requires Rows(s) && e in s.workers && s.workers[e].Finishing? && PcReason(s, s.workers[e]) && CanFinish(s, s.workers[e].job)
    ensures var pc := s.workers[e];
            var a, b := s.db[pc.job.id], DoFinish(s, pc).db[pc.job.id];
            && b.cancelRequested == a.cancelRequested && b.deadline == a.deadline
            && b.items == a.items[pc.job.index := FinishItem(a.items[pc.job.index], pc.state, pc.line, pc.linked)]
            && ItemReason(b.cancelRequested, b.deadline <= s.now, b.items[pc.job.index])
  {
    hide BatchOk, LineOk, Justified;
    assert PcOk(s, s.workers[e]);
  }

  lemma WorkerReasons(s: System, step: Step, t: System)
    requires Rows(s) && Reasons(s) && Evolves(s, t)
    requires Works(step)
    requires WorkerStep(s, step, t)
    ensures Reasons(t)
  {
    hide Rows, Reasons, Evolves, Check, Judge, NoticeFinish, PcReason, Attempt;
    match step
    case Claim(_, _, _, _) => ClaimReasons(s, step, t);
    case Arm(_, _) => ArmReasons(s, step, t);
    case Store(_, _) => StoreReasons(s, step, t);
    case Finish(_, _) => FinishReasons(s, step, t);
    case Refuse(e, notice) =>
      NoticeFinishReason(t, s.workers[e].job, notice);
      ReasonsFrame(s, t);
    case ReadCancel(e, readOk, contextCanceled) =>
      CheckReason(t, s.workers[e].job, readOk, contextCanceled);
      ReasonsFrame(s, t);
    case Decide(e, readOk, contextCanceled) =>
      JudgeReason(t, s.workers[e].job, s.workers[e].recorder, readOk, contextCanceled);
      ReasonsFrame(s, t);
    case Call(e, recorder) =>
      ReturnedReason(t, s.workers[e].job, recorder);
      ReasonsFrame(s, t);
  }

  lemma ReturnedReason(s: System, job: Job, r: Recorder)
    ensures PcReason(s, Returned(job, r)) && PcReason(s, Idle)
  {
  }

  lemma TableReasons(s: System, step: Step, t: System)
    requires Rows(s) && Reasons(s) && Evolves(s, t)
    requires !Works(step)
    requires TableStep(s, step, t)
    ensures Reasons(t)
  {
    hide Rows, Evolves, RecoverItem, StopItem, ItemReason, CanFinalize, EndIfDone, CancelBatch, PcReason;
    match step
    case Create(id, b) =>
      NewReason(b);
      ReasonsFrame(s, t);
    case Reconcile(id, i, canceled) =>
      assert BatchReason(s.db[id], s.now);
      StopItemReason(s.db[id].kind, ItemAt(s, id, i), canceled, s.db[id].cancelRequested, s.db[id].deadline <= s.now);
      ReasonsFrame(s, t);
    case Recover(id, i, listed) =>
      assert BatchReason(s.db[id], s.now);
      RecoverReason(s.db[id], ItemAt(s, id, i), listed, s.now);
      ReasonsFrame(s, t);
    case Cancel(id) =>
      CancelReason(s.db[id], s.now);
      ReasonsFrame(s, t);
    case End(id) =>
      EndKeepsItems(s.db[id]);
      ReasonsFrame(s, t);
    case Boot(_) =>
      IdleReason(t);
      ReasonsFrame(s, t);
    case _ => ReasonsFrame(s, t);
  }

  lemma NewReason(b: Batch)
    requires forall i :: 0 <= i < |b.items| ==> NewItem(b.items[i])
    ensures forall i, requested, late :: 0 <= i < |b.items| ==> ItemReason(requested, late, b.items[i])
  {
  }

  lemma CancelReason(b: Batch, now: int)
    requires BatchReason(b, now)
    ensures BatchReason(CancelBatch(b), now)
  {
    hide ItemReason, StopItem, AnyActive;
    if Open(b) {
      forall i | 0 <= i < |b.items| ensures ItemReason(true, b.deadline <= now, StopItem(b.kind, b.items[i], true)) {
        ReasonIsKept(b.cancelRequested, b.deadline <= now, true, b.deadline <= now, b.items[i]);
        StopItemReason(b.kind, b.items[i], true, true, b.deadline <= now);
      }
    }
  }

  lemma {:induction false} RunKeepsReasons(states: seq<System>, steps: seq<Step>, i: nat)
    requires Run(states, steps) && i < |states|
    ensures Reasons(states[i])
  {
    hide Rows, Calls, Finalized, Evolves, WorkerStep, TableStep, BatchReason;
    if i > 0 {
      RunKeepsReasons(states, steps, i - 1);
      RunKeepsInv(states, steps, i - 1);
      StepKeepsInv(states[i - 1], steps[i - 1], states[i]);
      var step := steps[i - 1];
      assert Next(states[i - 1], step, states[i]);
      if Works(step) {
        WorkerReasons(states[i - 1], step, states[i]);
      } else {
        TableReasons(states[i - 1], step, states[i]);
      }
    }
  }

  /** In every run the stored line of an ended item says its state; apart from errors in the provider's own words, only
      a requested cancel cancels it and only the deadline expires it. */
  lemma EndingsAreJustified(states: seq<System>, steps: seq<Step>, i: nat, id: BatchId, index: nat)
    requires Run(states, steps) && i < |states| && HasItem(states[i], id, index) && Terminal(ItemAt(states[i], id, index).state)
    ensures var b, item := states[i].db[id], ItemAt(states[i], id, index);
            item.line.Some? && Says(item.line.value, item.state)
            && (item.state.Canceled? && !ProviderError(item.line.value) ==> b.cancelRequested)
            && (item.state.Expired? && !ProviderError(item.line.value) ==> b.deadline <= states[i].now)
  {
    hide Run, Says;
    RunKeepsReasons(states, steps, i);
    assert BatchReason(states[i].db[id], states[i].now);
  }

  /** Recovering an OpenAI item that crashed in `settling` gives what the process holding its lease was about to store
      if and only if the stored line is not a provider error whose own code reads like the gateway's cancellation or
      expiry. */
  lemma RecoveryOfSettledOpenAIItems(states: seq<System>, steps: seq<Step>, i: nat, id: BatchId, index: nat)
    requires Run(states, steps) && i < |states| && HasItem(states[i], id, index)
    requires states[i].db[id].kind.OpenAIBatch? && ItemAt(states[i], id, index).state.Settling?
    ensures var s, item := states[i], ItemAt(states[i], id, index);
            item.line.Some? && item.line.value.OpenAI?
            && (RecoverItem(s.db[id], item, Settling, s.now) == FinishItem(item, item.intended, item.line.value, false)
                <==> !(ProviderError(item.line.value) && item.line.value.openai.code in {"batch_cancelled", "batch_expired"}))
            && (item.lease in s.workers && s.workers[item.lease].Finishing? && KeyOf(s.workers[item.lease].job) == (id, index) ==>
                  s.workers[item.lease].state == item.intended && item.line == Some(s.workers[item.lease].line))
  {
    hide Run, Size, Calls, Finalized, LineLimit;
    RunKeepsInv(states, steps, i);
    RunKeepsReasons(states, steps, i);
    RunKeepsSettled(states, steps, i);
    var b := states[i].db[id];
    assert BatchOk(b);
    assert ItemOk(b.kind, b.total, b.items[index]);
    assert BatchReason(b, states[i].now);
  }
}
