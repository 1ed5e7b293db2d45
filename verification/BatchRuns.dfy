/** Theorems about whole runs of the batch machine. */
module BatchRuns {
  import opened BatchLines
  import opened BatchMachine
  import opened Common
  import opened BatchSafety

  // --------------------------------------------------- how rows may change

  ghost predicate ItemEvolves(x: Item, y: Item) {
    && SameRequest(x, y)
    && (Terminal(x.state) ==> y == x)
    && (Unstarted(y.state) ==> Unstarted(x.state))
    && (y.state.Dispatching? ==> x.state.Dispatching? || Unstarted(x.state))
  }

  ghost predicate BatchEvolves(a: Batch, b: Batch) {
    && a.kind == b.kind && a.total == b.total && a.deadline == b.deadline && a.owner == b.owner && a.key == b.key
    && (a.cancelRequested ==> b.cancelRequested)
    && (a.status.Ended? || a.files.Some? ==> b == a)
    && (b.files.None? ==> |a.items| == |b.items| && forall i :: 0 <= i < |a.items| ==> ItemEvolves(a.items[i], b.items[i]))
    && (b.files.Some? ==> b.items == [])
  }

  /** Batches are never re-created, and those that remain only evolve; calls are never forgotten. */
  ghost predicate Evolves(s: System, t: System) {
    && s.used <= t.used && s.now <= t.now && s.calls <= t.calls
    && forall id :: id in s.used && id in t.db ==> id in s.db && BatchEvolves(s.db[id], t.db[id])
  }

  lemma PutItemEvolves(b: Batch, i: nat, item: Item)
    requires BatchOk(b) && i < |b.items| && ItemEvolves(b.items[i], item)
    requires b.status.Ended? || b.files.Some? ==> item == b.items[i]
    ensures BatchEvolves(b, PutItem(b, i, item))
  {
    if item == b.items[i] { assert PutItem(b, i, item) == b; }
  }

  lemma EndedItemsAreTerminal(b: Batch, i: nat)
    requires BatchOk(b) && i < |b.items| && b.status.Ended?
    ensures Terminal(b.items[i].state)
  {
  }

  lemma EndIfDoneEvolves(a: Batch, b: Batch)
    requires BatchEvolves(a, b)
    requires a.status.Ended? || a.files.Some? ==> EndIfDone(b) == b
    ensures BatchEvolves(a, EndIfDone(b))
  {
  }

  /** Every row of a well-formed table evolves from itself, so replacing one batch is all a statement does. */
  lemma PutBatchEvolves(s: System, id: BatchId, b: Batch)
    requires Rows(s) && id in s.db && BatchEvolves(s.db[id], b)
    ensures Evolves(s, SetBatch(s, id, b))
  {
    hide ItemOk;
    forall k | k in s.db ensures BatchEvolves(s.db[k], s.db[k]) { assert BatchOk(s.db[k]); }
  }

  lemma SameTableEvolves(s: System, t: System)
    requires Rows(s) && s.used <= t.used && s.now <= t.now && s.calls <= t.calls
    requires forall id :: id in t.db && id in s.used ==> id in s.db && t.db[id] == s.db[id]
    ensures Evolves(s, t)
  {
    hide ItemOk;
    forall k | k in s.db ensures BatchEvolves(s.db[k], s.db[k]) { assert BatchOk(s.db[k]); }
  }

  lemma EvolvesFromItself(s: System)
    requires Inv(s)
    ensures Evolves(s, s)
  {
    SameTableEvolves(s, s);
  }

  lemma AttemptEvolves(s: System, t: System, e: Epoch, enabled: bool, effect: System, next: Pc, report: Report)
    requires Rows(s) && e in s.workers && Attempt(s, t, e, enabled, effect, next, report)
    requires enabled ==> Evolves(s, effect)
    ensures Evolves(s, t)
  {
    hide BatchEvolves, Rows;
    SameTableEvolves(s, s);
  }

  lemma FinishEvolves(s: System, pc: Pc)
    requires Rows(s) && PcOk(s, pc) && pc.Finishing? && CanFinish(s, pc.job)
    ensures Evolves(s, DoFinish(s, pc))
  {
    hide LineOk;
    var b, item := s.db[pc.job.id], ItemAt(s, pc.job.id, pc.job.index);
    if b.status.Ended? { EndedItemsAreTerminal(b, pc.job.index); }
    var item' := FinishItem(item, pc.state, pc.line, pc.linked);
    PutItemEvolves(b, pc.job.index, item');
    EndIfDoneEvolves(b, PutItem(b, pc.job.index, item'));
    PutBatchEvolves(s, pc.job.id, EndIfDone(PutItem(b, pc.job.index, item')));
  }

  lemma ClaimEvolves(s: System, step: Step, t: System)
    requires Rows(s) && step.Claim? && WorkerStep(s, step, t)
    ensures Evolves(s, t)
  {
    hide LineOk, BatchEvolves;
    var id, i := step.id, step.index;
    var item := ItemAt(s, id, i).(state := Claimed, lease := step.epoch);
    assert BatchOk(s.db[id]);
    PutItemEvolves(s.db[id], i, item);
    PutBatchEvolves(s, id, PutItem(s.db[id], i, item));
    SameTableEvolves(s, s);
  }

  lemma ArmEvolves(s: System, e: Epoch, job: Job)
    requires Rows(s) && CanArm(s, e, job)
    ensures Evolves(s, DoArm(s, job))
  {
    hide LineOk, BatchEvolves;
    var b, item := s.db[job.id], ItemAt(s, job.id, job.index).(state := Dispatching);
    assert BatchOk(b);
    PutItemEvolves(b, job.index, item);
    PutBatchEvolves(s, job.id, PutItem(b, job.index, item));
  }

  lemma StoreEvolves(s: System, e: Epoch, pc: Pc)
    requires Rows(s) && pc.Storing? && CanStore(s, e, pc.job)
    ensures Evolves(s, DoStore(s, pc))
  {
    hide LineOk, BatchEvolves;
    var b := s.db[pc.job.id];
    var item := ItemAt(s, pc.job.id, pc.job.index).(state := Settling, line := Some(pc.line), linked := pc.linked, intended := pc.state);
    assert BatchOk(b);
    PutItemEvolves(b, pc.job.index, item);
    PutBatchEvolves(s, pc.job.id, PutItem(b, pc.job.index, item));
  }

  lemma WorkerStepEvolves(s: System, step: Step, t: System)
    requires Rows(s)
    requires Works(step)
    requires WorkerStep(s, step, t)
    ensures Evolves(s, t)
  {
    hide BatchOk, Evolves, Judge, Check, StartFinish, NoticeFinish, LineOk, DoArm, DoStore, DoFinish, Attempt;
    var e := step.epoch;
    var pc := s.workers[e];
    match step
    case Claim(_, _, _, _) => ClaimEvolves(s, step, t);
    case Arm(_, report) =>
      if CanArm(s, e, pc.job) {
        ArmEvolves(s, e, pc.job);
        AttemptEvolves(s, t, e, true, DoArm(s, pc.job), Armed(pc.job), report);
      } else { AttemptEvolves(s, t, e, false, s, Armed(pc.job), report); }
    case Store(_, report) =>
      var next := StartFinish(pc.job, pc.state, pc.line, pc.linked);
      if CanStore(s, e, pc.job) {
        StoreEvolves(s, e, pc);
        AttemptEvolves(s, t, e, true, DoStore(s, pc), next, report);
      } else { AttemptEvolves(s, t, e, false, s, next, report); }
    case Finish(_, report) =>
      if CanFinish(s, pc.job) {
        assert PcOk(s, pc);
        FinishEvolves(s, pc);
        AttemptEvolves(s, t, e, true, DoFinish(s, pc), Idle, report);
      } else { AttemptEvolves(s, t, e, false, s, Idle, report); }
    case _ => SameTableEvolves(s, t);
  }

  lemma CancelEvolves(b: Batch)
    requires BatchOk(b)
    ensures BatchEvolves(b, CancelBatch(b)) && BatchEvolves(b, EndIfDone(b))
  {
    hide LineOk, StopLine;
  }

  lemma StopEvolves(b: Batch, i: nat, canceled: bool)
    requires BatchOk(b) && i < |b.items|
    ensures BatchEvolves(b, PutItem(b, i, StopItem(b.kind, b.items[i], canceled)))
  {
    hide LineOk, StopLine, StopItem;
    if b.status.Ended? { EndedItemsAreTerminal(b, i); }
    assert ItemOk(b.kind, b.total, b.items[i]);
    StopItemOk(b, i, canceled);
    PutItemEvolves(b, i, StopItem(b.kind, b.items[i], canceled));
  }

  lemma RecoverEvolves(b: Batch, i: nat, listed: ItemState, now: int)
    requires BatchOk(b) && i < |b.items| && (listed.Claimed? || listed.Dispatching? || listed.Settling?)
    ensures BatchEvolves(b, PutItem(b, i, RecoverItem(b, b.items[i], listed, now)))
  {
    hide LineOk, RecoverItem;
    if b.status.Ended? { EndedItemsAreTerminal(b, i); }
    assert ItemOk(b.kind, b.total, b.items[i]);
    RecoverItemOk(b, b.items[i], listed, now);
    PutItemEvolves(b, i, RecoverItem(b, b.items[i], listed, now));
  }

  lemma FinalizeEvolves(b: Batch)
    requires BatchOk(b) && CanFinalize(b)
    ensures BatchEvolves(b, Finalize(b))
  {
    hide ItemOk, LinesOf, JoinedSize, CountFailed;
  }

  lemma TableStepEvolves(s: System, step: Step, t: System)
    requires Rows(s)
    requires !Works(step)
    requires TableStep(s, step, t)
    ensures Evolves(s, t)
  {
    hide CancelBatch, EndIfDone, RecoverItem, StopItem, BatchEvolves, CanFinalize, Finalize, LineOk;
    match step
    case Reconcile(id, i, canceled) =>
      StopEvolves(s.db[id], i, canceled);
      PutBatchEvolves(s, id, PutItem(s.db[id], i, StopItem(s.db[id].kind, ItemAt(s, id, i), canceled)));
    case Recover(id, i, listed) =>
      RecoverEvolves(s.db[id], i, listed, s.now);
      PutBatchEvolves(s, id, PutItem(s.db[id], i, RecoverItem(s.db[id], ItemAt(s, id, i), listed, s.now)));
    case Cancel(id) => CancelEvolves(s.db[id]); PutBatchEvolves(s, id, CancelBatch(s.db[id]));
    case End(id) => CancelEvolves(s.db[id]); PutBatchEvolves(s, id, EndIfDone(s.db[id]));
    case FinalizeBatch(id) => FinalizeEvolves(s.db[id]); PutBatchEvolves(s, id, Finalize(s.db[id]));
    case _ => SameTableEvolves(s, t);
  }

  lemma EvolvesTransitive(s: System, t: System, u: System)
    requires Evolves(s, t) && Evolves(t, u)
    ensures Evolves(s, u)
  {
    forall id | id in s.used && id in u.db ensures id in s.db && BatchEvolves(s.db[id], u.db[id]) {
      var a, b, c := s.db[id], t.db[id], u.db[id];
      if c.files.None? {
        forall i | 0 <= i < |a.items| ensures ItemEvolves(a.items[i], c.items[i]) {
          assert ItemEvolves(a.items[i], b.items[i]) && ItemEvolves(b.items[i], c.items[i]);
        }
      }
    }
  }

  // ---------------------------------------------------- the call invariant

  predicate BeforeCall(pc: Pc) { pc.Armed? || pc.Cleared? }

  function KeyOf(job: Job): (BatchId, nat) { (job.id, job.index) }

  ghost predicate Past(s: System, k: (BatchId, nat)) {
    k.0 in s.used && (HasItem(s, k.0, k.1) ==> !Unstarted(ItemAt(s, k.0, k.1).state))
  }

  /** At most one call was made or can still be made for any item, and only for items that left the queue. */
  ghost predicate Calls(s: System) {
    && (forall k :: k in s.calls ==> s.calls[k] == 1 && Past(s, k))
    && (forall e :: e in s.workers && BeforeCall(s.workers[e]) ==>
          KeyOf(s.workers[e].job) !in s.calls && Past(s, KeyOf(s.workers[e].job)))
    && (forall e, f :: e in s.workers && f in s.workers && e != f && BeforeCall(s.workers[e]) && BeforeCall(s.workers[f]) ==>
          KeyOf(s.workers[e].job) != KeyOf(s.workers[f].job))
  }

  lemma PastIsKept(s: System, t: System, k: (BatchId, nat))
    requires Evolves(s, t) && Past(s, k)
    ensures Past(t, k)
  {
    if HasItem(t, k.0, k.1) {
      var a, b := s.db[k.0], t.db[k.0];
      assert ItemEvolves(a.items[k.1], b.items[k.1]);
    }
  }

  lemma CallsFrame(s: System, t: System)
    requires Calls(s) && Evolves(s, t) && t.calls == s.calls
    requires forall e :: e in t.workers && BeforeCall(t.workers[e]) ==>
               e in s.workers && BeforeCall(s.workers[e]) && t.workers[e].job == s.workers[e].job
    ensures Calls(t)
  {
    hide Evolves;
    forall k | Past(s, k) ensures Past(t, k) { PastIsKept(s, t, k); }
  }

  lemma ArmKeepsCalls(s: System, step: Step, t: System)
    requires Rows(s) && Calls(s) && step.Arm? && WorkerStep(s, step, t) && Evolves(s, t)
    ensures Calls(t)
  {
    hide BatchOk, Evolves, PcOk;
    var job := s.workers[step.epoch].job;
    if step.report.Done? && CanArm(s, step.epoch, job) {
      var k := KeyOf(job);
      assert !Past(s, k);
      forall q | Past(s, q) ensures Past(t, q) { PastIsKept(s, t, q); }
      assert Past(t, k);
      assert t.calls == s.calls;
    } else {
      CallsFrame(s, t);
    }
  }

  lemma CallKeepsCalls(s: System, step: Step, t: System)
    requires Rows(s) && Calls(s) && step.Call? && WorkerStep(s, step, t)
    ensures Calls(t)
  {
    hide BatchOk;
    var k := KeyOf(s.workers[step.epoch].job);
    assert k !in s.calls && t.calls[k] == 1;
  }

  lemma TableKeepsCalls(s: System, step: Step, t: System)
    requires Calls(s) && Evolves(s, t)
    requires !Works(step)
    requires TableStep(s, step, t)
    ensures Calls(t)
  {
    hide Evolves, Calls, RecoverItem, CancelBatch, StopItem, EndIfDone, Finalize, CanFinalize, NewBatch;
    CallsFrame(s, t);
  }

  lemma WorkerKeepsCalls(s: System, step: Step, t: System)
    requires Rows(s) && Calls(s) && Evolves(s, t)
    requires Works(step)
    requires WorkerStep(s, step, t)
    ensures Calls(t)
  {
    hide Rows, Evolves, Calls, EndIfDone, Judge, Check, StartFinish, CanArm, DoArm, CanStore, CanFinish, Claimable;
    match step
    case Arm(_, _) => ArmKeepsCalls(s, step, t);
    case Call(_, _) => CallKeepsCalls(s, step, t);
    case ReadCancel(e, readOk, contextCanceled) =>
      CheckKeepsJob(s.workers[e].job, readOk, Flag(s, s.workers[e].job), s.now, contextCanceled);
      CallsFrame(s, t);
    case Decide(e, readOk, contextCanceled) =>
      var pc := s.workers[e];
      JudgeKeepsJob(pc.job, pc.recorder, readOk, Flag(s, pc.job), s.now, contextCanceled);
      CallsFrame(s, t);
    case Refuse(e, notice) => StartFinishKeepsJob(s, e, notice); CallsFrame(s, t);
    case Store(e, _) => FinishAfterStore(s.workers[e]); CallsFrame(s, t);
    case _ => CallsFrame(s, t);
  }

  lemma FinishAfterStore(pc: Pc)
    requires pc.Storing? && pc.job.total <= MAX_ITEMS
    ensures var next := StartFinish(pc.job, pc.state, pc.line, pc.linked); next.Finishing? && next.job == pc.job
  {
  }

  lemma StartFinishKeepsJob(s: System, e: Epoch, notice: Notice)
    requires e in s.workers && s.workers[e].Ready? && s.workers[e].job.total <= MAX_ITEMS
    ensures var pc := NoticeFinish(s.workers[e].job, notice); pc.Finishing? && pc.job == s.workers[e].job
  {
  }

  lemma CheckKeepsJob(job: Job, readOk: bool, flag: bool, now: int, contextCanceled: bool)
    requires job.total <= MAX_ITEMS
    ensures var pc := Check(job, readOk, flag, now, contextCanceled);
            (pc.Cleared? || pc.Finishing?) && pc.job == job
  {
  }

  lemma JudgeKeepsJob(job: Job, r: Recorder, readOk: bool, flag: bool, now: int, contextCanceled: bool)
    requires job.total <= MAX_ITEMS
    ensures var pc := Judge(job, r, readOk, flag, now, contextCanceled);
            (pc.Storing? || pc.Finishing?) && pc.job == job
  {
  }

  // ----------------------------------------------------------------- runs

  ghost predicate Finalized(s: System) {
    (forall id :: id in s.finalizations ==> s.finalizations[id] == 1 && id in s.used)
    && (forall id :: id in s.db ==> (id in s.finalizations <==> s.db[id].files.Some?))
  }

  lemma FinalizedFrame(s: System, t: System)
    requires Finalized(s) && SameFiles(s, t)
    ensures Finalized(t)
  {
  }

  lemma FinalizeKeepsFinalized(s: System, id: BatchId)
    requires Rows(s) && Finalized(s) && id in s.db && CanFinalize(s.db[id])
    ensures Finalized(SetBatch(s, id, Finalize(s.db[id])).(finalizations := s.finalizations + multiset{id}))
  {
    hide LinesOf, JoinedSize, TextSize, CountFailed, ItemOk;
    assert BatchOk(s.db[id]);
    assert id !in s.finalizations;
  }

  lemma StepKeepsFinalized(s: System, step: Step, t: System)
    requires Rows(s) && Finalized(s) && Next(s, step, t)
    ensures Finalized(t)
  {
    hide BatchOk, Finalized, WorkerStep, TableStep, Finalize, CanFinalize;
    if step.FinalizeBatch? {
      FinalizationStep(s, step, t);
      FinalizeKeepsFinalized(s, step.id);
    } else {
      if Works(step) {
        WorkerKeepsFiles(s, step, t);
      } else {
        TableKeepsFiles(s, step, t);
      }
      FinalizedFrame(s, t);
    }
  }

  lemma FinalizationStep(s: System, step: Step, t: System)
    requires step.FinalizeBatch? && TableStep(s, step, t)
    ensures step.id in s.db && CanFinalize(s.db[step.id])
            && t == SetBatch(s, step.id, Finalize(s.db[step.id])).(finalizations := s.finalizations + multiset{step.id})
  {
    hide CanFinalize, Finalize;
  }

  /** Apart from finalizing, no statement touches the files of a batch. */
  ghost predicate SameFiles(s: System, t: System) {
    && t.finalizations == s.finalizations && s.used <= t.used
    && forall id :: id in t.db ==>
         if id in s.db then t.db[id].files.Some? == s.db[id].files.Some? else id !in s.used && t.db[id].files.None?
  }

  lemma WorkerKeepsFiles(s: System, step: Step, t: System)
    requires Rows(s)
    requires Works(step)
    requires WorkerStep(s, step, t)
    ensures SameFiles(s, t)
  {
    hide Rows, SameFiles, NoticeFinish, Judge, Check, StartFinish, FinishItem, EndIfDone, Attempt;
    var e := step.epoch;
    var pc := s.workers[e];
    match step
    case Claim(_, id, i, _) =>
      PutBatchKeepsFiles(s, t, id, PutItem(s.db[id], i, ItemAt(s, id, i).(state := Claimed, lease := e)));
    case Arm(_, report) =>
      if CanArm(s, e, pc.job) { PutBatchKeepsFiles(s, DoArm(s, pc.job), pc.job.id, DoArm(s, pc.job).db[pc.job.id]); }
      AttemptKeepsFiles(s, t, e, CanArm(s, e, pc.job), if CanArm(s, e, pc.job) then DoArm(s, pc.job) else s, Armed(pc.job), report);
    case Store(_, report) =>
      if CanStore(s, e, pc.job) { PutBatchKeepsFiles(s, DoStore(s, pc), pc.job.id, DoStore(s, pc).db[pc.job.id]); }
      AttemptKeepsFiles(s, t, e, CanStore(s, e, pc.job), if CanStore(s, e, pc.job) then DoStore(s, pc) else s,
                        StartFinish(pc.job, pc.state, pc.line, pc.linked), report);
    case Finish(_, report) =>
      if CanFinish(s, pc.job) {
        var b := PutItem(s.db[pc.job.id], pc.job.index, FinishItem(ItemAt(s, pc.job.id, pc.job.index), pc.state, pc.line, pc.linked));
        EndIfDoneKeepsFiles(b);
        PutBatchKeepsFiles(s, DoFinish(s, pc), pc.job.id, EndIfDone(b));
      }
      AttemptKeepsFiles(s, t, e, CanFinish(s, pc.job), if CanFinish(s, pc.job) then DoFinish(s, pc) else s, Idle, report);
    case _ => SameTableKeepsFiles(s, t);
  }

  lemma EndIfDoneKeepsFiles(b: Batch)
    ensures EndIfDone(b).files == b.files
  {
  }

  lemma SameTableKeepsFiles(s: System, t: System)
    requires t.db == s.db && t.finalizations == s.finalizations && t.used == s.used
    ensures SameFiles(s, t)
  {
  }

  lemma PutBatchKeepsFiles(s: System, t: System, id: BatchId, b: Batch)
    requires id in s.db && b.files == s.db[id].files
    requires t.db == s.db || t.db == s.db[id := b]
    requires t.finalizations == s.finalizations && t.used == s.used
    ensures SameFiles(s, t)
  {
  }

  lemma AttemptKeepsFiles(s: System, t: System, e: Epoch, enabled: bool, effect: System, next: Pc, report: Report)
    requires e in s.workers && Attempt(s, t, e, enabled, effect, next, report)
    requires enabled ==> SameFiles(s, effect)
    ensures SameFiles(s, t)
  {
  }

  lemma TableKeepsFiles(s: System, step: Step, t: System)
    requires Rows(s)
    requires !Works(step)
    requires !step.FinalizeBatch? && TableStep(s, step, t)
    ensures SameFiles(s, t)
  {
    hide BatchOk, PcOk, StopItems, StopItem, RecoverItem, FinishItem, NewItem;
  }

  ghost predicate Inv(s: System) { Rows(s) && Calls(s) && Finalized(s) }

  lemma StepKeepsInv(s: System, step: Step, t: System)
    requires Inv(s) && Next(s, step, t)
    ensures Inv(t) && Evolves(s, t)
  {
    hide Rows, Calls, Finalized, Evolves;
    if Works(step) {
      WorkerKeepsRows(s, step, t);
      WorkerStepEvolves(s, step, t);
      WorkerKeepsCalls(s, step, t);
    } else {
      TableKeepsRows(s, step, t);
      TableStepEvolves(s, step, t);
      TableKeepsCalls(s, step, t);
    }
    StepKeepsFinalized(s, step, t);
  }

  lemma {:induction false} RunKeepsInv(states: seq<System>, steps: seq<Step>, i: nat)
    requires Run(states, steps) && i < |states|
    ensures Inv(states[i])
  {
    hide Next, Evolves, ItemOk;
    if i > 0 {
      RunKeepsInv(states, steps, i - 1);
      StepKeepsInv(states[i - 1], steps[i - 1], states[i]);
    }
  }

  lemma {:induction false} RunEvolves(states: seq<System>, steps: seq<Step>, i: nat, j: nat)
    requires Run(states, steps) && i <= j < |states|
    ensures Evolves(states[i], states[j])
    decreases j
  {
    hide Rows, Calls, Finalized, Next, Evolves;
    if i < j {
      RunEvolves(states, steps, i, j - 1);
      RunKeepsInv(states, steps, j - 1);
      StepKeepsInv(states[j - 1], steps[j - 1], states[j]);
      EvolvesTransitive(states[i], states[j - 1], states[j]);
    } else {
      RunKeepsInv(states, steps, i);
      EvolvesFromItself(states[i]);
    }
  }
}
