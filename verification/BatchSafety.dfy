/** What every run of the batch machine keeps: the shape of the rows, at most one forwarded request per item,
    the finality of cancellation and of terminal states, and exactly one finalization. */
module BatchSafety {
  import opened BatchLines
  import opened BatchMachine
  import opened Common

  // ------------------------------------------------------------ row invariants

  /** A stored line obeys the limit of its table, and says "succeeded" exactly when the state does. */
  ghost predicate LineOk(kind: Kind, total: nat, line: Line, state: ItemState)
    requires total <= MAX_ITEMS
  {
    && 0 < Size(line)
    && line.OpenAI? == kind.OpenAIBatch?
    && (line.OpenAI? ==> Size(line) <= LineLimit(total) && (line.openai.Success? <==> state.Succeeded?))
    && (line.Anthropic? ==> Size(line) <= MAX_INFERENCE_BODY && (line.anthropic.Message? <==> state.Succeeded?))
  }

  ghost predicate ItemOk(kind: Kind, total: nat, item: Item)
    requires total <= MAX_ITEMS
  {
    && 0 < |item.customId| <= 64 && 0 < |item.resultId| <= 128
    && (item.line.Some? <==> item.state.Settling? || Terminal(item.state))
    && (Terminal(item.state) ==> LineOk(kind, total, item.line.value, item.state))
    && (item.state.Settling? ==>
          && (item.intended.Succeeded? || item.intended.Failed?)
          && LineOk(kind, total, item.line.value, item.intended)
          && (kind.MessageBatch? ==> ResultState(item.line.value) == item.intended))
  }

  ghost predicate BatchOk(b: Batch) {
    && 1 <= b.total <= MAX_ITEMS
    && (forall i :: 0 <= i < |b.items| ==> ItemOk(b.kind, b.total, b.items[i]))
    && (b.cancelRequested ==> forall i :: 0 <= i < |b.items| ==> !Unstarted(b.items[i].state))
    && (b.status.Cancelling? ==> b.cancelRequested)
    && (b.files.None? ==> |b.items| == b.total)
    && (b.kind.MessageBatch? ==> b.files.None? && (Open(b) || b.status.Ended?))
    && (b.status.Ended? ==> b.kind.MessageBatch? && !AnyActive(b.items))
    && (b.kind.OpenAIBatch? ==> (Open(b) <==> b.files.None?) && (b.files.Some? ==> b.items == []))
  }

  /** A worker's remembered row is the stored one, as long as that still exists. */
  ghost predicate JobOk(s: System, job: Job) {
    && job.id in s.used
    && 1 <= job.total <= MAX_ITEMS && 0 < |job.customId| <= 64 && 0 < |job.resultId| <= 128
    && (job.id in s.db ==>
          s.db[job.id].kind == job.kind && s.db[job.id].total == job.total && s.db[job.id].deadline == job.deadline)
  }

  ghost predicate PcOk(s: System, pc: Pc) {
    (!pc.Idle? ==> JobOk(s, pc.job))
    && (pc.Storing? ==> (pc.state.Succeeded? || pc.state.Failed?) && LineOk(pc.job.kind, pc.job.total, pc.line, pc.state)
                        && (pc.job.kind.MessageBatch? ==> ResultState(pc.line) == pc.state))
    && (pc.Finishing? ==> Terminal(pc.state) && LineOk(pc.job.kind, pc.job.total, pc.line, pc.state))
  }

  ghost predicate Rows(s: System) {
    && s.db.Keys <= s.used
    && (forall id :: id in s.db ==> BatchOk(s.db[id]))
    && (forall e :: e in s.workers ==> e in s.epochs && PcOk(s, s.workers[e]))
  }

  // -------------------------------------------------------- row-level lemmas

  predicate SameRequest(x: Item, y: Item) {
    x.customId == y.customId && x.resultId == y.resultId && x.requestBytes == y.requestBytes
  }

  lemma StopLineOk(kind: Kind, total: nat, resultId: string, customId: string, canceled: bool, started: bool)
    requires 1 <= total <= MAX_ITEMS && 0 < |customId| <= 64 && 0 < |resultId| <= 128
    ensures LineOk(kind, total, StopLine(kind, resultId, customId, canceled, started), if canceled then Canceled else Expired)
  {
    hide NoticeSize, MessageNoticeSize;
    NoticeIsShort(if canceled then (if started then CancelledDuring else CancelledBefore) else (if started then ExpiredDuring else ExpiredBefore));
    assert LineLimit(total) >= 4194303;
  }

  lemma NotifyOk(kind: Kind, total: nat, resultId: string, customId: string, n: Notice, state: ItemState)
    requires 1 <= total <= MAX_ITEMS && 0 < |customId| <= 64 && 0 < |resultId| <= 128 && !state.Succeeded?
    ensures LineOk(kind, total, Notify(kind, resultId, customId, n), state)
  {
    hide NoticeSize, MessageNoticeSize;
    NoticeIsShort(n);
    assert LineLimit(total) >= 4194303;
  }

  lemma StopItemOk(b: Batch, i: nat, canceled: bool)
    requires 1 <= b.total <= MAX_ITEMS && i < |b.items| && ItemOk(b.kind, b.total, b.items[i])
    ensures ItemOk(b.kind, b.total, StopItem(b.kind, b.items[i], canceled))
    ensures var y := StopItem(b.kind, b.items[i], canceled);
            && !Unstarted(y.state) && SameRequest(y, b.items[i])
            && (!Unstarted(b.items[i].state) ==> y == b.items[i]) && (Unstarted(b.items[i].state) ==> Terminal(y.state))
  {
    hide NoticeSize, MessageNoticeSize;
    StopLineOk(b.kind, b.total, b.items[i].resultId, b.items[i].customId, canceled, false);
  }

  lemma PutItemOk(b: Batch, i: nat, item: Item)
    requires BatchOk(b) && i < |b.items| && ItemOk(b.kind, b.total, item)
    requires b.cancelRequested ==> !Unstarted(item.state)
    requires b.status.Ended? ==> !item.state.Active()
    ensures BatchOk(PutItem(b, i, item))
  {
  }

  lemma CancelOk(b: Batch)
    requires BatchOk(b)
    ensures BatchOk(CancelBatch(b))
    ensures Open(b) ==> CancelBatch(b).cancelRequested
    ensures CancelBatch(b).kind == b.kind && CancelBatch(b).total == b.total && CancelBatch(b).deadline == b.deadline
  {
    hide NoticeSize, MessageNoticeSize;
    forall i: nat | i < |b.items|
      ensures ItemOk(b.kind, b.total, StopItem(b.kind, b.items[i], true)) && !Unstarted(StopItem(b.kind, b.items[i], true).state)
    {
      StopItemOk(b, i, true);
    }
  }

  lemma RecoverItemOk(b: Batch, item: Item, listed: ItemState, now: int)
    requires 1 <= b.total <= MAX_ITEMS && ItemOk(b.kind, b.total, item)
    ensures ItemOk(b.kind, b.total, RecoverItem(b, item, listed, now))
    ensures item.state.Active() || RecoverItem(b, item, listed, now) == item
    ensures !item.state.Claimed? ==> !RecoverItem(b, item, listed, now).state.Claimed?
    ensures Unstarted(RecoverItem(b, item, listed, now).state) ==> Unstarted(item.state)
    ensures RecoverItem(b, item, listed, now).state.Dispatching? ==> item.state.Dispatching?
    ensures var y := RecoverItem(b, item, listed, now); SameRequest(y, item)
  {
    hide NoticeSize, MessageNoticeSize;
    hide Size, Notify;
    NotifyOk(b.kind, b.total, item.resultId, item.customId, ExpiredDuring, Expired);
    NotifyOk(b.kind, b.total, item.resultId, item.customId, Restarted, Interrupted);
  }

  lemma RecoverOk(b: Batch, i: nat, listed: ItemState, now: int)
    requires BatchOk(b) && i < |b.items|
    ensures BatchOk(PutItem(b, i, RecoverItem(b, b.items[i], listed, now)))
  {
    hide NoticeSize, MessageNoticeSize;
    assert ItemOk(b.kind, b.total, b.items[i]);
    RecoverItemOk(b, b.items[i], listed, now);
    PutItemOk(b, i, RecoverItem(b, b.items[i], listed, now));
  }

  // ------------------------------------------------------------ the size check

  lemma {:induction false} TextSizeBound(lines: seq<Line>, limit: nat)
    requires forall i :: 0 <= i < |lines| ==> Size(lines[i]) <= limit
    ensures TextSize(lines) <= |lines| * limit
  {
    hide Size;
    if lines != [] {
      TextSizeBound(lines[1..], limit);
      assert |lines| * limit == limit + |lines[1..]| * limit;
    }
  }

  lemma {:induction false} LinesOfBound(items: seq<Item>, limit: nat, succeeded: bool)
    requires forall i :: 0 <= i < |items| ==> items[i].line.Some? && Size(items[i].line.value) <= limit
    ensures |LinesOf(items, succeeded)| <= |items|
    ensures forall i :: 0 <= i < |LinesOf(items, succeeded)| ==> Size(LinesOf(items, succeeded)[i]) <= limit
  {
    hide Size;
    if items != [] { LinesOfBound(items[1..], limit, succeeded); }
  }

  lemma MoreLines(m: nat, n: nat, limit: nat)
    requires m <= n
    ensures m * limit <= n * limit
  {
  }

  lemma LinesFit(b: Batch, succeeded: bool)
    requires BatchOk(b) && b.kind.OpenAIBatch? && |b.items| == b.total && !AnyActive(b.items)
    ensures JoinedSize(LinesOf(b.items, succeeded)) <= MAX_FILE_BYTES
  {
    hide Size, LineLimit, LinesOf, TextSize;
    var limit := LineLimit(b.total);
    forall i | 0 <= i < |b.items| ensures b.items[i].line.Some? && Size(b.items[i].line.value) <= limit {
      assert !b.items[i].state.Active() && ItemOk(b.kind, b.total, b.items[i]);
    }
    LinesOfBound(b.items, limit, succeeded);
    var lines := LinesOf(b.items, succeeded);
    TextSizeBound(lines, limit);
    LineLimitFits(b.total);
    MoreLines(|lines|, b.total, limit);
  }

  /** Because every stored line obeys the per-line limit, the joined files always fit: once no item is active,
      nothing keeps an open OpenAI Batch from being finalized. */
  lemma SizeCheckNeverBlocks(b: Batch)
    requires BatchOk(b) && b.kind.OpenAIBatch? && Open(b)
    ensures CanFinalize(b) <==> !AnyActive(b.items)
  {
    if !AnyActive(b.items) {
      LinesFit(b, true);
      LinesFit(b, false);
    }
  }

  // -------------------------------------------------------- worker-code lemmas

  /** The replacement for a line over its limit is within it. */
  lemma TooLargeFits(total: nat, id: string, customId: string)
    requires 1 <= total <= MAX_ITEMS && |customId| <= 64 && |id| <= 128
    ensures 0 < OpenAISize(Gateway(id, customId, TooLarge)) <= LineLimit(total)
    ensures 0 < MessageSize(GatewayError(customId, TooLarge)) <= MAX_INFERENCE_BODY
  {
    hide NoticeSize, MessageNoticeSize;
    NoticeIsShort(TooLarge);
    assert LineLimit(total) >= 4194303;
  }

  lemma BoundOk(job: Job, state: ItemState, line: Line)
    requires 1 <= job.total <= MAX_ITEMS && 0 < |job.customId| <= 64 && 0 < |job.resultId| <= 128
    requires line.OpenAI? == job.kind.OpenAIBatch? && 0 < Size(line)
    requires line.OpenAI? ==> (line.openai.Success? <==> state.Succeeded?)
    requires line.Anthropic? ==> (line.anthropic.Message? <==> state.Succeeded?)
    ensures var (l, st) := Bound(job, state, line);
            LineOk(job.kind, job.total, l, st) && (st == state || st.Failed?) && (Terminal(state) ==> Terminal(st))
            && (LineOk(job.kind, job.total, line, state) ==> (l, st) == (line, state))
            && (job.kind.MessageBatch? && ResultState(line) == state ==> ResultState(l) == st)
  {
    hide OpenAISize, MessageSize, LineLimit;
    TooLargeFits(job.total, job.resultId, job.customId);
  }

  lemma CheckOk(s: System, job: Job, readOk: bool, flag: bool, now: int, contextCanceled: bool)
    requires JobOk(s, job)
    ensures PcOk(s, Check(job, readOk, flag, now, contextCanceled))
  {
    hide NoticeSize, MessageNoticeSize;
    StopLineOk(job.kind, job.total, job.resultId, job.customId, true, false);
    StopLineOk(job.kind, job.total, job.resultId, job.customId, false, false);
    NotifyOk(job.kind, job.total, job.resultId, job.customId, CancelUnknown, Failed);
  }

  lemma OutcomeOk(job: Job, r: Recorder)
    requires 1 <= job.total <= MAX_ITEMS && 0 < |job.customId| <= 64 && 0 < |job.resultId| <= 128
    ensures var (line, state) := Outcome(job, r);
            line.OpenAI? == job.kind.OpenAIBatch? && 0 < Size(line) && (state.Succeeded? || state.Failed?)
            && (line.OpenAI? ==> (line.openai.Success? <==> state.Succeeded?))
            && (line.Anthropic? ==> (line.anthropic.Message? <==> state.Succeeded?) && ResultState(line) == state)
  {
    hide NoticeSize, MessageNoticeSize;
  }

  lemma StartFinishOk(s: System, job: Job, state: ItemState, line: Line, linked: bool)
    requires JobOk(s, job) && Terminal(state) && LineOk(job.kind, job.total, line, state)
    ensures PcOk(s, StartFinish(job, state, line, linked))
  {
    hide Size, ResultState;
    BoundOk(job, state, line);
  }

  lemma NoticeFinishOk(s: System, job: Job, n: Notice)
    requires JobOk(s, job)
    ensures PcOk(s, NoticeFinish(job, n))
  {
    hide Size, Notify, StartFinish;
    NotifyOk(job.kind, job.total, job.resultId, job.customId, n, Failed);
    StartFinishOk(s, job, Failed, Notify(job.kind, job.resultId, job.customId, n), false);
  }

  lemma JudgeOk(s: System, job: Job, r: Recorder, readOk: bool, flag: bool, now: int, contextCanceled: bool)
    requires JobOk(s, job)
    ensures PcOk(s, Judge(job, r, readOk, flag, now, contextCanceled))
  {
    hide Outcome, Bound, StartFinish, Size, StopLine, ResultState;
    StopLineOk(job.kind, job.total, job.resultId, job.customId, true, true);
    StopLineOk(job.kind, job.total, job.resultId, job.customId, false, true);
    var linked := r.requestId != "";
    StartFinishOk(s, job, Canceled, StopLine(job.kind, job.resultId, job.customId, true, true), linked);
    StartFinishOk(s, job, Expired, StopLine(job.kind, job.resultId, job.customId, false, true), linked);
    OutcomeOk(job, r);
    var (line, state) := Outcome(job, r);
    BoundOk(job, state, line);
    var (line', state') := Bound(job, state, line);
    StartFinishOk(s, job, state', line', false);
  }

  // ------------------------------------------------------- rows are preserved

  /** Replacing one well-formed batch, and nothing else a worker relies on, keeps the row invariant. */
  lemma PutBatchKeepsRows(s: System, id: BatchId, b: Batch)
    requires Rows(s) && BatchOk(b)
    requires id in s.db && s.db[id].kind == b.kind && s.db[id].total == b.total && s.db[id].deadline == b.deadline
    ensures Rows(SetBatch(s, id, b))
  {
    var s' := SetBatch(s, id, b);
    forall e | e in s'.workers ensures PcOk(s', s'.workers[e]) {
      assert PcOk(s, s.workers[e]);
    }
  }

  lemma PutPcKeepsRows(s: System, e: Epoch, pc: Pc)
    requires Rows(s) && e in s.epochs && PcOk(s, pc)
    ensures Rows(SetPc(s, e, pc))
  {
    var s' := SetPc(s, e, pc);
    forall f | f in s'.workers ensures f in s'.epochs && PcOk(s', s'.workers[f]) {
      assert f != e ==> PcOk(s, s.workers[f]);
    }
  }

  lemma AttemptKeepsRows(s: System, s': System, e: Epoch, enabled: bool, effect: System, next: Pc, report: Report)
    requires Rows(s) && e in s.workers && Attempt(s, s', e, enabled, effect, next, report)
    requires enabled ==> Rows(effect) && effect.epochs == s.epochs && PcOk(effect, next)
    ensures Rows(s')
  {
    if report.Done? {
      if enabled { PutPcKeepsRows(effect, e, next); } else { PutPcKeepsRows(s, e, Idle); }
    }
  }

  lemma ClaimKeepsRows(s: System, step: Step, s': System)
    requires Rows(s) && step.Claim? && WorkerStep(s, step, s')
    ensures Rows(s')
  {
    hide LineOk;
    var id, i, e := step.id, step.index, step.epoch;
    var b, item := s.db[id], ItemAt(s, id, i).(state := Claimed, lease := e);
    assert ItemOk(b.kind, b.total, b.items[i]);
    PutItemOk(b, i, item);
    PutBatchKeepsRows(s, id, PutItem(b, i, item));
    if step.report.Done? { PutPcKeepsRows(SetBatch(s, id, PutItem(b, i, item)), e, Ready(JobOf(s, id, i))); }
  }

  lemma ArmKeepsRows(s: System, step: Step, s': System)
    requires Rows(s) && step.Arm? && WorkerStep(s, step, s')
    ensures Rows(s')
  {
    hide LineOk;
    var e, pc := step.epoch, s.workers[step.epoch];
    assert PcOk(s, pc);
    if CanArm(s, e, pc.job) {
      var b, item := s.db[pc.job.id], ItemAt(s, pc.job.id, pc.job.index).(state := Dispatching);
      PutItemOk(b, pc.job.index, item);
      PutBatchKeepsRows(s, pc.job.id, PutItem(b, pc.job.index, item));
      AttemptKeepsRows(s, s', e, true, DoArm(s, pc.job), Armed(pc.job), step.report);
    } else {
      AttemptKeepsRows(s, s', e, false, s, Armed(pc.job), step.report);
    }
  }

  lemma WorkerKeepsRows(s: System, step: Step, s': System)
    requires Rows(s)
    requires Works(step)
    requires WorkerStep(s, step, s')
    ensures Rows(s')
  {
    hide NoticeFinish, Check, Judge, StartFinish, BatchOk, LineOk, Attempt;
    var e := step.epoch;
    var pc := s.workers[e];
    assert PcOk(s, pc);
    match step
    case Claim(_, _, _, _) =>
      ClaimKeepsRows(s, step, s');
    case Refuse(_, notice) =>
      NoticeFinishOk(s, pc.job, notice);
      PutPcKeepsRows(s, e, NoticeFinish(pc.job, notice));
    case Arm(_, _) =>
      ArmKeepsRows(s, step, s');
    case ReadCancel(_, readOk, contextCanceled) =>
      CheckOk(s, pc.job, readOk, Flag(s, pc.job), s.now, contextCanceled);
      PutPcKeepsRows(s, e, Check(pc.job, readOk, Flag(s, pc.job), s.now, contextCanceled));
    case Call(_, recorder) =>
      PutPcKeepsRows(s, e, Returned(pc.job, recorder));
    case Decide(_, readOk, contextCanceled) =>
      JudgeOk(s, pc.job, pc.recorder, readOk, Flag(s, pc.job), s.now, contextCanceled);
      PutPcKeepsRows(s, e, Judge(pc.job, pc.recorder, readOk, Flag(s, pc.job), s.now, contextCanceled));
    case Store(_, report) =>
      StoreKeepsRows(s, step, s');
    case Finish(_, report) =>
      FinishKeepsRows(s, step, s');
  }

  lemma StoreKeepsRows(s: System, step: Step, s': System)
    requires Rows(s) && step.Store? && WorkerStep(s, step, s')
    ensures Rows(s')
  {
    hide NoticeSize, MessageNoticeSize;
    var e := step.epoch;
    var pc := s.workers[e];
    if CanStore(s, e, pc.job) {
      var b := s.db[pc.job.id];
      var item := ItemAt(s, pc.job.id, pc.job.index).(state := Settling, line := Some(pc.line), linked := pc.linked, intended := pc.state);
      PutItemOk(b, pc.job.index, item);
      PutBatchKeepsRows(s, pc.job.id, PutItem(b, pc.job.index, item));
      BoundOk(pc.job, pc.state, pc.line);
      AttemptKeepsRows(s, s', e, true, DoStore(s, pc), StartFinish(pc.job, pc.state, pc.line, pc.linked), step.report);
    } else if step.report.Done? {
      PutPcKeepsRows(s, e, Idle);
    }
  }

  lemma FinishKeepsRows(s: System, step: Step, s': System)
    requires Rows(s) && step.Finish? && WorkerStep(s, step, s')
    ensures Rows(s')
  {
    hide NoticeSize, MessageNoticeSize;
    var e := step.epoch;
    var pc := s.workers[e];
    if CanFinish(s, pc.job) {
      var b := s.db[pc.job.id];
      var item := FinishItem(ItemAt(s, pc.job.id, pc.job.index), pc.state, pc.line, pc.linked);
      PutItemOk(b, pc.job.index, item);
      PutBatchKeepsRows(s, pc.job.id, EndIfDone(PutItem(b, pc.job.index, item)));
      AttemptKeepsRows(s, s', e, true, DoFinish(s, pc), Idle, step.report);
    } else if step.report.Done? {
      PutPcKeepsRows(s, e, Idle);
    }
  }

  lemma NewBatchOk(b: Batch, now: int)
    requires NewBatch(b, now)
    ensures BatchOk(b)
  {
    hide LineOk;
  }

  /** Adding a fresh batch, dropping batches, and starting or losing workers keep the row invariant. */
  lemma SameRows(s: System, t: System)
    requires Rows(s) && s.used <= t.used
    requires forall id :: id in t.db ==> if id in s.db then t.db[id] == s.db[id] else id !in s.used && id in t.used && BatchOk(t.db[id])
    requires forall e :: e in t.workers ==>
               e in t.epochs && (t.workers[e].Idle? || (e in s.workers && t.workers[e] == s.workers[e]))
    ensures Rows(t)
  {
    hide BatchOk, LineOk;
    forall e | e in t.workers ensures PcOk(t, t.workers[e]) {
      assert !t.workers[e].Idle? ==> PcOk(s, s.workers[e]);
    }
  }

  lemma EndIfDoneOk(b: Batch)
    requires BatchOk(b)
    ensures BatchOk(EndIfDone(b)) && EndIfDone(b).kind == b.kind && EndIfDone(b).total == b.total && EndIfDone(b).deadline == b.deadline
  {
    hide ItemOk;
  }

  lemma FinalizeOk(b: Batch)
    requires BatchOk(b) && CanFinalize(b)
    ensures BatchOk(Finalize(b)) && Finalize(b).kind == b.kind && Finalize(b).total == b.total && Finalize(b).deadline == b.deadline
  {
    hide ItemOk, LinesOf, JoinedSize, CountFailed;
  }

  lemma TableKeepsRows(s: System, step: Step, s': System)
    requires Rows(s)
    requires !Works(step)
    requires TableStep(s, step, s')
    ensures Rows(s')
  {
    hide RecoverItem, StopItem, CancelBatch, NewBatch, LineOk, EndIfDone, Finalize, CanFinalize;
    match step
    case Create(id, b) => NewBatchOk(b, s.now); SameRows(s, s');
    case Tick(_) => SameRows(s, s');
    case Boot(e) => SameRows(s, s');
    case Crash(e) => SameRows(s, s');
    case Reconcile(id, i, canceled) =>
      StopItemOk(s.db[id], i, canceled);
      PutItemOk(s.db[id], i, StopItem(s.db[id].kind, ItemAt(s, id, i), canceled));
      PutBatchKeepsRows(s, id, PutItem(s.db[id], i, StopItem(s.db[id].kind, ItemAt(s, id, i), canceled)));
    case Recover(id, i, listed) =>
      RecoverOk(s.db[id], i, listed, s.now);
      PutBatchKeepsRows(s, id, PutItem(s.db[id], i, RecoverItem(s.db[id], ItemAt(s, id, i), listed, s.now)));
    case Cancel(id) =>
      CancelOk(s.db[id]);
      PutBatchKeepsRows(s, id, CancelBatch(s.db[id]));
    case End(id) =>
      EndIfDoneOk(s.db[id]);
      PutBatchKeepsRows(s, id, EndIfDone(s.db[id]));
    case FinalizeBatch(id) =>
      FinalizeOk(s.db[id]);
      PutBatchKeepsRows(s, id, Finalize(s.db[id]));
    case Remove(id) => SameRows(s, s');
  }
}
