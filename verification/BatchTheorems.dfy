/** The promises of the batch protocol, stated over every run: any number of processes, crashes, recoveries,
    cancellations and statements that took effect but reported failure. */
module BatchTheorems {
  import opened BatchLines
  import opened BatchMachine
  import opened Common
  import opened Json
  import opened BatchSafety
  import opened BatchRuns

  /** A batch item is forwarded at most once. Which providers that one request reaches is said in `Dispatches`. */
  lemma ForwardedOnce(states: seq<System>, steps: seq<Step>, i: nat, key: (BatchId, nat))
    requires Run(states, steps) && i < |states|
    ensures states[i].calls[key] <= 1
  {
    hide Rows, Finalized, Next;
    RunKeepsInv(states, steps, i);
  }

  /** An item that left the queue for good never returns to `queued` or `claimed`. */
  lemma StartedNeverReturns(states: seq<System>, steps: seq<Step>, i: nat, j: nat, id: BatchId, index: nat)
    requires Run(states, steps) && i <= j < |states|
    requires HasItem(states[i], id, index) && !Unstarted(ItemAt(states[i], id, index).state)
    ensures HasItem(states[j], id, index) ==> !Unstarted(ItemAt(states[j], id, index).state)
  {
    hide Next, Run;
    if HasItem(states[j], id, index) { ItemHistory(states, steps, i, j, id, index); }
  }

  /** A terminal item keeps its state and its line for as long as its row exists. */
  lemma TerminalIsFinal(states: seq<System>, steps: seq<Step>, i: nat, j: nat, id: BatchId, index: nat)
    requires Run(states, steps) && i <= j < |states|
    requires HasItem(states[i], id, index) && Terminal(ItemAt(states[i], id, index).state)
    ensures HasItem(states[j], id, index) ==> ItemAt(states[j], id, index) == ItemAt(states[i], id, index)
  {
    hide Next, Run;
    if HasItem(states[j], id, index) { ItemHistory(states, steps, i, j, id, index); }
  }

  lemma ItemHistory(states: seq<System>, steps: seq<Step>, i: nat, j: nat, id: BatchId, index: nat)
    requires Run(states, steps) && i <= j < |states| && HasItem(states[j], id, index)
    requires id in states[i].db || id in states[i].used
    ensures HasItem(states[i], id, index) && ItemEvolves(ItemAt(states[i], id, index), ItemAt(states[j], id, index))
  {
    hide Next, BatchOk, Calls, Finalized;
    RunEvolves(states, steps, i, j);
    RunKeepsInv(states, steps, i);
    assert BatchEvolves(states[i].db[id], states[j].db[id]);
  }

  lemma BatchHistory(states: seq<System>, steps: seq<Step>, i: nat, j: nat, id: BatchId)
    requires Run(states, steps) && i <= j < |states| && id in states[i].db && id in states[j].db
    ensures BatchOk(states[i].db[id]) && BatchOk(states[j].db[id]) && BatchEvolves(states[i].db[id], states[j].db[id])
  {
    hide Next, BatchOk, Calls, Finalized, BatchEvolves;
    RunKeepsInv(states, steps, i);
    RunKeepsInv(states, steps, j);
    RunEvolves(states, steps, i, j);
  }

  lemma BatchRemains(states: seq<System>, steps: seq<Step>, i: nat, j: nat, k: nat, id: BatchId)
    requires Run(states, steps) && i <= j <= k < |states| && id in states[i].db && id in states[k].db
    ensures id in states[j].db
  {
    hide Next, Calls, Finalized, BatchOk, BatchEvolves;
    RunKeepsInv(states, steps, i);
    RunEvolves(states, steps, i, j);
    RunEvolves(states, steps, j, k);
  }

  /** Once a cancel of an open batch commits, none of its items is `queued` or `claimed` in any later state, and an
      item seen in `dispatching` later was already there: nothing new is dispatched, not even after a recovery. */
  lemma CancelIsSafe(states: seq<System>, steps: seq<Step>, i: nat, j: nat, k: nat, id: BatchId, index: nat)
    requires Run(states, steps) && i < j <= k < |states|
    requires steps[i] == Cancel(id) && id in states[i].db && Open(states[i].db[id])
    requires HasItem(states[k], id, index)
    ensures HasItem(states[j], id, index) && !Unstarted(ItemAt(states[j], id, index).state)
    ensures ItemAt(states[k], id, index).state.Dispatching? ==> ItemAt(states[j], id, index).state.Dispatching?
  {
    hide BatchOk, Calls, Finalized, ItemOk, StopItems, BatchEvolves, ItemEvolves;
    assert Next(states[i], steps[i], states[i + 1]);
    CancelCommits(states[i], id, states[i + 1]);
    var s := states[i + 1];
    RunKeepsInv(states, steps, i + 1);
    BatchRemains(states, steps, i + 1, j, k, id);
    ItemHistory(states, steps, j, k, id, index);
    BatchHistory(states, steps, i + 1, j, id);
    FlaggedItems(s.db[id], states[j].db[id], index);
    DispatchHistory(ItemAt(states[j], id, index), ItemAt(states[k], id, index));
  }

  lemma CancelCommits(s: System, id: BatchId, t: System)
    requires id in s.db && Open(s.db[id]) && t == SetBatch(s, id, CancelBatch(s.db[id]))
    ensures id in t.db && t.db[id].cancelRequested && (id in s.used ==> id in t.used)
  {
  }

  lemma FlaggedItems(a: Batch, b: Batch, index: nat)
    requires a.cancelRequested && BatchEvolves(a, b) && BatchOk(b) && index < |b.items|
    ensures !Unstarted(b.items[index].state)
  {
    hide ItemOk;
  }

  lemma DispatchHistory(x: Item, y: Item)
    requires ItemEvolves(x, y) && !Unstarted(x.state)
    ensures y.state.Dispatching? ==> x.state.Dispatching?
  {
  }

  // ------------------------------------------------------ Message Batch end

  /** `ended` is sound and stable: every item is terminal with a stored line that fits, one per submitted request,
      and as long as the batch exists it stays exactly as it is. */
  lemma EndedIsSoundAndStable(states: seq<System>, steps: seq<Step>, i: nat, j: nat, id: BatchId)
    requires Run(states, steps) && i <= j < |states|
    requires id in states[i].db && states[i].db[id].status.Ended?
    ensures var b := states[i].db[id];
            |b.items| == b.total
            && (forall n :: 0 <= n < |b.items| ==>
                  Terminal(b.items[n].state) && b.items[n].line.Some? && Size(b.items[n].line.value) <= MAX_INFERENCE_BODY)
    ensures id in states[j].db ==> states[j].db[id] == states[i].db[id]
  {
    hide Next, Calls, Finalized, Size, ItemEvolves;
    RunKeepsInv(states, steps, i);
    var b := states[i].db[id];
    assert BatchOk(b);
    forall n | 0 <= n < |b.items|
      ensures Terminal(b.items[n].state) && b.items[n].line.Some? && Size(b.items[n].line.value) <= MAX_INFERENCE_BODY
    {
      assert ItemOk(b.kind, b.total, b.items[n]);
    }
    if id in states[j].db { BatchHistory(states, steps, i, j, id); }
  }

  /** The step ends the Message Batch if nothing of it is left to do: a cancel, the reconciler, or the statement that
      finishes an item. */
  ghost predicate MayEnd(s: System, step: Step, id: BatchId) {
    step == Cancel(id) || step == End(id)
    || (step.Finish? && !step.report.LostAndFailed? && step.epoch in s.workers
        && var pc := s.workers[step.epoch]; pc.Finishing? && pc.job.id == id && CanFinish(s, pc.job))
  }

  /** Such a step leaves the batch ended if and only if every item is terminal. */
  lemma MessageBatchEnds(states: seq<System>, steps: seq<Step>, i: nat, id: BatchId)
    requires Run(states, steps) && i < |steps| && id in states[i].db && states[i].db[id].kind.MessageBatch?
    requires MayEnd(states[i], steps[i], id)
    ensures id in states[i + 1].db &&
            var b := states[i + 1].db[id];
            b.status.Ended? <==> forall n :: 0 <= n < |b.items| ==> Terminal(b.items[n].state)
  {
    hide Calls, Finalized, ItemOk, Init, WorkerStep, TableStep, MayEnd;
    assert Next(states[i], steps[i], states[i + 1]);
    RunKeepsInv(states, steps, i);
    RunKeepsInv(states, steps, i + 1);
    assert BatchOk(states[i].db[id]);
    EndingStep(states[i], steps[i], states[i + 1], id);
    assert BatchOk(states[i + 1].db[id]);
  }

  lemma EndingStep(s: System, step: Step, t: System, id: BatchId)
    requires Next(s, step, t) && id in s.db && s.db[id].kind.MessageBatch? && MayEnd(s, step, id)
    requires Open(s.db[id]) || s.db[id].status.Ended?
    ensures id in t.db && t.db[id].kind.MessageBatch? && (t.db[id].status.Ended? || AnyActive(t.db[id].items))
  {
    hide EndIfDone, AnyActive, FinishItem, StopItem;
    var b := s.db[id];
    EndIfDoneEnds(b);
    EndIfDoneEnds(b.(status := Cancelling, cancelRequested := true, items := StopItems(b.kind, b.items, true)));
    if step.Finish? {
      var pc := s.workers[step.epoch];
      EndIfDoneEnds(PutItem(b, pc.job.index, FinishItem(ItemAt(s, pc.job.id, pc.job.index), pc.state, pc.line, pc.linked)));
    }
  }

  lemma EndIfDoneEnds(b: Batch)
    requires b.kind.MessageBatch?
    ensures EndIfDone(b).kind.MessageBatch? && (EndIfDone(b).status.Ended? || AnyActive(EndIfDone(b).items))
  {
  }

  /** Startup recovery leaves no item as it found it: a claimed one is queued again without a lease; one that was
      dispatching is over, `expired` for an OpenAI Batch past its deadline and `interrupted` otherwise; one that was
      settling gets the state that its stored line stands for. */
  lemma RecoveryDecides(states: seq<System>, steps: seq<Step>, i: nat, id: BatchId, index: nat)
    requires Run(states, steps) && i < |steps| && HasItem(states[i], id, index)
    requires steps[i] == Recover(id, index, ItemAt(states[i], id, index).state)
    ensures HasItem(states[i + 1], id, index) &&
            var s, x, y := states[i], ItemAt(states[i], id, index), ItemAt(states[i + 1], id, index);
            && (x.state.Claimed? ==> y == x.(state := Queued, lease := 0))
            && (x.state.Dispatching? ==>
                  y.line.Some? && y.state == if s.db[id].kind.OpenAIBatch? && s.db[id].deadline <= s.now then Expired else Interrupted)
            && (x.state.Settling? ==> x.line.Some? && y == x.(state := ResultState(x.line.value)) && Terminal(y.state))
  {
    hide Calls, Finalized, LineOk, Notify, Init;
    assert Next(states[i], steps[i], states[i + 1]);
    RunKeepsInv(states, steps, i);
    var b := states[i].db[id];
    assert BatchOk(b) && ItemOk(b.kind, b.total, b.items[index]);
  }

  // -------------------------------------------------- recovery of a settled item

  /** A worker that stands on the item it holds the lease of, once that item is settling, is about to finish it with
      the very line and state that are stored. */
  ghost predicate Settled(s: System) {
    forall e :: e in s.workers && !s.workers[e].Idle? && HasItem(s, s.workers[e].job.id, s.workers[e].job.index) ==>
      SettledPc(e, s.workers[e], ItemAt(s, s.workers[e].job.id, s.workers[e].job.index))
  }

  ghost predicate SettledPc(e: Epoch, pc: Pc, item: Item) {
    item.state.Settling? && item.lease == e ==>
      (pc.Storing? || pc.Finishing?) && pc.state == item.intended && item.line == Some(pc.line)
  }

  /** Changing one item, other than to settling, keeps the relation; so does moving a worker that keeps its line. */
  lemma SettledFrame(s: System, t: System)
    requires Settled(s) && Evolves(s, t) && Rows(s)
    requires forall e :: e in t.workers && !t.workers[e].Idle? ==>
               && e in s.workers && !s.workers[e].Idle? && KeyOf(t.workers[e].job) == KeyOf(s.workers[e].job)
               && ((s.workers[e].Storing? || s.workers[e].Finishing?) ==>
                     (t.workers[e].Storing? || t.workers[e].Finishing?) && t.workers[e].state == s.workers[e].state && t.workers[e].line == s.workers[e].line)
    requires forall id, i :: HasItem(t, id, i) && HasItem(s, id, i) && ItemAt(t, id, i).state.Settling? ==> ItemAt(t, id, i) == ItemAt(s, id, i)
    ensures Settled(t)
  {
    hide BatchOk, PcOk, ItemEvolves;
    forall e | e in t.workers && !t.workers[e].Idle? && HasItem(t, t.workers[e].job.id, t.workers[e].job.index)
      ensures SettledPc(e, t.workers[e], ItemAt(t, t.workers[e].job.id, t.workers[e].job.index))
    {
      var job := s.workers[e].job;
      assert PcOk(s, s.workers[e]);
      assert job.id in s.used by { JobIsUsed(s, e); }
      assert BatchEvolves(s.db[job.id], t.db[job.id]);
      assert HasItem(s, job.id, job.index);
      assert SettledPc(e, s.workers[e], ItemAt(s, job.id, job.index));
    }
  }

  lemma JobIsUsed(s: System, e: Epoch)
    requires e in s.workers && PcOk(s, s.workers[e]) && !s.workers[e].Idle?
    ensures s.workers[e].job.id in s.used
  {
  }

  lemma StoreKeepsSettled(s: System, step: Step, t: System)
    requires Rows(s) && Settled(s) && step.Store? && WorkerStep(s, step, t) && Evolves(s, t)
    ensures Settled(t)
  {
    hide BatchOk, Evolves, Size, ResultState, LineOk, StartFinish;
    var pc := s.workers[step.epoch];
    assert PcOk(s, pc);
    StoredLineIsKept(pc);
  }

  /** Bounding a line that was already bounded changes nothing. */
  lemma StoredLineIsKept(pc: Pc)
    requires pc.Storing? && 1 <= pc.job.total <= MAX_ITEMS && 0 < |pc.job.customId| <= 64 && 0 < |pc.job.resultId| <= 128
    requires LineOk(pc.job.kind, pc.job.total, pc.line, pc.state)
    ensures StartFinish(pc.job, pc.state, pc.line, pc.linked) == Finishing(pc.job, pc.state, pc.line, pc.linked)
  {
    hide Size, ResultState;
    BoundOk(pc.job, pc.state, pc.line);
  }

  lemma WorkerKeepsSettled(s: System, step: Step, t: System)
    requires Rows(s) && Settled(s) && Evolves(s, t)
    requires Works(step)
    requires WorkerStep(s, step, t)
    ensures Settled(t)
  {
    hide Rows, Evolves, Judge, Check, StartFinish, Bound, StopLine, ItemOk, Size;
    match step
    case Store(_, _) => StoreKeepsSettled(s, step, t);
    case ReadCancel(e, readOk, contextCanceled) =>
      CheckKeepsJob(s.workers[e].job, readOk, Flag(s, s.workers[e].job), s.now, contextCanceled);
    case Decide(e, readOk, contextCanceled) =>
      var pc := s.workers[e];
      JudgeKeepsJob(pc.job, pc.recorder, readOk, Flag(s, pc.job), s.now, contextCanceled);
    case Refuse(e, notice) => StartFinishKeepsJob(s, e, notice);
    case Claim(e, id, i, _) => ClaimKeepsSettled(s, step, t);
    case Arm(e, _) => ArmKeepsSettled(s, step, t);
    case Finish(e, _) => FinishKeepsSettled(s, step, t);
    case Call(_, _) =>
  }

  lemma ClaimKeepsSettled(s: System, step: Step, t: System)
    requires Settled(s) && step.Claim? && WorkerStep(s, step, t)
    ensures Settled(t)
  {
    hide Size;
  }

  lemma ArmKeepsSettled(s: System, step: Step, t: System)
    requires Settled(s) && step.Arm? && WorkerStep(s, step, t)
    ensures Settled(t)
  {
    hide Size;
  }

  lemma FinishKeepsSettled(s: System, step: Step, t: System)
    requires Settled(s) && step.Finish? && WorkerStep(s, step, t)
    requires Rows(s)
    ensures Settled(t)
  {
    hide BatchOk, LineOk, StartFinish, EndIfDone;
    var pc := s.workers[step.epoch];
    assert PcOk(s, pc);
    if CanFinish(s, pc.job) {
      EndKeepsItems(PutItem(s.db[pc.job.id], pc.job.index, FinishItem(ItemAt(s, pc.job.id, pc.job.index), pc.state, pc.line, pc.linked)));
    }
  }

  lemma TableKeepsSettled(s: System, step: Step, t: System)
    requires Rows(s) && Settled(s) && Evolves(s, t)
    requires !Works(step)
    requires TableStep(s, step, t)
    ensures Settled(t)
  {
    hide Rows, Settled, Evolves, RecoverItem, StopItem, EndIfDone, CanFinalize;
    match step
    case Create(_, b) => SettledFrame(s, t);
    case Reconcile(id, i, canceled) =>
      StopUnsettles(s.db[id].kind, ItemAt(s, id, i), canceled);
      SettledFrame(s, t);
    case Recover(id, i, listed) =>
      RecoverUnsettles(s.db[id], ItemAt(s, id, i), listed, s.now);
      SettledFrame(s, t);
    case Cancel(id) =>
      CancelUnsettles(s.db[id]);
      SettledFrame(s, t);
    case End(id) =>
      EndKeepsItems(s.db[id]);
      SettledFrame(s, t);
    case _ => SettledFrame(s, t);
  }

  lemma StopUnsettles(kind: Kind, item: Item, canceled: bool)
    ensures StopItem(kind, item, canceled).state.Settling? ==> StopItem(kind, item, canceled) == item
  {
  }

  lemma RecoverUnsettles(b: Batch, item: Item, listed: ItemState, now: int)
    ensures RecoverItem(b, item, listed, now).state.Settling? ==> RecoverItem(b, item, listed, now) == item
  {
  }

  lemma EndKeepsItems(b: Batch)
    ensures EndIfDone(b).items == b.items
  {
  }

  lemma CancelUnsettles(b: Batch)
    ensures |CancelBatch(b).items| == |b.items|
    ensures forall i :: 0 <= i < |b.items| && CancelBatch(b).items[i].state.Settling? ==> CancelBatch(b).items[i] == b.items[i]
  {
    hide StopItem, EndIfDone;
    if Open(b) { EndKeepsItems(b.(status := Cancelling, cancelRequested := true, items := StopItems(b.kind, b.items, true))); }
    forall i | 0 <= i < |b.items| { StopUnsettles(b.kind, b.items[i], true); }
  }

  lemma {:induction false} RunKeepsSettled(states: seq<System>, steps: seq<Step>, i: nat)
    requires Run(states, steps) && i < |states|
    ensures Settled(states[i])
  {
    hide Rows, Calls, Finalized, Evolves, WorkerStep, TableStep;
    if i > 0 {
      RunKeepsSettled(states, steps, i - 1);
      RunKeepsInv(states, steps, i - 1);
      StepKeepsInv(states[i - 1], steps[i - 1], states[i]);
      var step := steps[i - 1];
      assert Next(states[i - 1], step, states[i]);
      if Works(step) {
        WorkerKeepsSettled(states[i - 1], step, states[i]);
      } else {
        TableKeepsSettled(states[i - 1], step, states[i]);
      }
    }
  }

  /** What startup recovery makes of a Message Batch item that crashed in `settling` is what the process holding its
      lease would have made of it, had it gone on to finish. */
  lemma RecoveryFinishesMessageItems(states: seq<System>, steps: seq<Step>, i: nat, id: BatchId, index: nat)
    requires Run(states, steps) && i < |states| && HasItem(states[i], id, index)
    requires states[i].db[id].kind.MessageBatch? && ItemAt(states[i], id, index).state.Settling?
    ensures var s, item := states[i], ItemAt(states[i], id, index);
            var recovered := RecoverItem(s.db[id], item, Settling, s.now);
            item.line.Some? && Terminal(recovered.state)
            && recovered == FinishItem(item, item.intended, item.line.value, false)
            && (item.lease in s.workers && s.workers[item.lease].Finishing? && KeyOf(s.workers[item.lease].job) == (id, index) ==>
                  var pc := s.workers[item.lease]; recovered.state == pc.state && recovered.line == Some(pc.line))
  {
    hide Next, Calls, Finalized, LineOk;
    RunKeepsInv(states, steps, i);
    RunKeepsSettled(states, steps, i);
    var b := states[i].db[id];
    assert BatchOk(b);
    assert ItemOk(b.kind, b.total, b.items[index]);
  }

  /** For an OpenAI Batch the stored line can say something else: a plain provider failure that recovery turns into an
      expiry, which then also labels the whole batch expired. */
  lemma RecoveryCanDisagree()
    ensures var job := Job(1, 0, OpenAIBatch, "a", "b", 1, 10);
            var r := Recorder(true, true, false, true, 500, true, "x", None, None, Some(("batch_expired", "", "m")), None, "req");
            var pc := Judge(job, r, true, false, 0, false);
            pc.Storing? && pc.state == Failed && ResultState(pc.line) == Expired
  {
    hide EscapedSize, StopLine;
    ShortFailureFits("b", "a", "batch_expired", "m");
    assert "batch_expired"[6] == 'e';
  }

  lemma ShortFailureFits(id: string, customId: string, code: string, message: string)
    requires |id| + |customId| + |code| + |message| <= 1000
    ensures OpenAISize(Failure(id, customId, code, message)) <= LineLimit(1)
  {
  }

  // ------------------------------------------------------------ finalization

  /** An OpenAI Batch is finalized at most once, exactly once when its status is terminal, and its files never change
      afterwards. */
  lemma FinalizedOnce(states: seq<System>, steps: seq<Step>, i: nat, j: nat, id: BatchId)
    requires Run(states, steps) && i <= j < |states|
    ensures states[i].finalizations[id] <= 1
    ensures id in states[i].db && states[i].db[id].kind.OpenAIBatch? ==> (states[i].finalizations[id] == 1 <==> !Open(states[i].db[id]))
    ensures id in states[i].db && id in states[j].db && states[i].db[id].files.Some? ==> states[j].db[id] == states[i].db[id]
  {
    hide Next, Calls, ItemEvolves, ItemOk;
    RunKeepsInv(states, steps, i);
    assert id in states[i].db ==> BatchOk(states[i].db[id]);
    if id in states[i].db && id in states[j].db { BatchHistory(states, steps, i, j, id); }
  }

  /** How many of the first `n` items are on one side of the partition. */
  function Before(items: seq<Item>, n: nat, succeeded: bool): nat
    requires n <= |items|
  {
    if n == 0 then 0 else Before(items, n - 1, succeeded) + if items[n - 1].state.Succeeded? == succeeded then 1 else 0
  }

  lemma {:induction false} LinesOfAppend(a: seq<Item>, b: seq<Item>, succeeded: bool)
    ensures LinesOf(a + b, succeeded) == LinesOf(a, succeeded) + LinesOf(b, succeeded)
  {
    hide OwnLine;
    if a == [] {
      assert a + b == b;
    } else {
      LinesOfAppend(a[1..], b, succeeded);
      assert (a + b)[1..] == a[1..] + b && (a + b)[0] == a[0];
      assert LinesOf(a + b, succeeded) == OwnLine(a[0], succeeded) + (LinesOf(a[1..], succeeded) + LinesOf(b, succeeded));
    }
  }

  lemma {:induction false} LinesBefore(items: seq<Item>, n: nat, succeeded: bool)
    requires n <= |items| && forall i :: 0 <= i < |items| ==> items[i].line.Some?
    ensures |LinesOf(items[..n], succeeded)| == Before(items, n, succeeded)
  {
    if n > 0 {
      LinesBefore(items, n - 1, succeeded);
      assert items[..n] == items[..n - 1] + [items[n - 1]];
      LinesOfAppend(items[..n - 1], [items[n - 1]], succeeded);
    }
  }

  lemma LineAt(items: seq<Item>, i: nat)
    requires i < |items| && forall k :: 0 <= k < |items| ==> items[k].line.Some?
    ensures var side := items[i].state.Succeeded?;
            var at := Before(items, i, side);
            at < |LinesOf(items, side)| && LinesOf(items, side)[at] == items[i].line.value
  {
    hide Before;
    var side := items[i].state.Succeeded?;
    LinesBefore(items, i, side);
    var rest := [items[i]] + items[i + 1..];
    assert items == items[..i] + rest;
    LinesOfAppend(items[..i], rest, side);
    assert LinesOf(rest, side) == [items[i].line.value] + LinesOf(rest[1..], side);
  }

  /** The two files partition the items: each line stands in the file of its side, after the lines of the earlier
      items of that side, and nothing else is in either file. */
  lemma FilesPartition(items: seq<Item>)
    requires forall k :: 0 <= k < |items| ==> items[k].line.Some?
    ensures forall i: nat :: i < |items| ==>
              var side := items[i].state.Succeeded?;
              Before(items, i, side) < |LinesOf(items, side)|
              && LinesOf(items, side)[Before(items, i, side)] == items[i].line.value
    ensures |LinesOf(items, true)| + |LinesOf(items, false)| == |items|
  {
    hide LinesOf;
    forall i: nat | i < |items|
      ensures var side := items[i].state.Succeeded?;
              Before(items, i, side) < |LinesOf(items, side)|
              && LinesOf(items, side)[Before(items, i, side)] == items[i].line.value
    {
      LineAt(items, i);
    }
    assert items[..|items|] == items;
    LinesBefore(items, |items|, true);
    LinesBefore(items, |items|, false);
    BeforeTotal(items, |items|);
  }

  lemma {:induction false} BeforeTotal(items: seq<Item>, n: nat)
    requires n <= |items|
    ensures Before(items, n, true) + Before(items, n, false) == n
  {
    if n > 0 { BeforeTotal(items, n - 1); }
  }

  lemma {:induction false} LinesOfSide(items: seq<Item>, succeeded: bool, total: nat)
    requires 1 <= total <= MAX_ITEMS
    requires forall i :: 0 <= i < |items| ==> ItemOk(OpenAIBatch, total, items[i]) && Terminal(items[i].state)
    ensures forall i :: 0 <= i < |LinesOf(items, succeeded)| ==>
              LinesOf(items, succeeded)[i].OpenAI? && LinesOf(items, succeeded)[i].openai.Success? == succeeded
    ensures !succeeded ==> CountFailed(items) <= |LinesOf(items, false)|
  {
    hide Size;
    if items != [] {
      assert ItemOk(OpenAIBatch, total, items[0]);
      LinesOfSide(items[1..], succeeded, total);
    }
  }

  /** What a finalization leaves: request_completed output lines, all successes; the other requests as error lines;
      together request_total; and both files within the size of a File. */
  lemma FinalizationIsComplete(states: seq<System>, steps: seq<Step>, i: nat, id: BatchId)
    requires Run(states, steps) && i < |steps| && steps[i] == FinalizeBatch(id)
    ensures id in states[i].db && id in states[i + 1].db && states[i + 1].db[id].files.Some?
    ensures states[i].finalizations[id] == 0 && states[i + 1].finalizations[id] == 1
    ensures var b, f := states[i].db[id], states[i + 1].db[id].files.value;
            && (forall n :: 0 <= n < |b.items| ==> Terminal(b.items[n].state) && b.items[n].line.Some?)
            && f.output == LinesOf(b.items, true) && f.errors == LinesOf(b.items, false)
            && f.completed == |f.output| && f.failed <= |f.errors| && |f.output| + |f.errors| == b.total
            && (forall n :: 0 <= n < |f.output| ==> f.output[n].OpenAI? && f.output[n].openai.Success?)
            && (forall n :: 0 <= n < |f.errors| ==> f.errors[n].OpenAI? && !f.errors[n].openai.Success?)
            && JoinedSize(f.output) <= MAX_FILE_BYTES && JoinedSize(f.errors) <= MAX_FILE_BYTES
  {
    hide Size, Calls, LineOk, JoinedSize, CountFailed, LinesOf;
    assert Next(states[i], steps[i], states[i + 1]);
    RunKeepsInv(states, steps, i);
    RunKeepsInv(states, steps, i + 1);
    var b := states[i].db[id];
    assert BatchOk(b);
    forall n | 0 <= n < |b.items| ensures ItemOk(OpenAIBatch, b.total, b.items[n]) && Terminal(b.items[n].state) && b.items[n].line.Some? {
      assert ItemOk(b.kind, b.total, b.items[n]) && !b.items[n].state.Active();
    }
    LinesOfSide(b.items, true, b.total);
    LinesOfSide(b.items, false, b.total);
    FilesPartition(b.items);
  }
}
