/** Stored lines answer the request they belong to: they have its ids, and a success has the answer of a provider call
    made for it. In every run, and in the text of the finalized files. */
module BatchAnswers {
  import opened BatchLines
  import opened BatchMachine
  import opened Common
  import opened BatchSafety
  import opened BatchRuns
  import opened BatchTheorems
  import opened BatchFiles
  import opened BatchRows
  import opened BatchOutcomes
  import opened LineReading

  /** A provider call made for an item, and what it left in the recorder. */
  type Call = ((BatchId, nat), Recorder)

  /** A reader of the line finds this custom id in it, and this id in an OpenAI Batch line. */
  predicate Names(line: Line, customId: string, resultId: string) {
    EntryOf(line).customId == customId && (line.OpenAI? ==> EntryOf(line).id == resultId)
  }

  /** The line holds what the recorder has: its status, request id and rewritten body, or its message. */
  predicate Carries(line: Line, r: Recorder) {
    match line
    case OpenAI(Success(_, _, status, requestId, body)) =>
      Good(r, OpenAIBatch) && status == r.status && requestId == r.requestId && r.rewritten == Some(body)
    case Anthropic(Message(_, message)) => Good(r, MessageBatch) && r.message == Some(message)
    case _ => false
  }

  predicate IsSuccess(line: Line) { if line.OpenAI? then line.openai.Success? else line.anthropic.Message? }

  /** The line has the ids, and as a success it carries the answer of one of the calls made for the item. */
  ghost predicate Told(made: set<Call>, key: (BatchId, nat), customId: string, resultId: string, line: Line) {
    Names(line, customId, resultId) && (IsSuccess(line) ==> exists r :: (key, r) in made && Carries(line, r))
  }

  ghost predicate ToldItem(made: set<Call>, key: (BatchId, nat), item: Item) {
    item.line.Some? ==> Told(made, key, item.customId, item.resultId, item.line.value)
  }

  predicate Same(item: Item, job: Job) { item.customId == job.customId && item.resultId == job.resultId }

  ghost predicate ToldLine(made: set<Call>, job: Job, line: Line) { Told(made, KeyOf(job), job.customId, job.resultId, line) }

  ghost predicate Remembers(s: System, job: Job) {
    HasItem(s, job.id, job.index) ==> Same(ItemAt(s, job.id, job.index), job)
  }

  /** A worker remembers the ids of the row it claimed; its recorder is that of a call made, and its line is told. */
  ghost predicate ToldPc(s: System, made: set<Call>, pc: Pc) {
    !pc.Idle? ==>
      && Remembers(s, pc.job)
      && (pc.Returned? ==> (KeyOf(pc.job), pc.recorder) in made)
      && (pc.Storing? || pc.Finishing? ==> ToldLine(made, pc.job, pc.line))
  }

  ghost predicate AllTold(s: System, made: set<Call>) {
    && (forall id, i :: HasItem(s, id, i) ==> ToldItem(made, (id, i), ItemAt(s, id, i)))
    && (forall e :: e in s.workers ==> ToldPc(s, made, s.workers[e]))
  }

  // ---------------------------------------------------------------- functions

  lemma BoundTells(made: set<Call>, job: Job, state: ItemState, line: Line)
    requires job.total <= MAX_ITEMS && ToldLine(made, job, line)
    ensures ToldLine(made, job, Bound(job, state, line).0)
  {
    hide OpenAISize, MessageSize, Code, Text, ErrorObject, Carries;
  }

  lemma StartFinishTells(s: System, made: set<Call>, job: Job, state: ItemState, line: Line, linked: bool)
    requires job.total <= MAX_ITEMS && ToldLine(made, job, line) && Remembers(s, job)
    ensures ToldPc(s, made, StartFinish(job, state, line, linked))
  {
    hide ToldLine, Bound, Remembers;
    BoundTells(made, job, state, line);
  }

  lemma NotifyTells(made: set<Call>, key: (BatchId, nat), kind: Kind, resultId: string, customId: string, n: Notice)
    ensures Told(made, key, customId, resultId, Notify(kind, resultId, customId, n))
  {
    hide Code, Text, ErrorObject, Carries;
  }

  lemma StopLineTells(made: set<Call>, key: (BatchId, nat), kind: Kind, resultId: string, customId: string, canceled: bool, started: bool)
    ensures Told(made, key, customId, resultId, StopLine(kind, resultId, customId, canceled, started))
  {
    hide Code, Text, ErrorObject, Carries;
  }

  lemma OutcomeTells(made: set<Call>, job: Job, r: Recorder)
    requires (KeyOf(job), r) in made
    ensures ToldLine(made, job, Outcome(job, r).0)
  {
    hide Code, Text, ErrorObject, First, CompletedOutcome;
    if Good(r, job.kind) {
      GoodOutcome(job, r);
      assert Carries(GoodLine(job, r), r);
    } else {
      BadOutcome(job, r);
    }
  }

  lemma NoticeFinishTells(s: System, made: set<Call>, job: Job, n: Notice)
    requires job.total <= MAX_ITEMS && Remembers(s, job)
    ensures ToldPc(s, made, NoticeFinish(job, n))
  {
    hide Told, Notify, StartFinish, ToldPc, Remembers;
    NotifyTells(made, KeyOf(job), job.kind, job.resultId, job.customId, n);
    StartFinishTells(s, made, job, Failed, Notify(job.kind, job.resultId, job.customId, n), false);
  }

  lemma ClearedTells(s: System, made: set<Call>, job: Job)
    requires Remembers(s, job)
    ensures ToldPc(s, made, Cleared(job)) && ToldPc(s, made, Armed(job)) && ToldPc(s, made, Ready(job)) && ToldPc(s, made, Idle)
  {
  }

  lemma CheckTells(s: System, made: set<Call>, job: Job, readOk: bool, flag: bool, now: int, contextCanceled: bool)
    requires job.total <= MAX_ITEMS && Remembers(s, job)
    ensures ToldPc(s, made, Check(job, readOk, flag, now, contextCanceled))
  {
    hide Told, StopLine, StartFinish, NoticeFinish, ToldPc, Remembers;
    var key := KeyOf(job);
    var canceled := StopLine(job.kind, job.resultId, job.customId, true, false);
    var expired := StopLine(job.kind, job.resultId, job.customId, false, false);
    StopLineTells(made, key, job.kind, job.resultId, job.customId, true, false);
    StopLineTells(made, key, job.kind, job.resultId, job.customId, false, false);
    StartFinishTells(s, made, job, Canceled, canceled, false);
    StartFinishTells(s, made, job, Expired, expired, false);
    NoticeFinishTells(s, made, job, CancelUnknown);
    ClearedTells(s, made, job);
  }

  lemma JudgeTells(s: System, made: set<Call>, job: Job, r: Recorder, readOk: bool, flag: bool, now: int, contextCanceled: bool)
    requires job.total <= MAX_ITEMS && Remembers(s, job) && (KeyOf(job), r) in made
    ensures ToldPc(s, made, Judge(job, r, readOk, flag, now, contextCanceled))
  {
    hide Told, StopLine, StartFinish, Bound, Outcome, Remembers;
    var linked, key := r.requestId != "", KeyOf(job);
    StopLineTells(made, key, job.kind, job.resultId, job.customId, true, true);
    StopLineTells(made, key, job.kind, job.resultId, job.customId, false, true);
    StartFinishTells(s, made, job, Canceled, StopLine(job.kind, job.resultId, job.customId, true, true), linked);
    StartFinishTells(s, made, job, Expired, StopLine(job.kind, job.resultId, job.customId, false, true), linked);
    OutcomeTells(made, job, r);
    var (line, state) := Outcome(job, r);
    BoundTells(made, job, state, line);
    var (line', state') := Bound(job, state, line);
    StartFinishTells(s, made, job, state', line', false);
  }

  lemma StopItemTells(made: set<Call>, key: (BatchId, nat), kind: Kind, item: Item, canceled: bool)
    requires ToldItem(made, key, item)
    ensures ToldItem(made, key, StopItem(kind, item, canceled))
  {
    hide StopLine, Told;
    StopLineTells(made, key, kind, item.resultId, item.customId, canceled, false);
  }

  lemma RecoverItemTells(made: set<Call>, key: (BatchId, nat), b: Batch, item: Item, listed: ItemState, now: int)
    requires ToldItem(made, key, item)
    ensures ToldItem(made, key, RecoverItem(b, item, listed, now))
  {
    hide Notify, Told, ResultState;
    NotifyTells(made, key, b.kind, item.resultId, item.customId, ExpiredDuring);
    NotifyTells(made, key, b.kind, item.resultId, item.customId, Restarted);
  }

  lemma CancelTells(made: set<Call>, id: BatchId, b: Batch)
    requires forall i: nat :: i < |b.items| ==> ToldItem(made, (id, i), b.items[i])
    ensures forall i: nat :: i < |CancelBatch(b).items| ==> ToldItem(made, (id, i), CancelBatch(b).items[i])
  {
    hide StopItem, AnyActive, ToldItem, EndIfDone;
    if Open(b) {
      EndKeepsItems(b.(status := Cancelling, cancelRequested := true, items := StopItems(b.kind, b.items, true)));
      forall i: nat | i < |b.items| ensures ToldItem(made, (id, i), StopItem(b.kind, b.items[i], true)) {
        StopItemTells(made, (id, i), b.kind, b.items[i], true);
      }
    }
  }

  // -------------------------------------------------------------------- steps

  /** Rows keep their ids, so a job that had the ids of its row still has them. */
  lemma RemembersOn(s: System, t: System, job: Job)
    requires Evolves(s, t) && job.id in s.used && Remembers(s, job)
    ensures Remembers(t, job)
  {
    hide Unstarted;
    if HasItem(t, job.id, job.index) {
      var a, b := s.db[job.id], t.db[job.id];
      assert ItemEvolves(a.items[job.index], b.items[job.index]);
    }
  }

  lemma MoreCalls(made: set<Call>, made': set<Call>, key: (BatchId, nat), customId: string, resultId: string, line: Line)
    requires Told(made, key, customId, resultId, line) && made <= made'
    ensures Told(made', key, customId, resultId, line)
  {
    hide Names, Carries;
  }

  lemma PcStaysTold(s: System, t: System, made: set<Call>, made': set<Call>, pc: Pc)
    requires ToldPc(s, made, pc) && PcOk(s, pc) && Evolves(s, t) && made <= made'
    ensures ToldPc(t, made', pc)
  {
    hide Evolves, LineOk, Told, Remembers;
    if !pc.Idle? {
      RemembersOn(s, t, pc.job);
      if pc.Storing? || pc.Finishing? { MoreCalls(made, made', KeyOf(pc.job), pc.job.customId, pc.job.resultId, pc.line); }
    }
  }

  /** A step leaves all lines told if those of the items and workers it changed are. */
  lemma ToldFrame(s: System, t: System, made: set<Call>, made': set<Call>)
    requires Rows(s) && AllTold(s, made) && Evolves(s, t) && made <= made'
    requires forall id, i :: HasItem(t, id, i) && !(HasItem(s, id, i) && ItemAt(t, id, i) == ItemAt(s, id, i)) ==>
               ToldItem(made', (id, i), ItemAt(t, id, i))
    requires forall e :: e in t.workers && !(e in s.workers && t.workers[e] == s.workers[e]) ==> ToldPc(t, made', t.workers[e])
    ensures AllTold(t, made')
  {
    hide BatchOk, PcOk, Evolves, ToldPc, Told;
    forall id, i | HasItem(t, id, i) ensures ToldItem(made', (id, i), ItemAt(t, id, i)) {
      if HasItem(s, id, i) && ItemAt(t, id, i) == ItemAt(s, id, i) {
        var item := ItemAt(s, id, i);
        assert ToldItem(made, (id, i), item);
        if item.line.Some? { MoreCalls(made, made', (id, i), item.customId, item.resultId, item.line.value); }
      }
    }
    forall e | e in t.workers ensures ToldPc(t, made', t.workers[e]) {
      if e in s.workers && t.workers[e] == s.workers[e] {
        assert PcOk(s, s.workers[e]);
        PcStaysTold(s, t, made, made', s.workers[e]);
      }
    }
  }

  /** What a worker knew before its step. */
  lemma WorkerIsTold(s: System, t: System, made: set<Call>, e: Epoch)
    requires Rows(s) && AllTold(s, made) && Evolves(s, t) && e in s.workers && !s.workers[e].Idle?
    ensures var pc := s.workers[e];
            && Remembers(s, pc.job) && Remembers(t, pc.job)
            && (pc.Returned? ==> (KeyOf(pc.job), pc.recorder) in made)
            && (pc.Storing? || pc.Finishing? ==> ToldLine(made, pc.job, pc.line))
  {
    hide BatchOk, Evolves, LineOk, Remembers, ToldItem, ToldLine;
    assert PcOk(s, s.workers[e]) && ToldPc(s, made, s.workers[e]);
    RemembersOn(s, t, s.workers[e].job);
  }

  lemma ClaimTells(s: System, step: Step, t: System, made: set<Call>)
    requires Rows(s) && AllTold(s, made) && Evolves(s, t) && step.Claim? && WorkerStep(s, step, t)
    ensures AllTold(t, made)
  {
    hide Rows, Evolves, Told;
    ToldFrame(s, t, made, made);
  }

  lemma ArmTells(s: System, step: Step, t: System, made: set<Call>)
    requires Rows(s) && AllTold(s, made) && Evolves(s, t) && step.Arm? && WorkerStep(s, step, t)
    ensures AllTold(t, made)
  {
    hide Rows, Evolves, Told, Remembers, ToldPc;
    WorkerIsTold(s, t, made, step.epoch);
    ClearedTells(t, made, s.workers[step.epoch].job);
    ToldFrame(s, t, made, made);
  }

  /** The item on which a worker stands takes over the line of the worker. */
  lemma ItemTakesLine(s: System, made: set<Call>, pc: Pc, item: Item)
    requires pc.Storing? || pc.Finishing?
    requires HasItem(s, pc.job.id, pc.job.index) && Remembers(s, pc.job) && ToldLine(made, pc.job, pc.line)
    requires item.line == Some(pc.line) && SameRequest(item, ItemAt(s, pc.job.id, pc.job.index))
    ensures ToldItem(made, (pc.job.id, pc.job.index), item)
  {
    hide Told;
  }

  lemma StoreTells(s: System, step: Step, t: System, made: set<Call>)
    requires Rows(s) && AllTold(s, made) && Evolves(s, t) && step.Store? && WorkerStep(s, step, t)
    ensures AllTold(t, made)
  {
    hide Rows, Evolves, AllTold, ToldItem, StartFinish, Remembers, ToldLine, ToldPc;
    var pc := s.workers[step.epoch];
    WorkerIsTold(s, t, made, step.epoch);
    StartFinishTells(t, made, pc.job, pc.state, pc.line, pc.linked);
    IdleIsTold(t, made);
    if CanStore(s, step.epoch, pc.job) {
      ItemTakesLine(s, made, pc, ItemAt(DoStore(s, pc), pc.job.id, pc.job.index));
    }
    ToldFrame(s, t, made, made);
  }

  lemma IdleIsTold(s: System, made: set<Call>)
    ensures ToldPc(s, made, Idle)
  {
  }

  lemma FinishTells(s: System, step: Step, t: System, made: set<Call>)
    requires Rows(s) && AllTold(s, made) && Evolves(s, t) && step.Finish? && WorkerStep(s, step, t)
    ensures AllTold(t, made)
  {
    hide Rows, Evolves, AllTold, ToldItem, EndIfDone, Remembers, ToldLine, ToldPc;
    var pc := s.workers[step.epoch];
    WorkerIsTold(s, t, made, step.epoch);
    IdleIsTold(t, made);
    if CanFinish(s, pc.job) {
      var item := FinishItem(ItemAt(s, pc.job.id, pc.job.index), pc.state, pc.line, pc.linked);
      EndKeepsItems(PutItem(s.db[pc.job.id], pc.job.index, item));
      ItemTakesLine(s, made, pc, item);
    }
    ToldFrame(s, t, made, made);
  }

  /** The call that a step makes, if it makes one. */
  function CallOf(s: System, step: Step): set<Call> {
    if step.Call? && step.epoch in s.workers && !s.workers[step.epoch].Idle?
    then {(KeyOf(s.workers[step.epoch].job), step.recorder)} else {}
  }

  lemma WorkerTells(s: System, step: Step, t: System, made: set<Call>)
    requires Rows(s) && AllTold(s, made) && Evolves(s, t)
    requires Works(step)
    requires WorkerStep(s, step, t)
    ensures AllTold(t, made + CallOf(s, step))
  {
    hide Rows, AllTold, Evolves, Check, Judge, NoticeFinish, ToldPc, ToldItem, Same, Attempt, Told, Remembers;
    if !step.Call? { assert made + CallOf(s, step) == made; }
    match step
    case Claim(_, _, _, _) => ClaimTells(s, step, t, made);
    case Arm(_, _) => ArmTells(s, step, t, made);
    case Store(_, _) => StoreTells(s, step, t, made);
    case Finish(_, _) => FinishTells(s, step, t, made);
    case Refuse(e, notice) =>
      WorkerIsTold(s, t, made, e);
      NoticeFinishTells(t, made, s.workers[e].job, notice);
      ToldFrame(s, t, made, made);
    case ReadCancel(e, readOk, contextCanceled) =>
      WorkerIsTold(s, t, made, e);
      CheckTells(t, made, s.workers[e].job, readOk, Flag(s, s.workers[e].job), s.now, contextCanceled);
      ToldFrame(s, t, made, made);
    case Decide(e, readOk, contextCanceled) =>
      WorkerIsTold(s, t, made, e);
      JudgeTells(t, made, s.workers[e].job, s.workers[e].recorder, readOk, Flag(s, s.workers[e].job), s.now, contextCanceled);
      ToldFrame(s, t, made, made);
    case Call(e, recorder) =>
      WorkerIsTold(s, t, made, e);
      ReturnedTells(t, made + CallOf(s, step), s.workers[e].job, recorder);
      ToldFrame(s, t, made, made + CallOf(s, step));
  }

  lemma ReturnedTells(s: System, made: set<Call>, job: Job, r: Recorder)
    requires Remembers(s, job) && (KeyOf(job), r) in made
    ensures ToldPc(s, made, Returned(job, r))
  {
  }

  lemma TableTells(s: System, step: Step, t: System, made: set<Call>)
    requires Rows(s) && AllTold(s, made) && Evolves(s, t)
    requires !Works(step)
    requires TableStep(s, step, t)
    ensures AllTold(t, made)
  {
    hide Rows, Evolves, RecoverItem, StopItem, ToldItem, CanFinalize, Finalize, EndIfDone, CancelBatch, ToldPc, NewBatch;
    match step
    case Create(id, b) =>
      NewTells(made, id, b, s.now);
      ToldFrame(s, t, made, made);
    case Reconcile(id, i, canceled) =>
      StopItemTells(made, (id, i), s.db[id].kind, ItemAt(s, id, i), canceled);
      ToldFrame(s, t, made, made);
    case Recover(id, i, listed) =>
      RecoverItemTells(made, (id, i), s.db[id], ItemAt(s, id, i), listed, s.now);
      ToldFrame(s, t, made, made);
    case Cancel(id) =>
      forall i: nat | i < |s.db[id].items| ensures ToldItem(made, (id, i), s.db[id].items[i]) {
        assert HasItem(s, id, i) && ToldItem(made, (id, i), ItemAt(s, id, i));
      }
      CancelTells(made, id, s.db[id]);
      ToldFrame(s, t, made, made);
    case End(id) =>
      EndKeepsItems(s.db[id]);
      ToldFrame(s, t, made, made);
    case FinalizeBatch(id) =>
      FinalizeDropsItems(s.db[id]);
      ToldFrame(s, t, made, made);
    case Boot(_) =>
      IdleIsTold(t, made);
      ToldFrame(s, t, made, made);
    case _ => ToldFrame(s, t, made, made);
  }

  lemma FinalizeDropsItems(b: Batch)
    ensures Finalize(b).items == []
  {
  }

  lemma NewTells(made: set<Call>, id: BatchId, b: Batch, now: int)
    requires NewBatch(b, now)
    ensures forall i: nat :: i < |b.items| ==> ToldItem(made, (id, i), b.items[i])
  {
  }

  // --------------------------------------------------------------------- runs

  /** The calls made in the first `i` steps of a run. */
  ghost function CallsMade(states: seq<System>, steps: seq<Step>, i: nat): set<Call>
    requires i <= |steps| && i <= |states|
  {
    if i == 0 then {} else CallsMade(states, steps, i - 1) + CallOf(states[i - 1], steps[i - 1])
  }

  lemma {:induction false} RunTells(states: seq<System>, steps: seq<Step>, i: nat)
    requires Run(states, steps) && i < |states|
    ensures AllTold(states[i], CallsMade(states, steps, i))
  {
    hide Rows, Calls, Finalized, Evolves, WorkerStep, TableStep, ToldItem, CallOf;
    if i > 0 {
      RunTells(states, steps, i - 1);
      RunKeepsInv(states, steps, i - 1);
      StepKeepsInv(states[i - 1], steps[i - 1], states[i]);
      var step, made := steps[i - 1], CallsMade(states, steps, i - 1);
      assert Next(states[i - 1], step, states[i]);
      if Works(step) {
        WorkerTells(states[i - 1], step, states[i], made);
      } else {
        TableTells(states[i - 1], step, states[i], made);
        NoCall(states[i - 1], step, made);
      }
    }
  }

  lemma NoCall(s: System, step: Step, made: set<Call>)
    requires !Works(step)
    ensures made + CallOf(s, step) == made
  {
  }

  lemma {:induction false} CallWasMade(states: seq<System>, steps: seq<Step>, i: nat, call: Call)
    requires i <= |steps| && i <= |states| && call in CallsMade(states, steps, i)
    ensures exists j :: 0 <= j < i && call in CallOf(states[j], steps[j])
  {
    hide CallOf;
    if call !in CallOf(states[i - 1], steps[i - 1]) { CallWasMade(states, steps, i - 1, call); }
  }

  /** No answer is made up: in every run the line of an item that succeeded has the ids of its request and the answer of a
      provider call that an earlier step made for this item. */
  lemma SuccessIsTheProvidersAnswer(states: seq<System>, steps: seq<Step>, i: nat, id: BatchId, index: nat)
    requires Run(states, steps) && i < |states| && HasItem(states[i], id, index) && ItemAt(states[i], id, index).state.Succeeded?
    ensures var item := ItemAt(states[i], id, index);
            item.line.Some? && Names(item.line.value, item.customId, item.resultId)
            && exists j, r :: 0 <= j < i && ((id, index), r) in CallOf(states[j], steps[j]) && Carries(item.line.value, r)
  {
    hide Next, Calls, Finalized, Size, Carries, CallOf, Names;
    RunKeepsInv(states, steps, i);
    RunTells(states, steps, i);
    var b, item, made := states[i].db[id], ItemAt(states[i], id, index), CallsMade(states, steps, i);
    assert BatchOk(b) && ItemOk(b.kind, b.total, b.items[index]);
    assert ToldItem(made, (id, index), item);
    var r :| ((id, index), r) in made && Carries(item.line.value, r);
    CallWasMade(states, steps, i, ((id, index), r));
  }

  /** In every run a worker that decides on a provider outcome does so as `BatchOutcomes` says, for the ids of its row. */
  lemma DecisionFollowsOutcome(states: seq<System>, steps: seq<Step>, i: nat)
    requires Run(states, steps) && i < |steps| && steps[i].Decide?
    ensures var s, e := states[i], steps[i].epoch;
            e in s.workers && s.workers[e].Returned? && e in states[i + 1].workers &&
            var pc, next := s.workers[e], states[i + 1].workers[e];
            var (job, r) := (pc.job, pc.recorder);
            JobLimits(job) && Remembers(s, job) && (KeyOf(job), r) in CallsMade(states, steps, i)
            && (next.Storing? || next.Finishing?) && next.job == job
            && (next.state.Succeeded? <==> Good(r, job.kind) && FitsTable(job, GoodLine(job, r)))
            && (next.state.Succeeded? ==> next.line == GoodLine(job, r))
            && (next.state.Canceled? || next.state.Expired? <==>
                  Stopped(job, r, steps[i].readOk, Flag(s, job), s.now, steps[i].contextCanceled))
            && (next.Storing? <==> r.requestId != "" && !Stopped(job, r, steps[i].readOk, Flag(s, job), s.now, steps[i].contextCanceled))
  {
    hide BatchOk, Calls, Finalized, LineOk, Judge, Good, Stopped, FitsTable, Remembers, ToldItem, ToldLine, KeyOf, Flag, Init, StopLine;
    RunKeepsInv(states, steps, i);
    RunTells(states, steps, i);
    assert Next(states[i], steps[i], states[i + 1]);
    var s, e := states[i], steps[i].epoch;
    var pc := s.workers[e];
    assert PcOk(s, pc) && ToldPc(s, CallsMade(states, steps, i), pc);
    GoodAnswerSucceeds(pc.job, pc.recorder, steps[i].readOk, Flag(s, pc.job), s.now, steps[i].contextCanceled);
    StoppedItemEnds(pc.job, pc.recorder, steps[i].readOk, Flag(s, pc.job), s.now, steps[i].contextCanceled);
    if !Stopped(pc.job, pc.recorder, steps[i].readOk, Flag(s, pc.job), s.now, steps[i].contextCanceled) {
      JudgeUnstopped(pc.job, pc.recorder, steps[i].readOk, Flag(s, pc.job), s.now, steps[i].contextCanceled);
    }
  }

  /** A statement of a worker that takes effect leaves the row with the worker's line, in its state or in `settling`. */
  lemma StatementWritesDecision(states: seq<System>, steps: seq<Step>, i: nat)
    requires Run(states, steps) && i < |steps| && (steps[i].Store? || steps[i].Finish?) && !steps[i].report.LostAndFailed?
    ensures var s, t, e := states[i], states[i + 1], steps[i].epoch;
            e in s.workers && (s.workers[e].Storing? || s.workers[e].Finishing?) &&
            var pc := s.workers[e];
            var (id, index) := KeyOf(pc.job);
            HasItem(s, id, index) ==>
              HasItem(t, id, index) &&
              var x, y := ItemAt(s, id, index), ItemAt(t, id, index);
              if pc.Storing? && x.state.Dispatching? && x.lease == e
              then y == x.(state := Settling, line := Some(pc.line), linked := pc.linked, intended := pc.state)
              else if pc.Finishing? && x.state.Active() && !x.state.Queued?
              then y == x.(state := pc.state, line := Some(pc.line), linked := x.linked || pc.linked)
              else y == x
  {
    hide Run, EndIfDone, StartFinish;
    NextOf(states, steps, i);
    var s, e := states[i], steps[i].epoch;
    var pc := s.workers[e];
    if steps[i].Finish? && CanFinish(s, pc.job) {
      EndKeepsItems(PutItem(s.db[pc.job.id], pc.job.index, FinishItem(ItemAt(s, pc.job.id, pc.job.index), pc.state, pc.line, pc.linked)));
    }
  }

  lemma NextOf(states: seq<System>, steps: seq<Step>, i: nat)
    requires Run(states, steps) && i < |steps|
    ensures i + 1 < |states| && Next(states[i], steps[i], states[i + 1])
  {
    hide Next;
  }

  // ---------------------------------------------------------- the text of files

  /** The entry that the text of a file has for an item: the ids of its request, and an answer exactly for a success. */
  ghost predicate AnswersItem(text: string, at: nat, item: Item) {
    item.line.Some? && at < |Split(text)| &&
    var entry := ReadOpenAI(Split(text)[at]);
    entry == Some(EntryOf(item.line.value)) && entry.value.customId == item.customId && !entry.value.Ending?
    && entry.value.id == item.resultId && (entry.value.Answer? <==> item.state.Succeeded?)
  }

  /** In every run the files a finalization generates answer each request under its own ids: read from its text, the file
      of successes has an answer for each item that succeeded and the file of errors an error for each that did not, in
      the order of the items. */
  lemma FilesNameTheirRequests(states: seq<System>, steps: seq<Step>, i: nat, id: BatchId, n: nat)
    requires Run(states, steps) && i < |steps| && steps[i] == FinalizeBatch(id) && HasItem(states[i], id, n)
    ensures id in states[i + 1].db && states[i + 1].db[id].files.Some?
    ensures var items, f := states[i].db[id].items, states[i + 1].db[id].files.value;
            var side := items[n].state.Succeeded?;
            AnswersItem(Join(Texts(if side then f.output else f.errors)), Before(items, n, side), items[n])
  {
    hide Next, AnswersItem, BatchOk, ToldItem, NamedItem, LinesOf, Join, Texts, Before;
    hide Calls, Finalized, CanFinalize, CountFailed, JoinedSize;
    FinalizationIsComplete(states, steps, i, id);
    RunKeepsInv(states, steps, i);
    RunTells(states, steps, i);
    var b := states[i].db[id];
    assert BatchOk(b) && ToldItem(CallsMade(states, steps, i), (id, n), ItemAt(states[i], id, n));
    ToldIsNamed(CallsMade(states, steps, i), (id, n), ItemAt(states[i], id, n));
    FinalizedKind(states, steps, i, id);
    ItemStandsInFile(b.items, n);
    StandingItemIsAnswered(b, n, Join(Texts(LinesOf(b.items, b.items[n].state.Succeeded?))));
  }

  lemma ToldIsNamed(made: set<Call>, key: (BatchId, nat), item: Item)
    requires ToldItem(made, key, item)
    ensures NamedItem(item)
  {
    hide Names, Carries;
  }

  predicate NamedItem(item: Item) { item.line.Some? ==> Names(item.line.value, item.customId, item.resultId) }

  lemma FinalizedKind(states: seq<System>, steps: seq<Step>, i: nat, id: BatchId)
    requires Run(states, steps) && i < |steps| && steps[i] == FinalizeBatch(id)
    ensures id in states[i].db && states[i].db[id].kind.OpenAIBatch?
  {
    hide JoinedSize, LinesOf, AnyActive, Finalize;
    assert Next(states[i], steps[i], states[i + 1]);
  }

  lemma StandingItemIsAnswered(b: Batch, n: nat, text: string)
    requires BatchOk(b) && b.kind.OpenAIBatch? && n < |b.items| && Terminal(b.items[n].state) && NamedItem(b.items[n])
    requires StandsIn(b.items, n, text)
    ensures AnswersItem(text, Before(b.items, n, b.items[n].state.Succeeded?), b.items[n])
  {
    hide Split, Before, ReadOpenAI, Code, Text, Size, ErrorObject;
    assert ItemOk(b.kind, b.total, b.items[n]);
  }

  /** The results of an ended Message Batch, cut from the text its handler answers with, name the requests in order and
      say how each ended. */
  lemma ResultsNameTheirRequests(states: seq<System>, steps: seq<Step>, i: nat, id: BatchId)
    requires Run(states, steps) && i < |states| && id in states[i].db && states[i].db[id].status.Ended?
    ensures forall n :: 0 <= n < |states[i].db[id].items| ==> states[i].db[id].items[n].line.Some?
    ensures var items := states[i].db[id].items;
            var cut := Split(Join(Texts(AllLines(items))));
            |cut| == |items| && forall n :: 0 <= n < |items| ==> EndsItem(cut[n], items[n])
  {
    hide Next, Calls, Finalized, BatchOk, EndsItem, Split, Join, Texts, Size, ReadsAs;
    RunKeepsInv(states, steps, i);
    RunTells(states, steps, i);
    var b := states[i].db[id];
    EndedLines(b);
    LinesReadBack(AllLines(b.items));
    forall n: nat | n < |b.items| ensures EndsItem(Split(Join(Texts(AllLines(b.items))))[n], b.items[n]) {
      assert HasItem(states[i], id, n);
      ToldIsNamed(CallsMade(states, steps, i), (id, n), ItemAt(states[i], id, n));
      ReadItemEnds(b, n, Split(Join(Texts(AllLines(b.items))))[n]);
    }
  }

  /** The text is a Message Batch result under the custom id of the item, of kind "succeeded" exactly for a success. */
  ghost predicate EndsItem(text: string, item: Item) {
    item.line.Some? &&
    var entry := ReadMessage(text);
    entry == Some(EntryOf(item.line.value)) && entry.value.customId == item.customId && entry.value.Ending?
    && (entry.value.kind == "succeeded" <==> item.state.Succeeded?)
  }

  lemma ReadItemEnds(b: Batch, n: nat, text: string)
    requires BatchOk(b) && b.status.Ended? && n < |b.items| && NamedItem(b.items[n])
    requires b.items[n].line.Some? && ReadsAs(text, b.items[n].line.value)
    ensures EndsItem(text, b.items[n])
  {
    hide ReadMessage, Size, ErrorObject, Code, Text;
    assert ItemOk(b.kind, b.total, b.items[n]);
    KindsDiffer();
  }
}
