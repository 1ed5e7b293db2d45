/** OpenAI Batches and Anthropic Message Batches as one state machine over their SQL rows.

    Every guarded UPDATE or transaction is one atomic step. Any number of gateway processes, each with its own
    lease epoch, may be alive at once and may crash between any two steps; a statement may take effect and still
    report an error to the process that issued it. */
module BatchMachine {
  import opened BatchLines
  import opened Common
  import opened Json

  type BatchId = nat
  type Epoch = nat    // 0 stands for the empty lease

  datatype Kind = OpenAIBatch | MessageBatch
  datatype Status = InProgress | Cancelling | Completed | Cancelled | ExpiredBatch | Ended

  /** One item row. `intended` is history, not a column: the state the run that stored `line` meant to finish with. */
  datatype Item = Item(customId: string, resultId: string, requestBytes: nat, state: ItemState, lease: Epoch, line: Option<Line>,
                       linked: bool, usageKnown: bool, intended: ItemState)

  /** What finalizing an OpenAI Batch records: the rows of its two files and the columns it fills in. */
  datatype Files = Files(output: seq<Line>, errors: seq<Line>, completed: nat, failed: nat)

  /** One batch row with its item rows in ordinal order (ordinal = index + 1). `deadline` is created_at plus 24 hours. */
  datatype Batch = Batch(kind: Kind, owner: nat, key: nat, status: Status, cancelRequested: bool, deadline: int,
                         total: nat, items: seq<Item>, files: Option<Files>)

  /** The claimed row as the worker remembers it. */
  datatype Job = Job(id: BatchId, index: nat, kind: Kind, customId: string, resultId: string, total: nat, deadline: int)

  /** The notices a worker may refuse a claimed item with. */
  predicate Refusal(kind: Kind, n: Notice) {
    n.PermissionDenied?
    || (if kind.OpenAIBatch? then n.Unreadable? || n.Invalid?
        else n.NotAnObject? || n.NoModel? || n.NoMaxTokens? || n.NoMessages? || n.Streaming?)
  }

  /** What `forwardAuthorized` left in the recorder. `rewritten` is the public body when it could be rewritten, `message`
      the body when it is a valid message, and `errorObject` the body when it is an error response. */
  datatype Recorder = Recorder(attempted: bool, settled: bool, succeeded: bool, failed: bool, status: nat,
                               validJson: bool, body: string, message: Option<JsonText>, rewritten: Option<JsonText>,
                               providerError: Option<(string, string, string)>, errorObject: Option<JsonText>,
                               requestId: string)

  /** Where a worker stands between two statements. */
  datatype Pc =
    | Idle
    | Ready(job: Job)                   // the claim committed
    | Armed(job: Job)                   // the transition to dispatching reported one changed row
    | Cleared(job: Job)                 // neither cancelled nor expired; forwarding is next
    | Returned(job: Job, recorder: Recorder)
    | Storing(job: Job, state: ItemState, line: Line, linked: bool)
    | Finishing(job: Job, state: ItemState, line: Line, linked: bool)

  /** Two histories stand beside the tables: the requests forwarded for items, and the finalizations. */
  datatype System = System(db: map<BatchId, Batch>, now: int, workers: map<Epoch, Pc>, used: set<BatchId>,
                           epochs: set<Epoch>, calls: multiset<(BatchId, nat)>, finalizations: multiset<BatchId>)

  // ------------------------------------------------------------- row updates

  predicate Unstarted(s: ItemState) { s.Queued? || s.Claimed? }
  predicate Terminal(s: ItemState) { !s.Active() }

  function FinishItem(item: Item, state: ItemState, line: Line, linked: bool): Item {
    item.(state := state, line := Some(line), linked := item.linked || linked)
  }

  function Notify(kind: Kind, resultId: string, customId: string, n: Notice): Line {
    if kind.OpenAIBatch? then OpenAI(Gateway(resultId, customId, n)) else Anthropic(GatewayError(customId, n))
  }

  /** The line of an item cancelled or expired by the gateway: an error line, or a bare Message Batch result. */
  function StopLine(kind: Kind, resultId: string, customId: string, canceled: bool, started: bool): Line {
    if kind.MessageBatch? then Anthropic(Result(customId, canceled))
    else Notify(kind, resultId, customId,
                if canceled then (if started then CancelledDuring else CancelledBefore)
                else (if started then ExpiredDuring else ExpiredBefore))
  }

  function StopItem(kind: Kind, item: Item, canceled: bool): Item {
    if Unstarted(item.state)
    then FinishItem(item, if canceled then Canceled else Expired,
                    StopLine(kind, item.resultId, item.customId, canceled, false), false)
    else item
  }

  function StopItems(kind: Kind, items: seq<Item>, canceled: bool): seq<Item> {
    seq(|items|, i requires 0 <= i < |items| => StopItem(kind, items[i], canceled))
  }

  predicate AnyActive(items: seq<Item>) { exists i :: 0 <= i < |items| && items[i].state.Active() }

  /** `finishMessageBatchTx`: a Message Batch without active items ends. */
  function EndIfDone(b: Batch): Batch {
    if b.kind.MessageBatch? && !b.status.Ended? && !AnyActive(b.items) then b.(status := Ended) else b
  }

  predicate Open(b: Batch) { b.status.InProgress? || b.status.Cancelling? }

  /** The cancel transaction of either kind. */
  function CancelBatch(b: Batch): Batch {
    if Open(b) then EndIfDone(b.(status := Cancelling, cancelRequested := true, items := StopItems(b.kind, b.items, true)))
    else b
  }

  /** Startup recovery of one listed row; `listed` is the state its earlier SELECT reported. */
  function RecoverItem(b: Batch, item: Item, listed: ItemState, now: int): Item {
    if listed.Claimed? then
      (if item.state.Claimed? then item.(state := Queued, lease := 0) else item)
    else if listed.Settling? then
      (if item.state.Settling? && item.line.Some? then item.(state := ResultState(item.line.value)) else item)
    else if b.kind.OpenAIBatch? then
      (if item.state.Dispatching? then
         (if b.deadline <= now
          then FinishItem(item, Expired, Notify(b.kind, item.resultId, item.customId, ExpiredDuring), false).(usageKnown := false)
          else FinishItem(item, Interrupted, Notify(b.kind, item.resultId, item.customId, Restarted), false).(usageKnown := false))
       else item)
    else
      (if item.state.Dispatching? || item.state.Settling?
       then FinishItem(item, Interrupted, Notify(b.kind, item.resultId, item.customId, Restarted), false)
       else item)
  }

  // ---------------------------------------------------------- finalized files

  /** The line of one item, if it belongs to the file of that side. */
  function OwnLine(item: Item, succeeded: bool): seq<Line> {
    if item.state.Succeeded? == succeeded && item.line.Some? then [item.line.value] else []
  }

  function LinesOf(items: seq<Item>, succeeded: bool): seq<Line> {
    if items == [] then [] else OwnLine(items[0], succeeded) + LinesOf(items[1..], succeeded)
  }

  function CountFailed(items: seq<Item>): nat {
    if items == [] then 0
    else (if items[0].state.Failed? || items[0].state.Interrupted? then 1 else 0) + CountFailed(items[1..])
  }

  function TextSize(lines: seq<Line>): nat {
    if lines == [] then 0 else Size(lines[0]) + TextSize(lines[1..])
  }

  /** The size of the lines once `appendJSONL` has joined them. */
  function JoinedSize(lines: seq<Line>): nat {
    if lines == [] then 0 else TextSize(lines) + |lines| - 1
  }

  function FinalFiles(b: Batch): Files {
    var output := LinesOf(b.items, true);
    Files(output, LinesOf(b.items, false), |output|, CountFailed(b.items))
  }

  /** The checks `finalizeOpenAIBatch` makes before it writes anything. */
  predicate CanFinalize(b: Batch) {
    b.kind.OpenAIBatch? && Open(b) && !AnyActive(b.items)
    && |b.items| == b.total
    && JoinedSize(FinalFiles(b).output) <= MAX_FILE_BYTES
    && JoinedSize(FinalFiles(b).errors) <= MAX_FILE_BYTES
  }

  function Finalize(b: Batch): Batch {
    var expired := exists i :: 0 <= i < |b.items| && b.items[i].state.Expired?;
    b.(status := if b.cancelRequested then Cancelled else if expired then ExpiredBatch else Completed,
       files := Some(FinalFiles(b)), items := [])
  }

  // ------------------------------------------------------------ worker code

  function Bound(job: Job, state: ItemState, line: Line): (Line, ItemState)
    requires job.total <= MAX_ITEMS
  {
    match line
    case OpenAI(l) => var (l', s') := BoundOpenAI(job.total, job.resultId, job.customId, l, state); (OpenAI(l'), s')
    case Anthropic(l) => var (l', s') := BoundMessage(job.customId, l, state); (Anthropic(l'), s')
  }

  /** Entering `finishOpenAIBatchItem` or `finishMessageBatchItem`, which bound the line first. */
  function StartFinish(job: Job, state: ItemState, line: Line, linked: bool): Pc
    requires job.total <= MAX_ITEMS
  {
    var (line', state') := Bound(job, state, line);
    Finishing(job, state', line', linked)
  }

  function NoticeFinish(job: Job, n: Notice): Pc
    requires job.total <= MAX_ITEMS
  {
    StartFinish(job, Failed, Notify(job.kind, job.resultId, job.customId, n), false)
  }

  /** The checks made once the item is dispatching and before the provider is called. */
  function Check(job: Job, readOk: bool, flag: bool, now: int, contextCanceled: bool): Pc
    requires job.total <= MAX_ITEMS
  {
    if readOk && flag then StartFinish(job, Canceled, StopLine(job.kind, job.resultId, job.customId, true, false), false)
    else if job.deadline <= now then StartFinish(job, Expired, StopLine(job.kind, job.resultId, job.customId, false, false), false)
    else if job.kind.MessageBatch? && contextCanceled
    then StartFinish(job, Canceled, StopLine(job.kind, job.resultId, job.customId, true, false), false)
    else if !readOk then NoticeFinish(job, CancelUnknown)
    else Cleared(job)
  }

  function ProviderErrorLine(job: Job, r: Recorder): OpenAILine {
    match r.providerError
    case None => Failure(job.resultId, job.customId, "request_failed", "The request failed.")
    case Some((code, kind, message)) =>
      Failure(job.resultId, job.customId,
            if code != "" then code else if kind != "" then kind else "request_failed",
            if message != "" then message else "The request failed.")
  }

  predicate CompletedOutcome(r: Recorder) { r.attempted && r.settled && (r.succeeded || r.failed) }

  /** The line and state that the provider outcome stands for, before bounding. */
  function Outcome(job: Job, r: Recorder): (Line, ItemState) {
    var completed := CompletedOutcome(r);
    if job.kind.OpenAIBatch? then
      if completed && 200 <= r.status < 300 && r.validJson then
        match r.rewritten
        case Some(body) => (OpenAI(Success(job.resultId, job.customId, r.status, r.requestId, body)), Succeeded)
        case None => (OpenAI(Gateway(job.resultId, job.customId, NotCompleted)), Failed)
      else if r.body != "" then (OpenAI(ProviderErrorLine(job, r)), Failed)
      else (OpenAI(Gateway(job.resultId, job.customId, NotCompleted)), Failed)
    else if completed && r.succeeded && 200 <= r.status < 300 && r.message.Some?
    then (Anthropic(Message(job.customId, r.message.value)), Succeeded)
    else match r.errorObject
         case Some(error) => (Anthropic(Errored(job.customId, error)), Failed)
         case None => (Anthropic(GatewayError(job.customId, NotCompleted)), Failed)
  }

  /** What the worker does with the provider outcome: store it in `settling`, or finish directly. */
  function Judge(job: Job, r: Recorder, readOk: bool, flag: bool, now: int, contextCanceled: bool): Pc
    requires job.total <= MAX_ITEMS
  {
    var completed := CompletedOutcome(r);
    var linked := r.requestId != "";
    if !completed && readOk && flag
    then StartFinish(job, Canceled, StopLine(job.kind, job.resultId, job.customId, true, true), linked)
    else if !completed && job.deadline <= now
    then StartFinish(job, Expired, StopLine(job.kind, job.resultId, job.customId, false, true), linked)
    else if job.kind.MessageBatch? && !completed && contextCanceled
    then StartFinish(job, Canceled, StopLine(job.kind, job.resultId, job.customId, true, true), linked)
    else
      var (line, state) := Outcome(job, r);
      var (line', state') := Bound(job, state, line);
      if linked then Storing(job, state', line', true) else StartFinish(job, state', line', false)
  }

  // -------------------------------------------------------------------- steps

  datatype Step =
    | Create(id: BatchId, batch: Batch)
    | Tick(elapsed: nat)
    | Boot(epoch: Epoch)
    | Crash(epoch: Epoch)
    | Claim(epoch: Epoch, id: BatchId, index: nat, report: Report)
    | Refuse(epoch: Epoch, notice: Notice)
    | Arm(epoch: Epoch, report: Report)
    | ReadCancel(epoch: Epoch, readOk: bool, contextCanceled: bool)
    | Call(epoch: Epoch, recorder: Recorder)
    | Decide(epoch: Epoch, readOk: bool, contextCanceled: bool)
    | Store(epoch: Epoch, report: Report)
    | Finish(epoch: Epoch, report: Report)
    | Reconcile(id: BatchId, index: nat, canceled: bool)
    | Recover(id: BatchId, index: nat, listed: ItemState)
    | Cancel(id: BatchId)
    | End(id: BatchId)
    | FinalizeBatch(id: BatchId)
    | Remove(id: BatchId)

  predicate NewBatch(b: Batch, now: int) {
    b.status.InProgress? && !b.cancelRequested && b.files.None? && now < b.deadline
    && 1 <= b.total <= MAX_ITEMS && |b.items| == b.total
    && forall i :: 0 <= i < |b.items| ==> NewItem(b.items[i])
  }

  predicate NewItem(item: Item) {
    item.state.Queued? && item.lease == 0 && item.line.None? && !item.linked && item.usageKnown
    && 0 < |item.customId| <= 64 && 0 < |item.resultId| <= 128
  }

  predicate HasItem(s: System, id: BatchId, index: nat) { id in s.db && index < |s.db[id].items| }

  function ItemAt(s: System, id: BatchId, index: nat): Item
    requires HasItem(s, id, index)
  {
    s.db[id].items[index]
  }

  function PutItem(b: Batch, index: nat, item: Item): Batch
    requires index < |b.items|
  {
    b.(items := b.items[index := item])
  }

  function SetBatch(s: System, id: BatchId, b: Batch): System { s.(db := s.db[id := b]) }

  function SetPc(s: System, e: Epoch, pc: Pc): System { s.(workers := s.workers[e := pc]) }

  predicate Flag(s: System, job: Job) { job.id in s.db && s.db[job.id].cancelRequested }

  /** A running call is only stopped by `cancelBatchActive`, after the cancel of its batch committed. */
  predicate MayBeStopped(s: System, job: Job) { job.id in s.db ==> s.db[job.id].cancelRequested }

  /** A row a worker may claim. */
  predicate Claimable(s: System, id: BatchId, index: nat) {
    HasItem(s, id, index) && ItemAt(s, id, index).state.Queued? && s.db[id].status.InProgress?
    && !s.db[id].cancelRequested && s.now < s.db[id].deadline
  }

  function JobOf(s: System, id: BatchId, index: nat): Job
    requires HasItem(s, id, index)
  {
    var b := s.db[id];
    Job(id, index, b.kind, b.items[index].customId, b.items[index].resultId, b.total, b.deadline)
  }

  /** The UPDATE that moves `claimed` to `dispatching`; the other two functions are alike. */
  predicate CanArm(s: System, e: Epoch, job: Job) {
    HasItem(s, job.id, job.index) && ItemAt(s, job.id, job.index).state.Claimed? && ItemAt(s, job.id, job.index).lease == e
  }

  function DoArm(s: System, job: Job): System
    requires HasItem(s, job.id, job.index)
  {
    SetBatch(s, job.id, PutItem(s.db[job.id], job.index, ItemAt(s, job.id, job.index).(state := Dispatching)))
  }

  predicate CanStore(s: System, e: Epoch, job: Job) {
    HasItem(s, job.id, job.index) && ItemAt(s, job.id, job.index).state.Dispatching? && ItemAt(s, job.id, job.index).lease == e
  }

  function DoStore(s: System, pc: Pc): System
    requires pc.Storing? && HasItem(s, pc.job.id, pc.job.index)
  {
    var item := ItemAt(s, pc.job.id, pc.job.index);
    SetBatch(s, pc.job.id, PutItem(s.db[pc.job.id], pc.job.index,
      item.(state := Settling, line := Some(pc.line), linked := pc.linked, intended := pc.state)))
  }

  predicate CanFinish(s: System, job: Job) {
    HasItem(s, job.id, job.index)
    && var st := ItemAt(s, job.id, job.index).state; st.Claimed? || st.Dispatching? || st.Settling?
  }

  function DoFinish(s: System, pc: Pc): System
    requires pc.Finishing? && HasItem(s, pc.job.id, pc.job.index)
  {
    var b := PutItem(s.db[pc.job.id], pc.job.index, FinishItem(ItemAt(s, pc.job.id, pc.job.index), pc.state, pc.line, pc.linked));
    SetBatch(s, pc.job.id, EndIfDone(b))
  }

  /** A guarded statement inside a retry loop: `next` follows one changed row, `Idle` follows none,
      and an error, whether or not the statement took effect, leaves the worker retrying. */
  ghost predicate Attempt(s: System, s': System, e: Epoch, enabled: bool, effect: System, next: Pc, report: Report)
    requires e in s.workers
  {
    match report
    case Done => s' == if enabled then SetPc(effect, e, next) else SetPc(s, e, Idle)
    case AppliedButFailed => s' == if enabled then effect else s
    case LostAndFailed => s' == s
  }

  /** The steps of a worker; the others are those of handlers, recovery, retention and the environment. */
  predicate Works(step: Step) {
    step.Claim? || step.Refuse? || step.Arm? || step.ReadCancel? || step.Call? || step.Decide? || step.Store? || step.Finish?
  }

  ghost predicate WorkerStep(s: System, step: Step, s': System)
    requires Works(step)
  {
    step.epoch in s.workers &&
    var e := step.epoch;
    var pc := s.workers[e];
    (!pc.Idle? ==> pc.job.total <= MAX_ITEMS) &&
    match step
    case Claim(_, id, i, report) =>
      pc.Idle? && Claimable(s, id, i) &&
      var effect := SetBatch(s, id, PutItem(s.db[id], i, ItemAt(s, id, i).(state := Claimed, lease := e)));
      (match report
       case Done => s' == SetPc(effect, e, Ready(JobOf(s, id, i)))
       case AppliedButFailed => s' == effect
       case LostAndFailed => s' == s)
    case Refuse(_, notice) =>
      pc.Ready? && Refusal(pc.job.kind, notice)
      && s' == SetPc(s, e, NoticeFinish(pc.job, notice))
    case Arm(_, report) =>
      pc.Ready? &&
      var enabled := CanArm(s, e, pc.job);
      Attempt(s, s', e, enabled, if enabled then DoArm(s, pc.job) else s, Armed(pc.job), report)
    case ReadCancel(_, readOk, contextCanceled) =>
      pc.Armed? && (contextCanceled ==> MayBeStopped(s, pc.job)) && s' == SetPc(s, e, Check(pc.job, readOk, Flag(s, pc.job), s.now, contextCanceled))
    case Call(_, recorder) =>
      pc.Cleared? && s' == SetPc(s, e, Returned(pc.job, recorder)).(calls := s.calls + multiset{(pc.job.id, pc.job.index)})
    case Decide(_, readOk, contextCanceled) =>
      pc.Returned? && (contextCanceled ==> MayBeStopped(s, pc.job))
      && s' == SetPc(s, e, Judge(pc.job, pc.recorder, readOk, Flag(s, pc.job), s.now, contextCanceled))
    case Store(_, report) =>
      pc.Storing? &&
      var enabled := CanStore(s, e, pc.job);
      Attempt(s, s', e, enabled, if enabled then DoStore(s, pc) else s, StartFinish(pc.job, pc.state, pc.line, pc.linked), report)
    case Finish(_, report) =>
      pc.Finishing? &&
      var enabled := CanFinish(s, pc.job);
      Attempt(s, s', e, enabled, if enabled then DoFinish(s, pc) else s, Idle, report)
  }

  /** The steps of handlers, startup recovery, reconciliation and retention, and of the environment. */
  ghost predicate TableStep(s: System, step: Step, s': System)
    requires !Works(step)
  {
    match step
    case Create(id, b) =>
      id !in s.used && NewBatch(b, s.now) && s' == SetBatch(s, id, b).(used := s.used + {id})
    case Tick(elapsed) => s' == s.(now := s.now + elapsed)
    case Boot(e) => e != 0 && e !in s.epochs && s' == SetPc(s, e, Idle).(epochs := s.epochs + {e})
    case Crash(e) => s' == s.(workers := s.workers - {e})
    case Reconcile(id, i, canceled) =>
      HasItem(s, id, i) && (if canceled then s.db[id].cancelRequested else s.db[id].deadline <= s.now)
      && s' == SetBatch(s, id, PutItem(s.db[id], i, StopItem(s.db[id].kind, ItemAt(s, id, i), canceled)))
    case Recover(id, i, listed) =>
      HasItem(s, id, i) && (listed.Claimed? || listed.Dispatching? || listed.Settling?)
      && s' == SetBatch(s, id, PutItem(s.db[id], i, RecoverItem(s.db[id], ItemAt(s, id, i), listed, s.now)))
    case Cancel(id) => id in s.db && s' == SetBatch(s, id, CancelBatch(s.db[id]))
    case End(id) => id in s.db && s' == SetBatch(s, id, EndIfDone(s.db[id]))
    case FinalizeBatch(id) =>
      id in s.db && CanFinalize(s.db[id])
      && s' == SetBatch(s, id, Finalize(s.db[id])).(finalizations := s.finalizations + multiset{id})
    case Remove(id) => s' == s.(db := s.db - {id})
  }

  ghost predicate Next(s: System, step: Step, s': System) {
    if Works(step)
    then WorkerStep(s, step, s') else TableStep(s, step, s')
  }

  ghost predicate Init(s: System) {
    s.db == map[] && s.workers == map[] && s.used == {} && s.epochs == {}
    && s.calls == multiset{} && s.finalizations == multiset{}
  }

  /** A run: each state follows from the one before by the step of the same index. */
  ghost predicate Run(states: seq<System>, steps: seq<Step>) {
    |states| == |steps| + 1 && Init(states[0])
    && forall i :: 0 <= i < |steps| ==> Next(states[i], steps[i], states[i + 1])
  }
}
