/** Background Responses and the conversations they extend, as one state machine over their SQL rows.

    Any number of gateway processes with their own lease epochs run jobs, foreground requests append turns, and
    handlers edit conversations, cancel and delete; every transaction is one atomic step, processes may crash between
    any two steps, and a statement or commit may take effect and still report an error. */
module ResponseMachine {
  import opened Common
  import C = Conversations

  type ResponseId = nat
  type RequestId = nat
  type Epoch = nat    // 0 stands for the empty lease

  datatype Phase = Queued | Running | Completed | Failed | Cancelled | Interrupted
  {
    predicate Active() { Queued? || Running? }
  }

  /** One row of `stored_responses`. `bytes` is the size of its request, its body and its conversation items as they
      were inserted; `announced` says that a worker has since replaced the queued body by an in-progress one. */
  datatype Response = Response(owner: nat, key: nat, phase: Phase, lease: Epoch, expiresAt: int,
                               attachment: Option<C.Attachment>, requestId: Option<RequestId>, bytes: nat, announced: bool)

  /** The claimed row as the worker remembers it. */
  datatype Job = Job(id: ResponseId, attachment: Option<C.Attachment>)

  /** What the forwarded request left behind: whether the provider answered with a 2xx status, whether that body could
      be rewritten, the phase to store, and the output items for the conversation. `finalRequest` says that the
      settlement already closed the gateway request. */
  datatype Recorder = Recorder(status2xx: bool, rewritten: bool, storedPhase: Phase, settled: bool, finalRequest: bool,
                               requestId: Option<RequestId>, output: seq<C.Body>)

  datatype Pc =
    | Idle
    | Claimed(job: Job)                      // the claim returned the row; its body is rewritten next
    | Ready(job: Job)
    | Checked(job: Job)                      // the conversation was still at the remembered revision
    | Cleared(job: Job)                      // the row was read as running; forwarding is next
    | Returned(job: Job, recorder: Recorder)
    | Linking(job: Job, recorder: Recorder)      // a settled request of a Response with a conversation
    | Linked(job: Job, recorder: Recorder)
    | Storing(job: Job, recorder: Recorder)      // a Response without a conversation
    | Completing(job: Job, recorder: Recorder)   // a Response with one
    | Closing(job: Job, request: RequestId, fail: bool)
    | Failing(job: Job)

  datatype RequestState = InProgress | Final

  /** Three histories stand beside the tables: the requests forwarded for Responses, and the background and foreground
      turns that were committed. */
  datatype System = System(db: map<ResponseId, Response>, used: set<ResponseId>,
                           conversations: C.Table, usedConversations: set<C.ConversationId>,
                           attachments: map<nat, C.Attachment>, requests: map<RequestId, RequestState>,
                           workers: map<Epoch, Pc>, epochs: set<Epoch>, now: int,
                           calls: multiset<ResponseId>, turns: multiset<ResponseId>, foreground: multiset<nat>)

  datatype Step =
    | Tick(elapsed: nat)
    | CreateConversation(id: C.ConversationId, owner: nat, key: nat, bodies: seq<C.Body>, room: bool)
    | CreateItems(id: C.ConversationId, key: nat, bodies: seq<C.Body>, room: bool)
    | DeleteItem(id: C.ConversationId, key: nat, ordinal: nat)
    | DeleteConversation(id: C.ConversationId, key: nat)
    | Purge(ids: set<C.ConversationId>)
    | Prepare(handle: nat, id: C.ConversationId, key: nat, newItems: seq<C.Body>)
    | ForegroundTurn(handle: nat, output: seq<C.Body>, room: bool, report: Report)
    | Enqueue(id: ResponseId, response: Response)
    | Cancel(id: ResponseId)
    | Delete(id: ResponseId)
    | Recover(id: ResponseId)
    | Boot(epoch: Epoch)
    | Crash(epoch: Epoch)
    | Claim(epoch: Epoch, id: ResponseId, report: Report)
    | Announce(epoch: Epoch, report: Report)
    | Refuse(epoch: Epoch)
    | CheckRevision(epoch: Epoch, readOk: bool)
    | ReadPhase(epoch: Epoch, readOk: bool)
    | Call(epoch: Epoch, recorder: Recorder)
    | Settle(epoch: Epoch)
    | Link(epoch: Epoch, report: Report)
    | Judge(epoch: Epoch)
    | Store(epoch: Epoch, report: Report)
    | Complete(epoch: Epoch, room: bool, report: Report)
    | Close(epoch: Epoch, report: Report)
    | Fail(epoch: Epoch, report: Report)

  /** Steps of a worker that are one SQL statement or transaction, and those that only decide what comes next. */
  predicate Sql(step: Step) {
    step.Claim? || step.Announce? || step.Link? || step.Store? || step.Complete? || step.Close? || step.Fail?
  }

  predicate Local(step: Step) {
    step.Refuse? || step.CheckRevision? || step.ReadPhase? || step.Call? || step.Settle? || step.Judge?
  }

  // -------------------------------------------------------------- row access

  function SetResponse(s: System, id: ResponseId, r: Response): System { s.(db := s.db[id := r]) }

  function SetPc(s: System, e: Epoch, pc: Pc): System { s.(workers := s.workers[e := pc]) }

  /** The guard `state='running' AND lease_epoch=?`. */
  predicate Holds(s: System, e: Epoch, id: ResponseId) { id in s.db && s.db[id].phase.Running? && s.db[id].lease == e }

  /** A guarded statement: whether its guard holds, what it then writes, and where the worker goes after one changed
      row or after none. */
  datatype Statement = Statement(enabled: bool, effect: System, hit: Pc, miss: Pc)

  /** In a retry loop an error leaves the worker where it is, whether or not the statement took effect. */
  ghost predicate Attempt(s: System, t: System, e: Epoch, st: Statement, report: Report)
    requires e in s.workers
  {
    match report
    case Done => t == if st.enabled then SetPc(st.effect, e, st.hit) else SetPc(s, e, st.miss)
    case AppliedButFailed => t == if st.enabled then st.effect else s
    case LostAndFailed => t == s
  }

  // ------------------------------------------------------------- worker code

  /** The conversation check `runBackground` makes before it calls the provider. */
  function RevisionCheck(s: System, job: Job, readOk: bool): Pc {
    if job.attachment.None? then Checked(job)
    else
      var a := job.attachment.value;
      if readOk && C.Visible(s.conversations, a.id, a.key) && s.conversations[a.id].revision == a.revision then Checked(job)
      else Failing(job)
  }

  /** The steps between the settlement of the provider call and the linking of its request. */
  function Settled(job: Job, r: Recorder): Pc {
    if !r.settled then Failing(job)
    else if job.attachment.None? then Linked(job, r)
    else if r.requestId.None? then Failing(job)
    else Linking(job, r)
  }

  function GiveUp(job: Job, r: Recorder): Pc {
    if r.requestId.Some? && !r.finalRequest then Closing(job, r.requestId.value, true) else Failing(job)
  }

  /** What follows the linking of a settled request. */
  function Judged(job: Job, r: Recorder): Pc {
    if r.status2xx && job.attachment.Some? && r.finalRequest then Failing(job)
    else if r.status2xx && r.rewritten then (if job.attachment.Some? then Completing(job, r) else Storing(job, r))
    else GiveUp(job, r)
  }

  /** The outcome of the transaction in `completeBackgroundConversation`. */
  datatype Completion = Commit(effect: System) | ConversationFailed | StateChanged | RequestConflict

  function CompleteTx(s: System, e: Epoch, job: Job, r: Recorder, room: bool): Completion
    requires job.attachment.Some? && r.requestId.Some?
  {
    match C.Turn(s.conversations, job.attachment.value, r.output, room)
    case Failed(_) => ConversationFailed
    case Committed(table) =>
      if !Holds(s, e, job.id) then StateChanged
      else if r.requestId.value !in s.requests || s.requests[r.requestId.value].Final? then RequestConflict
      else Commit(SetResponse(s, job.id, s.db[job.id].(phase := Completed)).(
                    conversations := table, requests := s.requests[r.requestId.value := Final], turns := s.turns + multiset{job.id}))
  }

  function AfterCompletion(job: Job, r: Recorder, c: Completion): Pc
    requires r.requestId.Some?
  {
    match c
    case Commit(_) => Idle
    case StateChanged => if r.finalRequest then Idle else Closing(job, r.requestId.value, false)
    case RequestConflict => Failing(job)
    case ConversationFailed => GiveUp(job, r)
  }

  // -------------------------------------------------------------------- steps

  /** The place from which a worker issues each statement. */
  predicate Issues(pc: Pc, step: Step)
    requires Sql(step)
  {
    match step
    case Claim(_, _, _) => pc.Idle?
    case Announce(_, _) => pc.Claimed?
    case Link(_, _) => pc.Linking? && pc.job.attachment.Some? && pc.recorder.requestId.Some?
    case Store(_, _) => pc.Storing?
    case Complete(_, _, _) => pc.Completing? && pc.job.attachment.Some? && pc.recorder.requestId.Some?
    case Close(_, _) => pc.Closing?
    case Fail(_, _) => pc.Failing?
  }

  function StatementOf(s: System, step: Step): Statement
    requires Sql(step) && step.epoch in s.workers && Issues(s.workers[step.epoch], step)
  {
    var e := step.epoch;
    var pc := s.workers[e];
    match step
    case Claim(_, id, _) =>
      if id in s.db && s.db[id].phase.Queued? && s.now < s.db[id].expiresAt
      then Statement(true, SetResponse(s, id, s.db[id].(phase := Running, lease := e)), Claimed(Job(id, s.db[id].attachment)), Idle)
      else Statement(false, s, Idle, Idle)
    case Announce(_, _) =>
      if Holds(s, e, pc.job.id)
      then Statement(true, SetResponse(s, pc.job.id, s.db[pc.job.id].(announced := true)), Ready(pc.job), Idle)
      else Statement(false, s, Ready(pc.job), Idle)
    case Link(_, _) =>
      var job, r := pc.job, pc.recorder;
      if Holds(s, e, job.id) && (s.db[job.id].requestId.None? || s.db[job.id].requestId == r.requestId)
      then Statement(true, SetResponse(s, job.id, s.db[job.id].(requestId := r.requestId)), Linked(job, r), Failing(job))
      else Statement(false, s, Linked(job, r), Failing(job))
    case Store(_, _) =>
      if Holds(s, e, pc.job.id)
      then Statement(true, SetResponse(s, pc.job.id, s.db[pc.job.id].(phase := pc.recorder.storedPhase)), Idle, Idle)
      else Statement(false, s, Idle, Idle)
    case Complete(_, room, _) =>
      var c := CompleteTx(s, e, pc.job, pc.recorder, room);
      Statement(c.Commit?, if c.Commit? then c.effect else s, Idle, AfterCompletion(pc.job, pc.recorder, c))
    case Close(_, _) =>
      var next := if pc.fail then Failing(pc.job) else Idle;
      Statement(true, s.(requests := s.requests[pc.request := Final]), next, next)
    case Fail(_, _) =>
      if pc.job.id in s.db && s.db[pc.job.id].phase.Active()
      then Statement(true, SetResponse(s, pc.job.id, s.db[pc.job.id].(phase := Failed)), Idle, Idle)
      else Statement(false, s, Idle, Idle)
  }

  ghost predicate SqlStep(s: System, step: Step, t: System)
    requires Sql(step)
  {
    step.epoch in s.workers && Issues(s.workers[step.epoch], step)
    && Attempt(s, t, step.epoch, StatementOf(s, step), step.report)
  }

  ghost predicate LocalStep(s: System, step: Step, t: System)
    requires Local(step)
  {
    step.epoch in s.workers &&
    var e := step.epoch;
    var pc := s.workers[e];
    match step
    case Refuse(_) => pc.Ready? && t == SetPc(s, e, Failing(pc.job))
    case CheckRevision(_, readOk) => pc.Ready? && t == SetPc(s, e, RevisionCheck(s, pc.job, readOk))
    case ReadPhase(_, readOk) =>
      pc.Checked?
      && t == SetPc(s, e, if readOk && pc.job.id in s.db && s.db[pc.job.id].phase.Running? then Cleared(pc.job) else Idle)
    case Call(_, r) =>
      pc.Cleared? && (r.storedPhase.Completed? || (pc.job.attachment.None? && (r.storedPhase.Failed? || r.storedPhase.Cancelled?)))
      && (r.requestId.Some? ==> r.requestId.value !in s.requests)
      && t == SetPc(s, e, Returned(pc.job, r)).(
                calls := s.calls + multiset{pc.job.id},
                requests := if r.requestId.Some? then s.requests[r.requestId.value := if r.finalRequest then Final else InProgress]
                            else s.requests)
    case Settle(_) => pc.Returned? && t == SetPc(s, e, Settled(pc.job, pc.recorder))
    case Judge(_) => pc.Linked? && t == SetPc(s, e, Judged(pc.job, pc.recorder))
  }

  /** A handler transaction on the conversation tables. */
  ghost predicate Tx(s: System, t: System, r: C.Result) {
    t == match r case Committed(table) => s.(conversations := table) case Failed(_) => s
  }

  ghost predicate TableStep(s: System, step: Step, t: System)
    requires !Sql(step) && !Local(step)
  {
    match step
    case Tick(elapsed) => t == s.(now := s.now + elapsed)
    case CreateConversation(id, owner, key, bodies, room) =>
      id !in s.usedConversations && Tx(s.(usedConversations := s.usedConversations + {id}), t, C.Create(s.conversations, id, owner, key, bodies, room))
    case CreateItems(id, key, bodies, room) => Tx(s, t, C.AddItems(s.conversations, id, key, bodies, room))
    case DeleteItem(id, key, ordinal) => Tx(s, t, C.DeleteItem(s.conversations, id, key, ordinal))
    case DeleteConversation(id, key) => Tx(s, t, C.Delete(s.conversations, id, key))
    case Purge(ids) =>
      (forall id :: id in ids && id in s.conversations ==> s.conversations[id].deleted)
      && t == s.(conversations := s.conversations - ids)
    case Prepare(handle, id, key, newItems) =>
      handle !in s.attachments && C.Snapshot(s.conversations, id, key, newItems).Some?
      && t == s.(attachments := s.attachments[handle := C.Snapshot(s.conversations, id, key, newItems).value])
    case ForegroundTurn(handle, output, room, report) =>
      handle in s.attachments &&
      (match C.Turn(s.conversations, s.attachments[handle], output, room)
       case Failed(_) => t == s
       case Committed(table) =>
         t == if report.LostAndFailed? then s else s.(conversations := table, foreground := s.foreground + multiset{handle}))
    case Enqueue(id, r) =>
      id !in s.used && r.phase.Queued? && r.lease == 0 && r.requestId.None? && !r.announced
      && (r.attachment.Some? ==> r.attachment.value in s.attachments.Values)
      && t == SetResponse(s, id, r).(used := s.used + {id})
    case Cancel(id) => id in s.db && s.db[id].phase.Active() && t == SetResponse(s, id, s.db[id].(phase := Cancelled))
    case Delete(id) => t == s.(db := s.db - {id})
    case Recover(id) => id in s.db && s.db[id].phase.Running? && t == SetResponse(s, id, s.db[id].(phase := Interrupted))
    case Boot(e) => e != 0 && e !in s.epochs && t == SetPc(s, e, Idle).(epochs := s.epochs + {e})
    case Crash(e) => t == s.(workers := s.workers - {e})
  }

  ghost predicate Next(s: System, step: Step, t: System) {
    if Sql(step) then SqlStep(s, step, t) else if Local(step) then LocalStep(s, step, t) else TableStep(s, step, t)
  }

  ghost predicate Init(s: System) {
    s.db == map[] && s.used == {} && s.conversations == map[] && s.usedConversations == {} && s.attachments == map[]
    && s.requests == map[] && s.workers == map[] && s.epochs == {}
    && s.calls == multiset{} && s.turns == multiset{} && s.foreground == multiset{}
  }

  ghost predicate Run(states: seq<System>, steps: seq<Step>) {
    |states| == |steps| + 1 && Init(states[0])
    && forall i :: 0 <= i < |steps| ==> Next(states[i], steps[i], states[i + 1])
  }
}
