/** What becomes of a background Response: where each decision of its worker leads, what each statement that takes effect
    leaves, and the phase in which a worker that nobody interrupts ends it. */
module ResponseOutcomes {
  import opened Common
  import C = Conversations
  import opened ResponseMachine
  import opened ResponseSafety
  import opened ResponseRuns

  // ---------------------------------------------------------------- decisions

  /** The conversation of a job, if it has one, is still at the remembered revision. */
  predicate Current(s: System, job: Job) {
    job.attachment.Some? ==>
      var a := job.attachment.value;
      a.id in s.conversations && s.conversations[a.id].key == a.key && !s.conversations[a.id].deleted
      && s.conversations[a.id].revision == a.revision
  }

  /** The step only moves its worker, to this place. */
  ghost predicate Moves(s: System, step: Step, t: System, next: Pc)
    requires Local(step)
  {
    t == s.(workers := s.workers[step.epoch := next])
  }

  /** Once the request is linked, the answer is stored, or completed together with the conversation, if and only if it was
      2xx and could be rewritten and, for a Response with a conversation, its request is still open. Otherwise the Response
      fails, after closing a request that is still open. */
  lemma JudgedAnswer(s: System, step: Step, t: System)
    requires step.Judge? && Next(s, step, t)
    ensures step.epoch in s.workers && s.workers[step.epoch].Linked? &&
            var (job, r) := (s.workers[step.epoch].job, s.workers[step.epoch].recorder);
            var good := r.status2xx && r.rewritten;
            var open := !r.finalRequest;
            step.epoch in t.workers && Moves(s, step, t, t.workers[step.epoch]) &&
            var next := t.workers[step.epoch];
            && (next == Storing(job, r) <==> good && job.attachment.None?)
            && (next == Completing(job, r) <==> good && job.attachment.Some? && open)
            && (!(good && (job.attachment.None? || open)) ==>
                  next == if r.requestId.Some? && open then Closing(job, r.requestId.value, true) else Failing(job))
  {
  }

  /** After the call a settled result goes on, through linking its request if it has a conversation; an unsettled one, or
      one without a request to link, fails. */
  lemma SettledResult(s: System, step: Step, t: System)
    requires step.Settle? && Next(s, step, t)
    ensures step.epoch in s.workers && s.workers[step.epoch].Returned? &&
            var (job, r) := (s.workers[step.epoch].job, s.workers[step.epoch].recorder);
            step.epoch in t.workers && Moves(s, step, t, t.workers[step.epoch]) &&
            var next := t.workers[step.epoch];
            && (next == Linked(job, r) <==> r.settled && job.attachment.None?)
            && (next == Linking(job, r) <==> r.settled && job.attachment.Some? && r.requestId.Some?)
            && (next == Failing(job) <==> !r.settled || (job.attachment.Some? && r.requestId.None?))
  {
  }

  /** The provider is called only for a job whose conversation was read at the remembered revision and whose row was then
      read as running. */
  lemma CheckedJob(s: System, step: Step, t: System)
    requires (step.CheckRevision? || step.ReadPhase?) && Next(s, step, t)
    ensures step.epoch in s.workers && !s.workers[step.epoch].Idle? &&
            var job := s.workers[step.epoch].job;
            step.epoch in t.workers && Moves(s, step, t, t.workers[step.epoch]) &&
            var next := t.workers[step.epoch];
            && (step.CheckRevision? ==>
                  next == if job.attachment.None? || (step.readOk && Current(s, job)) then Checked(job) else Failing(job))
            && (step.ReadPhase? ==>
                  next == if step.readOk && job.id in s.db && s.db[job.id].phase.Running? then Cleared(job) else Idle)
  {
  }

  // --------------------------------------------------------------- statements

  /** A completion commits if and only if the lease holds the running row, the conversation is at the remembered revision
      and has room for the turn, and the gateway request is still open. */
  ghost predicate MayComplete(s: System, e: Epoch, job: Job, r: Recorder, room: bool) {
    && job.attachment.Some? && r.requestId.Some? && Current(s, job) && room
    && C.Fits(s.conversations[job.attachment.value.id], job.attachment.value.newItems + r.output)
    && job.id in s.db && s.db[job.id].phase.Running? && s.db[job.id].lease == e
    && r.requestId.value in s.requests && s.requests[r.requestId.value].InProgress?
  }

  lemma CompletionIff(s: System, e: Epoch, job: Job, r: Recorder, room: bool)
    requires C.TableOk(s.conversations) && job.attachment.Some? && r.requestId.Some?
    ensures CompleteTx(s, e, job, r, room).Commit? <==> MayComplete(s, e, job, r, room)
    ensures CompleteTx(s, e, job, r, room).Commit? ==>
              CompleteTx(s, e, job, r, room).effect.requests == s.requests[r.requestId.value := Final]
  {
    hide C.Turn, C.Fits, C.Extends, C.TableOk;
    C.TurnAppends(s.conversations, job.attachment.value, r.output, room);
  }

  /** A statement that takes effect leaves the row in the phase that the worker decided on: a claim the running row with
      its lease, a store the phase of the provider's answer, a completion `completed`, a failure `failed`. Each does so if
      and only if its guard holds, and otherwise leaves all rows alone. */
  lemma StatementLeavesPhase(s: System, step: Step, t: System)
    requires Inv(s) && Sql(step) && Next(s, step, t) && !step.report.LostAndFailed?
    ensures step.epoch in s.workers &&
            var e, pc := step.epoch, s.workers[step.epoch];
            match step
            case Claim(_, id, _) =>
              t.db == if id in s.db && s.db[id].phase.Queued? && s.now < s.db[id].expiresAt
                      then s.db[id := s.db[id].(phase := Running, lease := e)] else s.db
            case Store(_, _) =>
              pc.Storing?
              && t.db == if Holds(s, e, pc.job.id)
                         then s.db[pc.job.id := s.db[pc.job.id].(phase := pc.recorder.storedPhase)] else s.db
            case Complete(_, room, _) =>
              pc.Completing?
              && t.db == if MayComplete(s, e, pc.job, pc.recorder, room)
                         then s.db[pc.job.id := s.db[pc.job.id].(phase := Completed)] else s.db
            case Fail(_, _) =>
              pc.Failing?
              && t.db == if pc.job.id in s.db && s.db[pc.job.id].phase.Active()
                         then s.db[pc.job.id := s.db[pc.job.id].(phase := Failed)] else s.db
            case Close(_, _) => pc.Closing? && t.db == s.db && t.requests == s.requests[pc.request := Final]
            case Announce(_, _) =>
              pc.Claimed? && t.db == if Holds(s, e, pc.job.id) then s.db[pc.job.id := s.db[pc.job.id].(announced := true)] else s.db
            case Link(_, _) =>
              pc.Linking?
              && t.db == if Holds(s, e, pc.job.id) && s.db[pc.job.id].requestId in {None, pc.recorder.requestId}
                         then s.db[pc.job.id := s.db[pc.job.id].(requestId := pc.recorder.requestId)] else s.db
  {
    hide CompleteTx, MayComplete, Turns, Calls, Rows, C.TableOk, C.InOrder, Faithful, Spent;
    var e, pc := step.epoch, s.workers[step.epoch];
    if step.Complete? {
      CompletionIff(s, e, pc.job, pc.recorder, step.room);
      if CompleteTx(s, e, pc.job, pc.recorder, step.room).Commit? { CompletionEffect(s, e, pc.job, pc.recorder, step.room); }
    }
  }

  /** A completion that does not commit changes nothing, and says why: a conversation that moved on or is full fails the
      Response, closing its gateway request first; a row that is no longer held is left to itself, but the gateway request
      is closed; a gateway request that was closed meanwhile fails the Response. */
  lemma RefusedCompletion(s: System, step: Step, t: System)
    requires Inv(s) && step.Complete? && Next(s, step, t) && step.report.Done?
    requires step.epoch in s.workers && !MayComplete(s, step.epoch, s.workers[step.epoch].job, s.workers[step.epoch].recorder, step.room)
    ensures var e := step.epoch;
            s.workers[e].Completing? && s.workers[e].job.attachment.Some? && s.workers[e].recorder.requestId.Some? &&
            var (job, r) := (s.workers[e].job, s.workers[e].recorder);
            var a := job.attachment.value;
            var fits := Current(s, job) && step.room && C.Fits(s.conversations[a.id], a.newItems + r.output);
            var next := if !fits then (if r.finalRequest then Failing(job) else Closing(job, r.requestId.value, true))
                        else if !Holds(s, e, job.id) then (if r.finalRequest then Idle else Closing(job, r.requestId.value, false))
                        else Failing(job);
            t == SetPc(s, e, next)
  {
    hide C.Turn, C.Fits, C.Extends, C.TableOk, C.InOrder, Turns, Calls, Rows, Faithful, Spent;
    var pc := s.workers[step.epoch];
    CompletionIff(s, step.epoch, pc.job, pc.recorder, step.room);
    C.TurnAppends(s.conversations, pc.job.attachment.value, pc.recorder.output, step.room);
  }

  // ------------------------------------------------------ an uninterrupted worker

  predicate Own(step: Step, e: Epoch) { (Sql(step) || Local(step)) && step.epoch == e }

  /** Only process `e` takes these steps. */
  ghost predicate Path(e: Epoch, states: seq<System>, steps: seq<Step>) {
    |states| == |steps| + 1
    && forall i :: 0 <= i < |steps| ==>
         Own(steps[i], e) && Next(states[i], steps[i], states[i + 1])
  }

  ghost predicate Reaches(e: Epoch, s: System, t: System) {
    exists states: seq<System>, steps: seq<Step> :: Path(e, states, steps) && states[0] == s && states[|steps|] == t
  }

  lemma StepReaches(e: Epoch, s: System, step: Step, t: System)
    requires (Sql(step) || Local(step)) && step.epoch == e && Next(s, step, t)
    ensures Reaches(e, s, t)
  {
    hide Next;
    var states, steps := [s, t], [step];
    assert Path(e, states, steps) && states[0] == s && states[|steps|] == t;
  }

  lemma PathsJoin(e: Epoch, states: seq<System>, steps: seq<Step>, states': seq<System>, steps': seq<Step>)
    requires Path(e, states, steps) && Path(e, states', steps') && states'[0] == states[|steps|]
    ensures Path(e, states + states'[1..], steps + steps')
  {
    hide Next, Own;
    var all, both := states + states'[1..], steps + steps';
    forall i | 0 <= i < |both|
      ensures Own(both[i], e) && Next(all[i], both[i], all[i + 1])
    {
      if i >= |steps| { assert all[i] == states'[i - |steps|] && all[i + 1] == states'[i - |steps| + 1]; }
    }
  }

  lemma ReachesOn(e: Epoch, s: System, t: System, u: System)
    requires Reaches(e, s, t) && Reaches(e, t, u)
    ensures Reaches(e, s, u)
  {
    hide Next, Own;
    var states: seq<System>, steps: seq<Step> :| Path(e, states, steps) && states[0] == s && states[|steps|] == t;
    var states': seq<System>, steps': seq<Step> :| Path(e, states', steps') && states'[0] == t && states'[|steps'|] == u;
    PathsJoin(e, states, steps, states', steps');
    var all, both := states + states'[1..], steps + steps';
    assert Path(e, all, both) && all[0] == s && all[|both|] == u;
  }

  /** The state with this row and this worker. */
  function With(s: System, id: ResponseId, row: Response, e: Epoch, pc: Pc): System {
    s.(db := s.db[id := row], workers := s.workers[e := pc])
  }

  lemma WithAgain(s: System, id: ResponseId, row: Response, e: Epoch, pc: Pc, row': Response, pc': Pc)
    ensures With(With(s, id, row, e, pc), id, row', e, pc') == With(s, id, row', e, pc')
  {
    assert s.db[id := row][id := row'] == s.db[id := row'];
    assert s.workers[e := pc][e := pc'] == s.workers[e := pc'];
  }

  predicate Runs(row: Response, e: Epoch) { row.phase.Running? && row.lease == e }

  /** From `claimed` on the worker announces the Response. */
  lemma BeginReaches(s: System, id: ResponseId, e: Epoch)
    requires e in s.workers && s.workers[e].Idle? && id in s.db && s.db[id].phase.Queued? && s.now < s.db[id].expiresAt
    ensures var row := s.db[id].(phase := Running, lease := e, announced := true);
            Reaches(e, s, With(s, id, row, e, Ready(Job(id, row.attachment))))
  {
    var row := s.db[id].(phase := Running, lease := e);
    var job := Job(id, row.attachment);
    var claimed := With(s, id, row, e, Claimed(job));
    var ready := With(s, id, row.(announced := true), e, Ready(job));
    StepReaches(e, s, Claim(e, id, Done), claimed);
    WithAgain(s, id, row, e, Claimed(job), row.(announced := true), Ready(job));
    StepReaches(e, claimed, Announce(e, Done), ready);
    ReachesOn(e, s, claimed, ready);
  }

  lemma FailReaches(s: System, id: ResponseId, row: Response, e: Epoch, job: Job)
    requires Runs(row, e) && job.id == id
    ensures Reaches(e, With(s, id, row, e, Failing(job)), With(s, id, row.(phase := Failed), e, Idle))
  {
    WithAgain(s, id, row, e, Failing(job), row.(phase := Failed), Idle);
    StepReaches(e, With(s, id, row, e, Failing(job)), Fail(e, Done), With(s, id, row.(phase := Failed), e, Idle));
  }

  lemma CloseReaches(s: System, id: ResponseId, row: Response, e: Epoch, job: Job, request: RequestId)
    requires Runs(row, e) && job.id == id
    ensures var closed := s.(requests := s.requests[request := Final]);
            Reaches(e, With(s, id, row, e, Closing(job, request, true)), With(closed, id, row.(phase := Failed), e, Idle))
  {
    hide With;
    var closed := s.(requests := s.requests[request := Final]);
    CloseStep(s, id, row, e, job, request);
    StepReaches(e, With(s, id, row, e, Closing(job, request, true)), Close(e, Done), With(closed, id, row, e, Failing(job)));
    FailReaches(closed, id, row, e, job);
    ReachesOn(e, With(s, id, row, e, Closing(job, request, true)), With(closed, id, row, e, Failing(job)),
              With(closed, id, row.(phase := Failed), e, Idle));
  }

  lemma CloseStep(s: System, id: ResponseId, row: Response, e: Epoch, job: Job, request: RequestId)
    ensures var closed := s.(requests := s.requests[request := Final]);
            Next(With(s, id, row, e, Closing(job, request, true)), Close(e, Done), With(closed, id, row, e, Failing(job)))
  {
    assert s.workers[e := Closing(job, request, true)][e := Failing(job)] == s.workers[e := Failing(job)];
  }

  /** A local decision moves the worker and nothing else. */
  lemma MoveReaches(s: System, id: ResponseId, row: Response, e: Epoch, pc: Pc, step: Step, pc': Pc)
    requires Local(step) && !step.Call? && step.epoch == e
    requires LocalStep(With(s, id, row, e, pc), step, With(s, id, row, e, pc).(workers := s.workers[e := pc][e := pc']))
    ensures Reaches(e, With(s, id, row, e, pc), With(s, id, row, e, pc'))
  {
    assert s.workers[e := pc][e := pc'] == s.workers[e := pc'];
    StepReaches(e, With(s, id, row, e, pc), step, With(s, id, row, e, pc'));
  }

  /** What the call may report. */
  predicate MayReport(s: System, job: Job, r: Recorder) {
    && (r.storedPhase.Completed? || (job.attachment.None? && (r.storedPhase.Failed? || r.storedPhase.Cancelled?)))
    && (r.requestId.Some? ==> r.requestId.value !in s.requests)
  }

  /** The state after the call, apart from the worker. */
  function Called(s: System, id: ResponseId, r: Recorder): System {
    s.(calls := s.calls + multiset{id},
       requests := if r.requestId.Some? then s.requests[r.requestId.value := if r.finalRequest then Final else InProgress] else s.requests)
  }

  lemma CallReaches(s: System, id: ResponseId, row: Response, e: Epoch, job: Job, r: Recorder)
    requires Runs(row, e) && job.id == id && MayReport(s, job, r) && Current(s, job)
    ensures Reaches(e, With(s, id, row, e, Ready(job)), With(Called(s, id, r), id, row, e, Returned(job, r)))
  {
    var ready, checked, cleared := With(s, id, row, e, Ready(job)), With(s, id, row, e, Checked(job)), With(s, id, row, e, Cleared(job));
    var returned := With(Called(s, id, r), id, row, e, Returned(job, r));
    MoveReaches(s, id, row, e, Ready(job), CheckRevision(e, true), Checked(job));
    MoveReaches(s, id, row, e, Checked(job), ReadPhase(e, true), Cleared(job));
    assert s.workers[e := Cleared(job)][e := Returned(job, r)] == s.workers[e := Returned(job, r)];
    StepReaches(e, cleared, Call(e, r), returned);
    ReachesOn(e, ready, checked, cleared);
    ReachesOn(e, ready, cleared, returned);
  }

  /** The row for the answer of an unattached Response. */
  lemma StoreReaches(s: System, id: ResponseId, row: Response, e: Epoch, job: Job, r: Recorder)
    requires Runs(row, e) && job.id == id && job.attachment.None? && r.settled && r.status2xx && r.rewritten
    ensures Reaches(e, With(s, id, row, e, Returned(job, r)), With(s, id, row.(phase := r.storedPhase), e, Idle))
  {
    var returned, linked := With(s, id, row, e, Returned(job, r)), With(s, id, row, e, Linked(job, r));
    var storing := With(s, id, row, e, Storing(job, r));
    var stored := With(s, id, row.(phase := r.storedPhase), e, Idle);
    MoveReaches(s, id, row, e, Returned(job, r), Settle(e), Linked(job, r));
    MoveReaches(s, id, row, e, Linked(job, r), Judge(e), Storing(job, r));
    WithAgain(s, id, row, e, Storing(job, r), row.(phase := r.storedPhase), Idle);
    StepReaches(e, storing, Store(e, Done), stored);
    ReachesOn(e, returned, linked, storing);
    ReachesOn(e, returned, storing, stored);
  }

  lemma LinkReaches(s: System, id: ResponseId, row: Response, e: Epoch, job: Job, r: Recorder)
    requires Runs(row, e) && job.id == id && r.settled && row.requestId.None? && (job.attachment.Some? ==> r.requestId.Some?)
    ensures var linkedRow := if job.attachment.Some? then row.(requestId := r.requestId) else row;
            Reaches(e, With(s, id, row, e, Returned(job, r)), With(s, id, linkedRow, e, Linked(job, r)))
  {
    if job.attachment.None? {
      MoveReaches(s, id, row, e, Returned(job, r), Settle(e), Linked(job, r));
    } else {
      var linkedRow := row.(requestId := r.requestId);
      MoveReaches(s, id, row, e, Returned(job, r), Settle(e), Linking(job, r));
      WithAgain(s, id, row, e, Linking(job, r), linkedRow, Linked(job, r));
      StepReaches(e, With(s, id, row, e, Linking(job, r)), Link(e, Done), With(s, id, linkedRow, e, Linked(job, r)));
      ReachesOn(e, With(s, id, row, e, Returned(job, r)), With(s, id, row, e, Linking(job, r)), With(s, id, linkedRow, e, Linked(job, r)));
    }
  }

  /** The row of the Response ends in this phase, and the worker is free again. */
  ghost predicate EndsIn(e: Epoch, s: System, id: ResponseId, phase: Phase) {
    exists t :: Reaches(e, s, t) && id in t.db && t.db[id].phase == phase && e in t.workers && t.workers[e].Idle?
  }

  lemma EndsFrom(e: Epoch, s: System, t: System, id: ResponseId, phase: Phase)
    requires Reaches(e, s, t) && EndsIn(e, t, id, phase)
    ensures EndsIn(e, s, id, phase)
  {
    hide Reaches;
    var u :| Reaches(e, t, u) && id in u.db && u.db[id].phase == phase && e in u.workers && u.workers[e].Idle?;
    ReachesOn(e, s, t, u);
  }

  lemma EndsAt(e: Epoch, s: System, t: System, id: ResponseId, phase: Phase)
    requires Reaches(e, s, t) && id in t.db && t.db[id].phase == phase && e in t.workers && t.workers[e].Idle?
    ensures EndsIn(e, s, id, phase)
  {
    hide Reaches;
  }

  lemma EndsNow(e: Epoch, s: System, t: System, id: ResponseId, row: Response, phase: Phase)
    requires Reaches(e, s, With(t, id, row, e, Idle)) && row.phase == phase
    ensures EndsIn(e, s, id, phase)
  {
    hide Reaches;
  }

  lemma FailingEnds(s: System, id: ResponseId, row: Response, e: Epoch, job: Job, pc: Pc, step: Step)
    requires Runs(row, e) && job.id == id && Local(step) && !step.Call? && step.epoch == e
    requires LocalStep(With(s, id, row, e, pc), step, With(s, id, row, e, pc).(workers := s.workers[e := pc][e := Failing(job)]))
    ensures EndsIn(e, With(s, id, row, e, pc), id, Failed)
  {
    hide EndsIn, Reaches, With, LocalStep;
    MoveReaches(s, id, row, e, pc, step, Failing(job));
    FailReaches(s, id, row, e, job);
    EndsNow(e, With(s, id, row, e, Failing(job)), s, id, row.(phase := Failed), Failed);
    EndsFrom(e, With(s, id, row, e, pc), With(s, id, row, e, Failing(job)), id, Failed);
  }

  /** A worker that gives up on a linked answer ends in `failed`, whether or not it has a request to close. */
  lemma GivingUpEnds(s: System, id: ResponseId, row: Response, e: Epoch, job: Job, r: Recorder, pc: Pc)
    requires Runs(row, e) && job.id == id
    requires pc == if r.requestId.Some? && !r.finalRequest then Closing(job, r.requestId.value, true) else Failing(job)
    ensures EndsIn(e, With(s, id, row, e, pc), id, Failed)
  {
    hide EndsIn, Reaches, With;
    if pc.Closing? {
      CloseReaches(s, id, row, e, job, pc.request);
      EndsNow(e, With(s, id, row, e, pc), s.(requests := s.requests[pc.request := Final]), id, row.(phase := Failed), Failed);
    } else {
      FailReaches(s, id, row, e, job);
      EndsNow(e, With(s, id, row, e, pc), s, id, row.(phase := Failed), Failed);
    }
  }

  lemma BadAnswerEnds(s: System, id: ResponseId, row: Response, e: Epoch, job: Job, r: Recorder)
    requires Runs(row, e) && job.id == id
    requires !(r.status2xx && r.rewritten) || (job.attachment.Some? && r.finalRequest)
    ensures EndsIn(e, With(s, id, row, e, Linked(job, r)), id, Failed)
  {
    hide EndsIn, Reaches, With, LocalStep;
    var next := if r.requestId.Some? && !r.finalRequest then Closing(job, r.requestId.value, true) else Failing(job);
    JudgeMoves(s, id, row, e, job, r, next);
    MoveReaches(s, id, row, e, Linked(job, r), Judge(e), next);
    GivingUpEnds(s, id, row, e, job, r, next);
    EndsFrom(e, With(s, id, row, e, Linked(job, r)), With(s, id, row, e, next), id, Failed);
  }

  lemma JudgeMoves(s: System, id: ResponseId, row: Response, e: Epoch, job: Job, r: Recorder, next: Pc)
    requires next == Judged(job, r)
    ensures LocalStep(With(s, id, row, e, Linked(job, r)), Judge(e),
                      With(s, id, row, e, Linked(job, r)).(workers := s.workers[e := Linked(job, r)][e := next]))
  {
  }

  /** The completion of an attached Response, which commits or gives up. */
  lemma CompletingEnds(s: System, id: ResponseId, row: Response, e: Epoch, job: Job, r: Recorder, room: bool)
    requires C.TableOk(s.conversations) && Runs(row, e) && job.id == id && job.attachment.Some? && r.requestId.Some? && !r.finalRequest
    requires Current(s, job) && r.requestId.value in s.requests && s.requests[r.requestId.value].InProgress?
    ensures var fits := room && C.Fits(s.conversations[job.attachment.value.id], job.attachment.value.newItems + r.output);
            EndsIn(e, With(s, id, row, e, Completing(job, r)), id, if fits then Completed else Failed)
  {
    hide EndsIn, Reaches, CompleteTx, C.Fits, C.TableOk;
    var at := With(s, id, row, e, Completing(job, r));
    CompletionIff(at, e, job, r, room);
    if MayComplete(at, e, job, r, room) {
      CompletionEffect(at, e, job, r, room);
      var done := SetPc(CompleteTx(at, e, job, r, room).effect, e, Idle);
      StepReaches(e, at, Complete(e, room, Done), done);
      EndsAt(e, at, done, id, Completed);
    } else {
      var next := Closing(job, r.requestId.value, true);
      ConversationRefuses(at, e, job, r, room);
      assert s.workers[e := Completing(job, r)][e := next] == s.workers[e := next];
      StepReaches(e, at, Complete(e, room, Done), With(s, id, row, e, next));
      GivingUpEnds(s, id, row, e, job, r, next);
      EndsFrom(e, at, With(s, id, row, e, next), id, Failed);
    }
  }

  lemma ConversationRefuses(s: System, e: Epoch, job: Job, r: Recorder, room: bool)
    requires C.TableOk(s.conversations) && job.attachment.Some? && r.requestId.Some?
    requires Holds(s, e, job.id) && r.requestId.value in s.requests && s.requests[r.requestId.value].InProgress?
    requires !MayComplete(s, e, job, r, room)
    ensures CompleteTx(s, e, job, r, room) == ConversationFailed
  {
    hide C.Turn, C.Fits, C.Extends, C.TableOk;
    C.TurnAppends(s.conversations, job.attachment.value, r.output, room);
  }

  /** The provider's answer can become the result of the Response. */
  ghost predicate Usable(s: System, attachment: Option<C.Attachment>, r: Recorder, room: bool) {
    && r.settled && r.status2xx && r.rewritten
    && (attachment.Some? ==>
          var a := attachment.value;
          && Current(s, Job(0, attachment)) && r.requestId.Some? && !r.finalRequest
          && room && C.Fits(s.conversations[a.id], a.newItems + r.output))
  }

  lemma ReturnedEnds(s: System, id: ResponseId, row: Response, e: Epoch, job: Job, r: Recorder, room: bool)
    requires C.TableOk(s.conversations) && Runs(row, e) && job.id == id && Current(s, job) && row.requestId.None?
    requires job.attachment.Some? && r.requestId.Some? ==>
               r.requestId.value in s.requests && s.requests[r.requestId.value].InProgress? == !r.finalRequest
    requires job.attachment.Some? ==> r.storedPhase.Completed?
    ensures EndsIn(e, With(s, id, row, e, Returned(job, r)), id, if Usable(s, job.attachment, r, room) then r.storedPhase else Failed)
  {
    hide EndsIn, Reaches, C.Fits, C.TableOk, Current;
    CurrentReadsAttachment(s, job);
    var returned := With(s, id, row, e, Returned(job, r));
    if !r.settled || (job.attachment.Some? && r.requestId.None?) {
      FailingEnds(s, id, row, e, job, Returned(job, r), Settle(e));
    } else {
      var linkedRow := if job.attachment.Some? then row.(requestId := r.requestId) else row;
      var linked := With(s, id, linkedRow, e, Linked(job, r));
      LinkReaches(s, id, row, e, job, r);
      if !(r.status2xx && r.rewritten) || (job.attachment.Some? && r.finalRequest) {
        BadAnswerEnds(s, id, linkedRow, e, job, r);
        EndsFrom(e, returned, linked, id, Failed);
      } else if job.attachment.None? {
        StoreReaches(s, id, row, e, job, r);
        EndsNow(e, returned, s, id, row.(phase := r.storedPhase), r.storedPhase);
      } else {
        JudgeMoves(s, id, linkedRow, e, job, r, Completing(job, r));
        MoveReaches(s, id, linkedRow, e, Linked(job, r), Judge(e), Completing(job, r));
        CompletingEnds(s, id, linkedRow, e, job, r, room);
        var phase := if Usable(s, job.attachment, r, room) then Completed else Failed;
        EndsFrom(e, linked, With(s, id, linkedRow, e, Completing(job, r)), id, phase);
        EndsFrom(e, returned, linked, id, phase);
      }
    }
  }

  lemma CurrentReadsAttachment(s: System, job: Job)
    ensures Current(s, Job(0, job.attachment)) == Current(s, job)
  {
  }

  /** A free process that claims a queued Response, and that nobody interrupts, ends it in the phase that the provider's
      answer stands for if the answer is usable, and in `failed` if it is not, whatever the provider's answer is and
      whatever else the tables hold. */
  lemma UninterruptedWorkerEnds(s: System, e: Epoch, id: ResponseId, r: Recorder, room: bool)
    requires Inv(s) && e in s.workers && s.workers[e].Idle?
    requires id in s.db && s.db[id].phase.Queued? && s.now < s.db[id].expiresAt && s.db[id].requestId.None?
    requires MayReport(s, Job(id, s.db[id].attachment), r)
    ensures EndsIn(e, s, id, if Usable(s, s.db[id].attachment, r, room) then r.storedPhase else Failed)
  {
    hide EndsIn, Reaches, With, C.Fits, C.TableOk, Current, Turns, Calls, Rows, Called, Faithful, Spent;
    var row := s.db[id].(phase := Running, lease := e, announced := true);
    var job := Job(id, row.attachment);
    BeginReaches(s, id, e);
    var ready := With(s, id, row, e, Ready(job));
    CurrentReadsAttachment(s, job);
    if Current(s, job) {
      var called := Called(s, id, r);
      CallReaches(s, id, row, e, job, r);
      CalledKeeps(s, id, r, job, room);
      ReturnedEnds(called, id, row, e, job, r, room);
      var phase := if Usable(s, job.attachment, r, room) then r.storedPhase else Failed;
      EndsFrom(e, ready, With(called, id, row, e, Returned(job, r)), id, phase);
      EndsFrom(e, s, ready, id, phase);
    } else {
      ChangedEnds(s, id, row, e, job);
      EndsFrom(e, s, ready, id, Failed);
    }
  }

  lemma ChangedEnds(s: System, id: ResponseId, row: Response, e: Epoch, job: Job)
    requires Runs(row, e) && job.id == id && !Current(s, job)
    ensures EndsIn(e, With(s, id, row, e, Ready(job)), id, Failed) && job.attachment.Some?
  {
    hide EndsIn, Reaches;
    FailingEnds(s, id, row, e, job, Ready(job), CheckRevision(e, true));
  }

  lemma CalledKeeps(s: System, id: ResponseId, r: Recorder, job: Job, room: bool)
    ensures var called := Called(s, id, r);
            && called.conversations == s.conversations && (Current(called, job) <==> Current(s, job))
            && (Usable(called, job.attachment, r, room) <==> Usable(s, job.attachment, r, room))
            && (r.requestId.Some? ==>
                  r.requestId.value in called.requests && called.requests[r.requestId.value].InProgress? == !r.finalRequest)
  {
    hide C.Fits;
  }

  // --------------------------------------------------------------------- runs

  /** A run in which Response `id` ends in the phase. */
  ghost predicate EndsRun(states: seq<System>, steps: seq<Step>, id: ResponseId, phase: Phase) {
    Run(states, steps) && id in states[|steps|].db && states[|steps|].db[id].phase == phase
  }

  /** The phase that the provider's answer stands for. */
  ghost function AnswerPhase(s: System, id: ResponseId, r: Recorder, room: bool): Phase
    requires id in s.db
  {
    if Usable(s, s.db[id].attachment, r, room) then r.storedPhase else Failed
  }

  lemma PathExtendsRun(states: seq<System>, steps: seq<Step>, e: Epoch, path: seq<System>, taken: seq<Step>)
    requires Run(states, steps) && Path(e, path, taken) && path[0] == states[|steps|]
    ensures var all, both := states + path[1..], steps + taken;
            Run(all, both) && all[|both|] == path[|taken|]
  {
    hide Next;
    var all, both := states + path[1..], steps + taken;
    forall i | 0 <= i < |both| ensures Next(all[i], both[i], all[i + 1]) {
      if i >= |steps| { assert all[i] == path[i - |steps|] && all[i + 1] == path[i - |steps| + 1]; }
    }
  }

  /** Every run with a free process and a queued Response can be continued until that Response ends as the provider's
      answer says. */
  lemma EveryRunCanComplete(states: seq<System>, steps: seq<Step>, e: Epoch, id: ResponseId, r: Recorder, room: bool)
    requires Run(states, steps)
    requires var s := states[|steps|];
             && e in s.workers && s.workers[e].Idle? && id in s.db && s.db[id].phase.Queued? && s.now < s.db[id].expiresAt
             && s.db[id].requestId.None? && MayReport(s, Job(id, s.db[id].attachment), r)
    ensures exists states': seq<System>, steps': seq<Step> ::
              states <= states' && steps <= steps' && EndsRun(states', steps', id, AnswerPhase(states[|steps|], id, r, room))
  {
    hide Next, Inv, Usable, MayReport, Run;
    LastState(states, steps);
    RunKeepsInv(states, steps, |steps|);
    var s := states[|steps|];
    var phase := AnswerPhase(s, id, r, room);
    UninterruptedWorkerEnds(s, e, id, r, room);
    var t :| Reaches(e, s, t) && id in t.db && t.db[id].phase == phase && e in t.workers && t.workers[e].Idle?;
    var path: seq<System>, taken: seq<Step> :| Path(e, path, taken) && path[0] == s && path[|taken|] == t;
    PathExtendsRun(states, steps, e, path, taken);
    var all, both := states + path[1..], steps + taken;
    assert states <= all && steps <= both && EndsRun(all, both, id, phase);
  }

  lemma LastState(states: seq<System>, steps: seq<Step>)
    requires Run(states, steps)
    ensures |steps| < |states|
  {
    hide Next;
  }

  const EMPTY := System(map[], {}, map[], {}, map[], map[], map[], {}, 0, multiset{}, multiset{}, multiset{})

  function NewRow(attachment: Option<C.Attachment>): Response { Response(0, 0, Queued, 0, 10, attachment, None, 0, false) }

  /** A queued Response and a free process, from a state without Responses and processes. */
  lemma EnqueuedRun(states: seq<System>, steps: seq<Step>, attachment: Option<C.Attachment>)
    returns (states': seq<System>, steps': seq<Step>)
    requires Run(states, steps) && var s := states[|steps|]; s.used == {} && s.epochs == {} && s.now == 0
    requires attachment.Some? ==> attachment.value in states[|steps|].attachments.Values
    ensures Run(states', steps')
    ensures var s, t := states[|steps|], states'[|steps'|];
            t == s.(db := s.db[0 := NewRow(attachment)], used := {0}, workers := s.workers[1 := Idle], epochs := {1})
  {
    var s := states[|steps|];
    var queued := SetResponse(s, 0, NewRow(attachment)).(used := s.used + {0});
    var booted := SetPc(queued, 1, Idle).(epochs := queued.epochs + {1});
    assert Next(s, Enqueue(0, NewRow(attachment)), queued) && Next(queued, Boot(1), booted);
    states', steps' := states + [queued, booted], steps + [Enqueue(0, NewRow(attachment)), Boot(1)];
    RunGrows(states, steps, [Enqueue(0, NewRow(attachment)), Boot(1)], [queued, booted]);
  }

  lemma RunGrows(states: seq<System>, steps: seq<Step>, more: seq<Step>, after: seq<System>)
    requires Run(states, steps) && |more| == |after| == 2
    requires Next(states[|steps|], more[0], after[0]) && Next(after[0], more[1], after[1])
    ensures Run(states + after, steps + more)
  {
    hide Next;
    var all, both := states + after, steps + more;
    forall i | 0 <= i < |both| ensures Next(all[i], both[i], all[i + 1]) {
      if i == |steps| {
        assert all[i] == states[|steps|] && all[i + 1] == after[0];
      } else if i == |steps| + 1 {
        assert all[i] == after[0] && all[i + 1] == after[1];
      }
    }
  }

  lemma EmptyRun()
    ensures Run([EMPTY], [])
  {
  }

  /** A conversation without items, and a snapshot of it with one new item. */
  lemma ConversationRun() returns (states: seq<System>, steps: seq<Step>, a: C.Attachment)
    ensures Run(states, steps) && a == C.Attachment(0, 0, 1, [], ["a"])
    ensures var s := states[|steps|];
            && s.db == map[] && s.used == {} && s.epochs == {} && s.now == 0 && s.workers == map[] && s.requests == map[]
            && s.attachments == map[0 := a] && 0 in s.conversations
            && s.conversations[0] == C.Conversation(0, 0, 1, false, s.conversations[0].items) && C.InOrder(s.conversations[0].items) == []
  {
    hide C.Create, C.Snapshot, C.InOrder;
    EmptyRun();
    C.CreateHolds(map[], 0, 0, 0, [], true);
    var table := C.Create(map[], 0, 0, 0, [], true).table;
    var created := EMPTY.(conversations := table, usedConversations := EMPTY.usedConversations + {0});
    C.SnapshotReads(table, 0, 0, ["a"]);
    a := C.Snapshot(table, 0, 0, ["a"]).value;
    var prepared := created.(attachments := created.attachments[0 := a]);
    var first, second := CreateConversation(0, 0, 0, [], true), Prepare(0, 0, 0, ["a"]);
    assert Next(EMPTY, first, created) && Next(created, second, prepared);
    RunGrows([EMPTY], [], [first, second], [created, prepared]);
    states, steps := [EMPTY] + [created, prepared], [] + [first, second];
  }

  /** Responses do complete: there are runs that end with a completed Response, one without a conversation and one with. */
  lemma ResponsesComplete()
    ensures exists states: seq<System>, steps: seq<Step> ::
              EndsRun(states, steps, 0, Completed) && states[|steps|].db[0].attachment.None?
    ensures exists states: seq<System>, steps: seq<Step> ::
              EndsRun(states, steps, 0, Completed) && states[|steps|].db[0].attachment.Some?
  {
    hide Next, Inv, C.InOrder, C.Fits;
    EmptyRun();
    var states, steps := EnqueuedRun([EMPTY], [], None);
    CompletesOn(states, steps, None);
    var before, first, a := ConversationRun();
    var states', steps' := EnqueuedRun(before, first, Some(a));
    ShortTurnFits(states'[|steps'|].conversations[0]);
    CompletesOn(states', steps', Some(a));
  }

  lemma ShortTurnFits(c: C.Conversation)
    requires C.InOrder(c.items) == []
    ensures C.Fits(c, ["a"] + ["b"])
  {
    assert C.InOrder(c.items) + (["a"] + ["b"]) == ["a", "b"];
    assert ["a", "b"][1..] == ["b"] && C.TotalBytes(["b"]) == 1;
  }

  lemma CompletesOn(states: seq<System>, steps: seq<Step>, attachment: Option<C.Attachment>)
    requires Run(states, steps)
    requires var s := states[|steps|];
             && s.db == map[0 := NewRow(attachment)] && s.workers == map[1 := Idle] && s.requests == map[] && s.now == 0
             && Current(s, Job(0, attachment))
             && (attachment.Some? ==> attachment.value.newItems == ["a"] && C.Fits(s.conversations[attachment.value.id], ["a"] + ["b"]))
    ensures exists states': seq<System>, steps': seq<Step> ::
              EndsRun(states', steps', 0, Completed) && states'[|steps'|].db[0].attachment.Some? == attachment.Some?
  {
    hide Next, Inv, C.Fits;
    var r := Recorder(true, true, Completed, true, false, Some(0), ["b"]);
    EveryRunCanComplete(states, steps, 1, 0, r, true);
    var states': seq<System>, steps': seq<Step> :| states <= states' && steps <= steps' && EndsRun(states', steps', 0, Completed);
    KeepsAttachment(states', steps', |steps|, 0);
  }

  lemma KeepsAttachment(states: seq<System>, steps: seq<Step>, i: nat, id: ResponseId)
    requires Run(states, steps) && i < |states| && id in states[i].db && id in states[|steps|].db
    ensures states[|steps|].db[id].attachment == states[i].db[id].attachment
  {
    hide Next, Conversing, Turns, Calls, ConversationsEvolve;
    RunEvolves(states, steps, i, |steps|);
    RunKeepsInv(states, steps, i);
  }
}
