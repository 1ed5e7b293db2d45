/** The invariant of the Response machine is kept by every step, and rows only evolve along a run. */
module ResponseRuns {
  import opened Common
  import C = Conversations
  import opened ResponseMachine
  import opened ResponseSafety

  // ------------------------------------------------------------------- frames

  ghost predicate MoreAttachments(s: System, t: System) {
    forall h :: h in s.attachments ==> h in t.attachments && t.attachments[h] == s.attachments[h]
  }

  lemma KnownFrame(s: System, t: System, a: Option<C.Attachment>)
    requires Known(s, a) && MoreAttachments(s, t)
    ensures Known(t, a)
  {
    if a.Some? {
      var h :| h in s.attachments && s.attachments[h] == a.value;
      assert t.attachments[h] == a.value;
    }
  }

  lemma JobOkFrame(s: System, t: System, job: Job)
    requires JobOk(s, job) && ResponsesEvolve(s, t) && MoreAttachments(s, t)
    ensures JobOk(t, job)
  {
    hide Known;
    KnownFrame(s, t, job.attachment);
  }

  lemma PcOkFrame(s: System, t: System, pc: Pc)
    requires PcOk(s, pc) && ResponsesEvolve(s, t) && MoreAttachments(s, t)
    ensures PcOk(t, pc)
  {
    hide JobOk;
    if !pc.Idle? { JobOkFrame(s, t, pc.job); }
  }

  lemma RowsFrame(s: System, t: System)
    requires Rows(s) && ResponsesEvolve(s, t) && MoreAttachments(s, t) && t.db.Keys <= t.used
    requires forall id :: id in t.db && id !in s.db ==> Known(t, t.db[id].attachment)
    requires forall e :: e in t.workers ==>
               e in t.epochs && (t.workers[e].Idle? || (e in s.workers && t.workers[e] == s.workers[e]))
    ensures Rows(t)
  {
    hide PcOk, Known;
    forall id | id in t.db ensures Known(t, t.db[id].attachment) {
      if id in s.db { KnownFrame(s, t, s.db[id].attachment); }
    }
    forall e | e in t.workers ensures PcOk(t, t.workers[e]) {
      if t.workers[e].Idle? { IdleOk(t); } else { PcOkFrame(s, t, s.workers[e]); }
    }
  }

  lemma IdleOk(t: System)
    ensures PcOk(t, Idle)
  {
  }

  lemma PutPcKeepsRows(s: System, e: Epoch, pc: Pc)
    requires Rows(s) && e in s.epochs && PcOk(s, pc)
    ensures Rows(SetPc(s, e, pc))
  {
    hide JobOk, Known;
    var t := SetPc(s, e, pc);
    forall f | f in t.workers ensures f in t.epochs && PcOk(t, t.workers[f]) {
      if f == e { SamePcOk(s, t, pc); } else { assert PcOk(s, s.workers[f]); SamePcOk(s, t, s.workers[f]); }
    }
    forall id | id in t.db ensures Known(t, t.db[id].attachment) {
      KnownFrame(s, t, s.db[id].attachment);
    }
  }

  lemma SamePcOk(s: System, t: System, pc: Pc)
    requires PcOk(s, pc) && t.db == s.db && t.used == s.used && t.attachments == s.attachments
    ensures PcOk(t, pc)
  {
    if !pc.Idle? { KnownFrame(s, t, pc.job.attachment); }
  }

  lemma ChangeEvolves(s: System, t: System)
    requires RowChange(s, t)
    ensures ResponsesEvolve(s, t)
  {
  }

  lemma TurnsFrame(s: System, t: System)
    requires Turns(s) && t.turns == s.turns && s.used <= t.used
    requires forall id :: id in t.db ==>
               if id in s.db
               then t.db[id].attachment == s.db[id].attachment
                    && (t.db[id].attachment.Some? ==> (t.db[id].phase.Completed? <==> s.db[id].phase.Completed?))
               else id !in s.used && !t.db[id].phase.Completed?
    ensures Turns(t)
  {
  }

  lemma CallsFrame(s: System, t: System)
    requires Calls(s) && ResponsesEvolve(s, t) && t.calls == s.calls
    requires forall e :: e in t.workers && BeforeCall(t.workers[e]) ==>
               e in s.workers && BeforeCall(s.workers[e]) && t.workers[e].job == s.workers[e].job
    ensures Calls(t)
  {
    forall id | Past(s, id) ensures Past(t, id) { }
  }

  // ---------------------------------------------------------- SQL statements

  /** Both places a worker may reach from a statement are well-formed in the state that the statement leaves. */
  lemma SqlPcs(s: System, step: Step)
    requires Rows(s) && Sql(step) && step.epoch in s.workers && Issues(s.workers[step.epoch], step)
    ensures var st := StatementOf(s, step);
            RowChange(s, st.effect) && st.effect.attachments == s.attachments
            && (st.enabled ==> PcOk(st.effect, st.hit)) && PcOk(s, st.miss)
  {
    hide CompleteTx, C.Turn, RowChange, JobOk, Known;
    var e := step.epoch;
    var pc := s.workers[e];
    assert PcOk(s, pc);
    SqlRows(s, step);
    StatementAttachments(s, step);
    var st := StatementOf(s, step);
    ChangeEvolves(s, st.effect);
    if step.Claim? {
      if st.enabled { ClaimedJob(s, step); }
    } else {
      JobOkFrame(s, st.effect, pc.job);
    }
  }

  lemma StatementAttachments(s: System, step: Step)
    requires Sql(step) && step.epoch in s.workers && Issues(s.workers[step.epoch], step)
    ensures StatementOf(s, step).effect.attachments == s.attachments
  {
    hide C.Turn, Holds;
  }

  lemma ClaimedJob(s: System, step: Step)
    requires Rows(s) && step.Claim? && step.epoch in s.workers && Issues(s.workers[step.epoch], step) && StatementOf(s, step).enabled
    ensures var st := StatementOf(s, step); st.hit.Claimed? && JobOk(st.effect, st.hit.job)
  {
    hide PcOk, Known;
    KnownFrame(s, StatementOf(s, step).effect, s.db[step.id].attachment);
  }

  lemma SqlKeepsRows(s: System, step: Step, t: System)
    requires Rows(s) && Sql(step) && SqlStep(s, step, t)
    ensures Rows(t) && RowChange(s, t) && t.attachments == s.attachments
  {
    hide StatementOf, RowChange, PcOk, Known;
    var st := StatementOf(s, step);
    SqlPcs(s, step);
    SqlWorkers(s, step);
    var u := if st.enabled then st.effect else s;
    RowChangeItself(s);
    if st.enabled { ChangeEvolves(s, st.effect); EffectRows(s, st.effect); }
    match step.report
    case Done =>
      PutPcKeepsRows(u, step.epoch, if st.enabled then st.hit else st.miss);
      SameDb(u, t, s);
    case _ =>
  }

  lemma RowChangeItself(s: System)
    ensures RowChange(s, s)
  {
  }

  lemma SqlWorkers(s: System, step: Step)
    requires Rows(s) && Sql(step) && step.epoch in s.workers && Issues(s.workers[step.epoch], step)
    ensures var t := StatementOf(s, step).effect; t.workers == s.workers && t.epochs == s.epochs && t.used == s.used && t.db.Keys == s.db.Keys
  {
    hide CompleteTx, C.Turn;
    assert PcOk(s, s.workers[step.epoch]);
    SqlRows(s, step);
  }

  lemma EffectRows(s: System, t: System)
    requires Rows(s) && ResponsesEvolve(s, t) && t.attachments == s.attachments && t.workers == s.workers && t.epochs == s.epochs
    requires t.used == s.used && t.db.Keys == s.db.Keys
    ensures Rows(t)
  {
    hide PcOk, Known;
    RowsFrame(s, t);
  }

  lemma SqlKeepsTurns(s: System, step: Step, t: System)
    requires Rows(s) && Turns(s) && Sql(step) && SqlStep(s, step, t)
    ensures Turns(t) && s.turns <= t.turns
  {
    hide StatementOf, Turns, PcOk, Known;
    var st := StatementOf(s, step);
    StatementKeepsTurns(s, step);
    SameTurns(if st.enabled then st.effect else s, t);
    if step.report.LostAndFailed? { SameTurns(s, t); }
  }

  lemma SameTurns(s: System, t: System)
    ensures Turns(s) && t.turns == s.turns && t.db == s.db && t.used == s.used ==> Turns(t)
  {
  }

  lemma StatementKeepsTurns(s: System, step: Step)
    requires Rows(s) && Turns(s) && Sql(step) && step.epoch in s.workers && Issues(s.workers[step.epoch], step)
    ensures Turns(StatementOf(s, step).effect) && s.turns <= StatementOf(s, step).effect.turns
  {
    hide CompleteTx, C.Turn, Known;
    var pc := s.workers[step.epoch];
    assert PcOk(s, pc);
    if step.Complete? {
      if CompleteTx(s, step.epoch, pc.job, pc.recorder, step.room).Commit? {
        CompletionEffect(s, step.epoch, pc.job, pc.recorder, step.room);
        assert pc.job.id !in s.turns;
      }
    } else {
      OtherStatementKeepsTurns(s, step);
    }
  }

  lemma OtherStatementKeepsTurns(s: System, step: Step)
    requires Rows(s) && Turns(s) && Sql(step) && !step.Complete? && step.epoch in s.workers && Issues(s.workers[step.epoch], step)
    ensures var t := StatementOf(s, step).effect; Turns(t) && t.turns == s.turns
  {
    hide Turns, Known, CompleteTx, C.Turn;
    var pc := s.workers[step.epoch];
    assert PcOk(s, pc);
    var st := StatementOf(s, step);
    SameTurns(s, st.effect);
    if st.enabled && !step.Close? {
      var id := if step.Claim? then step.id else pc.job.id;
      PutRowTurns(s, st.effect, id, st.effect.db[id]);
    }
  }

  lemma PutRowTurns(s: System, t: System, id: ResponseId, r: Response)
    requires Turns(s) && id in s.db && t.db == s.db[id := r] && t.used == s.used && t.turns == s.turns
    requires r.attachment == s.db[id].attachment && !s.db[id].phase.Completed? && (r.attachment.Some? ==> !r.phase.Completed?)
    ensures Turns(t)
  {
  }

  lemma SqlKeepsCalls(s: System, step: Step, t: System)
    requires Rows(s) && Calls(s) && Sql(step) && SqlStep(s, step, t) && ResponsesEvolve(s, t)
    ensures Calls(t) && t.calls == s.calls
  {
    hide CompleteTx, C.Turn, Known, ResponsesEvolve, Calls, PcOk;
    SqlCalls(s, step, t);
    if step.Claim? { ClaimKeepsCalls(s, step, t); } else { CallsFrame(s, t); }
  }

  lemma SqlCalls(s: System, step: Step, t: System)
    requires Rows(s) && Sql(step) && SqlStep(s, step, t)
    ensures t.calls == s.calls
    ensures !step.Claim? ==>
              forall e :: e in t.workers && BeforeCall(t.workers[e]) ==>
                e in s.workers && BeforeCall(s.workers[e]) && t.workers[e].job == s.workers[e].job
  {
    hide Rows, StatementOf;
    StatementCalls(s, step);
    if !step.Claim? { StatementPcs(s, step); }
  }

  lemma StatementCalls(s: System, step: Step)
    requires Rows(s) && Sql(step) && step.epoch in s.workers && Issues(s.workers[step.epoch], step)
    ensures var t := StatementOf(s, step).effect; t.calls == s.calls && t.workers == s.workers
  {
    hide StatementOf, Known, RowChange;
    assert PcOk(s, s.workers[step.epoch]);
    SqlRows(s, step);
  }

  lemma StatementPcs(s: System, step: Step)
    requires Sql(step) && step.epoch in s.workers && Issues(s.workers[step.epoch], step) && !step.Claim?
    ensures var st, pc := StatementOf(s, step), s.workers[step.epoch];
            (BeforeCall(st.hit) ==> BeforeCall(pc) && st.hit.job == pc.job) && !BeforeCall(st.miss)
  {
    hide CompleteTx, C.Turn;
  }

  lemma ClaimKeepsCalls(s: System, step: Step, t: System)
    requires Calls(s) && step.Claim? && SqlStep(s, step, t) && ResponsesEvolve(s, t) && s.db.Keys <= s.used
    ensures Calls(t)
  {
    hide ResponsesEvolve;
    if StatementOf(s, step).enabled && step.report.Done? {
      assert !Past(s, step.id);
      forall id | Past(s, id) ensures Past(t, id) { PastIsKept(s, t, id); }
      assert s.db[step.id].phase.Queued? && Past(t, step.id) by { ClaimedIsUsed(s, step, t); }
    } else {
      CallsFrame(s, t);
    }
  }

  lemma ClaimedIsUsed(s: System, step: Step, t: System)
    requires step.Claim? && SqlStep(s, step, t) && StatementOf(s, step).enabled && step.report.Done?
    requires step.id in s.used
    ensures Past(t, step.id)
  {
  }

  lemma PastIsKept(s: System, t: System, id: ResponseId)
    requires ResponsesEvolve(s, t) && Past(s, id)
    ensures Past(t, id)
  {
  }

  // ------------------------------------------------------------- local steps

  lemma LocalKeeps(s: System, step: Step, t: System)
    requires Inv(s) && Local(step) && LocalStep(s, step, t)
    ensures Inv(t) && Evolves(s, t)
  {
    hide Conversing, ConversationsEvolve, RevisionCheck, Known, JobOk, Turns, Calls;
    var pc := s.workers[step.epoch];
    assert PcOk(s, pc);
    SameStoresKeep(s, t);
    LocalPc(s, step, t);
    PutPcKeepsRows(s, step.epoch, t.workers[step.epoch]);
    RowsOnly(SetPc(s, step.epoch, t.workers[step.epoch]), t);
    SameTurns(s, t);
    LocalKeepsCalls(s, step, t);
    EvolvesWithoutChange(s, t);
  }

  lemma EvolvesWithoutChange(s: System, t: System)
    requires t.db == s.db && s.used <= t.used && t.attachments == s.attachments && ConversationsEvolve(s, t)
    requires s.calls <= t.calls && t.turns == s.turns && t.foreground == s.foreground && Rows(s)
    ensures Evolves(s, t)
  {
    hide Known, PcOk, ConversationsEvolve;
  }

  lemma RowsOnly(s: System, t: System)
    requires Rows(s) && t.db == s.db && t.used == s.used && t.attachments == s.attachments && t.workers == s.workers && t.epochs == s.epochs
    ensures Rows(t)
  {
    hide Known, JobOk;
    forall e | e in t.workers ensures PcOk(t, t.workers[e]) { SamePcOk(s, t, s.workers[e]); }
    forall id | id in t.db ensures Known(t, t.db[id].attachment) { KnownFrame(s, t, s.db[id].attachment); }
  }

  lemma LocalPc(s: System, step: Step, t: System)
    requires Local(step) && LocalStep(s, step, t) && PcOk(s, s.workers[step.epoch])
    ensures step.epoch in t.workers && PcOk(s, t.workers[step.epoch])
    ensures t.workers == s.workers[step.epoch := t.workers[step.epoch]]
    ensures !step.Call? && BeforeCall(t.workers[step.epoch]) ==>
              BeforeCall(s.workers[step.epoch]) && t.workers[step.epoch].job == s.workers[step.epoch].job
  {
    hide JobOk;
  }

  lemma LocalKeepsCalls(s: System, step: Step, t: System)
    requires Calls(s) && Rows(s) && Local(step) && LocalStep(s, step, t) && PcOk(s, s.workers[step.epoch])
    ensures Calls(t) && s.calls <= t.calls
  {
    hide JobOk, RevisionCheck, Judged, Settled, Calls, Known, PcOk;
    if step.Call? {
      CallKeepsCalls(s, step, t);
    } else {
      LocalPc(s, step, t);
      NoRowChanges(s, t);
      CallsFrame(s, t);
    }
  }

  lemma NoRowChanges(s: System, t: System)
    requires s.db.Keys <= s.used && t.db == s.db && s.used <= t.used
    ensures ResponsesEvolve(s, t)
  {
  }

  lemma CallKeepsCalls(s: System, step: Step, t: System)
    requires Calls(s) && step.Call? && LocalStep(s, step, t)
    ensures Calls(t) && s.calls <= t.calls
  {
    var id := s.workers[step.epoch].job.id;
    assert id !in s.calls && t.calls[id] == 1;
    assert t.db == s.db && t.used == s.used;
  }

  // ------------------------------------------------------------- table steps

  /** Rows that only move forward, new rows that are queued, and workers that are the same, idle or gone. */
  ghost predicate Quiet(s: System, t: System) {
    && ResponsesEvolve(s, t) && t.db.Keys <= t.used && MoreAttachments(s, t)
    && t.turns == s.turns && t.calls == s.calls && s.foreground <= t.foreground
    && (forall id :: id in t.db && id !in s.db ==> Known(t, t.db[id].attachment) && t.db[id].phase.Queued?)
    && (forall id :: id in t.db && id in s.db ==> (t.db[id].phase.Completed? <==> s.db[id].phase.Completed?))
    && (forall e :: e in t.workers ==>
          e in t.epochs && (t.workers[e].Idle? || (e in s.workers && t.workers[e] == s.workers[e])))
  }

  lemma QuietKeeps(s: System, t: System)
    requires Inv(s) && Quiet(s, t) && Conversing(t) && ConversationsEvolve(s, t)
    ensures Inv(t) && Evolves(s, t)
  {
    hide Conversing, ConversationsEvolve, PcOk, Known;
    RowsFrame(s, t);
    QuietTurns(s, t);
    CallsFrame(s, t);
  }

  lemma QuietTurns(s: System, t: System)
    requires Turns(s) && Rows(s) && Quiet(s, t)
    ensures Turns(t)
  {
    hide PcOk, Known, Turns;
    TurnsFrame(s, t);
  }

  /** What a step on conversations leaves alone. */
  ghost predicate SameResponses(s: System, t: System) {
    && t.db == s.db && t.used == s.used && t.workers == s.workers && t.epochs == s.epochs && t.turns == s.turns && t.calls == s.calls
    && MoreAttachments(s, t) && s.foreground <= t.foreground
  }

  lemma TxRows(s: System, t: System, r: C.Result)
    requires Tx(s, t, r)
    ensures SameResponses(s, t)
  {
    hide C.InOrder;
  }

  lemma EditRows(s: System, step: Step, t: System)
    requires Editing(step) && TableStep(s, step, t)
    ensures SameResponses(s, t)
  {
    hide SameResponses, Tx, C.AddItems, C.DeleteItem, C.Create, C.Delete;
    match step
    case CreateConversation(id, owner, key, bodies, room) =>
      var u := s.(usedConversations := s.usedConversations + {id});
      TxRows(u, t, C.Create(s.conversations, id, owner, key, bodies, room));
      SameRowsCompose(s, u, t);
    case CreateItems(id, key, bodies, room) => TxRows(s, t, C.AddItems(s.conversations, id, key, bodies, room));
    case DeleteItem(id, key, ordinal) => TxRows(s, t, C.DeleteItem(s.conversations, id, key, ordinal));
    case DeleteConversation(id, key) => TxRows(s, t, C.Delete(s.conversations, id, key));
    case Purge(ids) => PurgeRows(s, t, ids);
  }

  lemma SameRowsCompose(s: System, u: System, t: System)
    requires SameResponses(u, t) && u == s.(usedConversations := u.usedConversations)
    ensures SameResponses(s, t)
  {
  }

  lemma PurgeRows(s: System, t: System, ids: set<C.ConversationId>)
    requires t == s.(conversations := s.conversations - ids)
    ensures SameResponses(s, t)
  {
  }

  lemma TurnRows(s: System, step: Step, t: System)
    requires (step.Prepare? || step.ForegroundTurn? || step.Tick?) && TableStep(s, step, t)
    ensures SameResponses(s, t)
  {
    hide C.Turn, C.Snapshot;
  }

  lemma ConversationStepRows(s: System, step: Step, t: System)
    requires (Editing(step) || step.Prepare? || step.ForegroundTurn? || step.Tick?) && TableStep(s, step, t)
    ensures SameResponses(s, t)
  {
    hide SameResponses, TableStep;
    if Editing(step) { EditRows(s, step, t); } else { TurnRows(s, step, t); }
  }

  lemma ConversationStepIsQuiet(s: System, step: Step, t: System)
    requires Rows(s) && (Editing(step) || step.Prepare? || step.ForegroundTurn? || step.Tick?) && TableStep(s, step, t)
    ensures Quiet(s, t)
  {
    hide TableStep, PcOk, Known;
    ConversationStepRows(s, step, t);
  }

  lemma ResponseStepIsQuiet(s: System, step: Step, t: System)
    requires Rows(s) && (step.Enqueue? || step.Cancel? || step.Delete? || step.Recover?) && TableStep(s, step, t)
    ensures Quiet(s, t) && SameStores(s, t)
  {
    hide PcOk, Known, Quiet, SameStores;
    match step
    case Enqueue(id, r) => EnqueueIsQuiet(s, t, id, r);
    case Cancel(id) => PutRowIsQuiet(s, t, id, s.db[id].(phase := Phase.Cancelled));
    case Recover(id) => PutRowIsQuiet(s, t, id, s.db[id].(phase := Interrupted));
    case Delete(id) => DeleteIsQuiet(s, t, id);
  }

  lemma EnqueueIsQuiet(s: System, t: System, id: ResponseId, r: Response)
    requires Rows(s) && id !in s.used && r.phase.Queued? && t == SetResponse(s, id, r).(used := s.used + {id})
    requires r.attachment.Some? ==> r.attachment.value in s.attachments.Values
    ensures Quiet(s, t) && SameStores(s, t)
  {
    hide PcOk;
  }

  lemma PutRowIsQuiet(s: System, t: System, id: ResponseId, r: Response)
    requires Rows(s) && id in s.db && ResponseEvolves(s.db[id], r) && (r.phase.Completed? <==> s.db[id].phase.Completed?)
    requires t == SetResponse(s, id, r)
    ensures Quiet(s, t) && SameStores(s, t)
  {
    hide PcOk, Known;
  }

  lemma DeleteIsQuiet(s: System, t: System, id: ResponseId)
    requires Rows(s) && t == s.(db := s.db - {id})
    ensures Quiet(s, t) && SameStores(s, t)
  {
    hide PcOk, Known;
  }

  lemma ProcessStepIsQuiet(s: System, step: Step, t: System)
    requires Rows(s) && (step.Boot? || step.Crash?) && TableStep(s, step, t)
    ensures Quiet(s, t) && SameStores(s, t)
  {
    hide Known, PcOk, Quiet, SameStores;
    match step
    case Boot(e) => BootIsQuiet(s, t, e);
    case Crash(e) => CrashIsQuiet(s, t, e);
  }

  lemma BootIsQuiet(s: System, t: System, e: Epoch)
    requires Rows(s) && t == SetPc(s, e, Idle).(epochs := s.epochs + {e})
    ensures Quiet(s, t) && SameStores(s, t)
  {
    hide Known, PcOk;
  }

  lemma CrashIsQuiet(s: System, t: System, e: Epoch)
    requires Rows(s) && t == s.(workers := s.workers - {e})
    ensures Quiet(s, t) && SameStores(s, t)
  {
    hide Known, PcOk;
  }

  lemma TableKeeps(s: System, step: Step, t: System)
    requires Inv(s) && !Sql(step) && !Local(step) && TableStep(s, step, t)
    ensures Inv(t) && Evolves(s, t)
  {
    hide Conversing, ConversationsEvolve, Quiet, Rows, Turns, Calls, TableStep, Evolves, SameStores;
    match step {
    case Tick(_) => ConversationStepIsQuiet(s, step, t); TickStores(s, step, t); SameStoresKeep(s, t);
    case CreateConversation(_, _, _, _, _) => ConversationStepIsQuiet(s, step, t); EditKeepsConversing(s, step, t);
    case CreateItems(_, _, _, _) => ConversationStepIsQuiet(s, step, t); EditKeepsConversing(s, step, t);
    case DeleteItem(_, _, _) => ConversationStepIsQuiet(s, step, t); EditKeepsConversing(s, step, t);
    case DeleteConversation(_, _) => ConversationStepIsQuiet(s, step, t); EditKeepsConversing(s, step, t);
    case Purge(_) => ConversationStepIsQuiet(s, step, t); EditKeepsConversing(s, step, t);
    case Prepare(_, _, _, _) => ConversationStepIsQuiet(s, step, t); PrepareKeepsConversing(s, step, t);
    case ForegroundTurn(_, _, _, _) => ConversationStepIsQuiet(s, step, t); ForegroundKeepsConversing(s, step, t);
    case Boot(_) => ProcessStepIsQuiet(s, step, t); SameStoresKeep(s, t);
    case Crash(_) => ProcessStepIsQuiet(s, step, t); SameStoresKeep(s, t);
    case _ => ResponseStepIsQuiet(s, step, t); SameStoresKeep(s, t);
    }
    QuietKeeps(s, t);
  }

  lemma TickStores(s: System, step: Step, t: System)
    requires step.Tick? && TableStep(s, step, t)
    ensures SameStores(s, t)
  {
  }

  // --------------------------------------------------------------------- runs

  lemma SqlKeeps(s: System, step: Step, t: System)
    requires Inv(s) && Sql(step) && SqlStep(s, step, t)
    ensures Inv(t) && Evolves(s, t)
  {
    hide Conversing, ConversationsEvolve, Rows, Turns, Calls, StatementOf, RowChange;
    SqlStores(s, step);
    SqlKeepsRows(s, step, t);
    ChangeEvolves(s, t);
    SqlKeepsTurns(s, step, t);
    SqlKeepsCalls(s, step, t);
    SqlConverses(s, step, t);
  }

  lemma SqlConverses(s: System, step: Step, t: System)
    requires Conversing(s) && Sql(step) && SqlStep(s, step, t)
    ensures Conversing(t) && ConversationsEvolve(s, t) && t.foreground == s.foreground
  {
    hide Conversing, ConversationsEvolve, StatementOf;
    SqlStores(s, step);
    var u := if StatementOf(s, step).enabled then StatementOf(s, step).effect else s;
    SameStoresKeep(s, s);
    if step.report.LostAndFailed? { SameStoresKeep(s, t); } else { SameStoresKeep(u, t); StoresCompose(s, u, t); }
  }

  lemma StoresCompose(s: System, t: System, u: System)
    requires ConversationsEvolve(s, t) && SameStores(t, u)
    ensures ConversationsEvolve(s, u)
  {
  }

  lemma StepKeepsInv(s: System, step: Step, t: System)
    requires Inv(s) && Next(s, step, t)
    ensures Inv(t) && Evolves(s, t)
  {
    hide Inv, Evolves, SqlStep, LocalStep, TableStep;
    if Sql(step) { SqlKeeps(s, step, t); } else if Local(step) { LocalKeeps(s, step, t); } else { TableKeeps(s, step, t); }
  }

  lemma InitInv(s: System)
    requires Init(s)
    ensures Inv(s)
  {
  }

  lemma {:induction false} RunKeepsInv(states: seq<System>, steps: seq<Step>, i: nat)
    requires Run(states, steps) && i < |states|
    ensures Inv(states[i])
  {
    hide Inv, Next, Evolves, Init;
    if i == 0 {
      InitInv(states[0]);
    } else {
      RunKeepsInv(states, steps, i - 1);
      StepKeepsInv(states[i - 1], steps[i - 1], states[i]);
    }
  }

  lemma EvolvesFromItself(s: System)
    requires Inv(s)
    ensures Evolves(s, s)
  {
    hide Known, PcOk, C.TableOk, Faithful;
  }

  lemma {:induction false} RunEvolves(states: seq<System>, steps: seq<Step>, i: nat, j: nat)
    requires Run(states, steps) && i <= j < |states|
    ensures Evolves(states[i], states[j])
    decreases j
  {
    hide Inv, Next, Evolves, Init;
    RunKeepsInv(states, steps, i);
    if i < j {
      RunEvolves(states, steps, i, j - 1);
      RunKeepsInv(states, steps, j - 1);
      StepKeepsInv(states[j - 1], steps[j - 1], states[j]);
      EvolvesTransitive(states[i], states[j - 1], states[j]);
    } else {
      EvolvesFromItself(states[i]);
    }
  }
}
