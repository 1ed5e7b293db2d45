/** What every run of the Response machine keeps. */
module ResponseSafety {
  import opened Common
  import C = Conversations
  import opened ResponseMachine

  // ---------------------------------------------------------------- evolution

  ghost predicate ResponseEvolves(x: Response, y: Response) {
    && x.owner == y.owner && x.key == y.key && x.attachment == y.attachment && x.bytes == y.bytes && x.expiresAt == y.expiresAt
    && (!x.phase.Active() ==> y.phase == x.phase)
    && (y.phase.Queued? ==> x.phase.Queued?)
  }

  ghost predicate ConversationsEvolve(s: System, t: System) {
    && s.usedConversations <= t.usedConversations
    && (forall id :: id in s.usedConversations && id in t.conversations ==>
          id in s.conversations && C.ConversationEvolves(s.conversations[id], t.conversations[id]))
  }

  ghost predicate ResponsesEvolve(s: System, t: System) {
    && s.used <= t.used
    && (forall id :: id in s.used && id in t.db ==> id in s.db && ResponseEvolves(s.db[id], t.db[id]))
  }

  ghost predicate Evolves(s: System, t: System) {
    && ConversationsEvolve(s, t) && ResponsesEvolve(s, t)
    && (forall h :: h in s.attachments ==> h in t.attachments && t.attachments[h] == s.attachments[h])
    && s.calls <= t.calls && s.turns <= t.turns && s.foreground <= t.foreground
  }

  lemma EvolvesTransitive(s: System, t: System, u: System)
    requires Evolves(s, t) && Evolves(t, u)
    ensures Evolves(s, u)
  {
  }

  // --------------------------------------------------------------- invariants

  /** An attachment describes its conversation for as long as that stays at the remembered revision. */
  ghost predicate Faithful(s: System, a: C.Attachment) {
    && a.id in s.usedConversations
    && (a.id in s.conversations ==>
          && a.revision <= s.conversations[a.id].revision
          && (s.conversations[a.id].revision == a.revision ==> C.InOrder(s.conversations[a.id].items) == a.history))
  }

  ghost predicate Conversing(s: System) {
    && s.conversations.Keys <= s.usedConversations && C.TableOk(s.conversations)
    && (forall h :: h in s.attachments ==> Faithful(s, s.attachments[h]))
    && (forall h :: h in s.foreground ==> s.foreground[h] == 1 && h in s.attachments && Spent(s, s.attachments[h]))
  }

  /** The compare-and-set of this attachment can no longer succeed. */
  ghost predicate Spent(s: System, a: C.Attachment) {
    a.id in s.conversations ==> a.revision < s.conversations[a.id].revision
  }

  ghost predicate Known(s: System, a: Option<C.Attachment>) {
    a.Some? ==> exists h :: h in s.attachments && s.attachments[h] == a.value
  }

  ghost predicate JobOk(s: System, job: Job) {
    job.id in s.used && Known(s, job.attachment) && (job.id in s.db ==> s.db[job.id].attachment == job.attachment)
  }

  ghost predicate PcOk(s: System, pc: Pc) {
    && (!pc.Idle? ==> JobOk(s, pc.job))
    && (pc.Returned? || pc.Linking? || pc.Linked? || pc.Storing? ==> !pc.recorder.storedPhase.Active())
    && (pc.Linked? && pc.job.attachment.Some? ==> pc.recorder.requestId.Some?)
    && (pc.Storing? ==> pc.job.attachment.None?)
    && (pc.Completing? || pc.Linking? ==> pc.job.attachment.Some? && pc.recorder.requestId.Some?)
  }

  ghost predicate Rows(s: System) {
    && s.db.Keys <= s.used
    && (forall id :: id in s.db ==> Known(s, s.db[id].attachment))
    && (forall e :: e in s.workers ==> e in s.epochs && PcOk(s, s.workers[e]))
  }

  /** A Response's turn was appended once if its row is completed, and not at all otherwise. */
  ghost predicate Turns(s: System) {
    && (forall id :: id in s.turns ==> s.turns[id] == 1 && id in s.used)
    && (forall id :: id in s.db ==> (id in s.turns <==> s.db[id].attachment.Some? && s.db[id].phase.Completed?))
  }

  predicate BeforeCall(pc: Pc) { pc.Claimed? || pc.Ready? || pc.Checked? || pc.Cleared? }

  ghost predicate Past(s: System, id: ResponseId) { id in s.used && (id in s.db ==> !s.db[id].phase.Queued?) }

  /** At most one call was made or can still be made for a Response, and only for rows that left the queue. */
  ghost predicate Calls(s: System) {
    && (forall id :: id in s.calls ==> s.calls[id] == 1 && Past(s, id))
    && (forall e :: e in s.workers && BeforeCall(s.workers[e]) ==>
          s.workers[e].job.id !in s.calls && Past(s, s.workers[e].job.id))
    && (forall e, f :: e in s.workers && f in s.workers && e != f && BeforeCall(s.workers[e]) && BeforeCall(s.workers[f]) ==>
          s.workers[e].job.id != s.workers[f].job.id)
  }

  ghost predicate Inv(s: System) { Conversing(s) && Rows(s) && Turns(s) && Calls(s) }

  // ------------------------------------------------------------ conversations

  lemma TurnKeeps(t: C.Table, a: C.Attachment, output: seq<C.Body>, room: bool)
    requires C.TableOk(t) && C.Turn(t, a, output, room).Committed?
    ensures var u := C.Turn(t, a, output, room).table;
            && C.TableOk(u) && u.Keys == t.Keys && C.Visible(t, a.id, a.key) && t[a.id].revision == a.revision
            && u == t[a.id := u[a.id]] && C.ConversationEvolves(t[a.id], u[a.id]) && u[a.id].revision == a.revision + 1
  {
    C.InsertOk(t[a.id].(revision := a.revision + 1), a.newItems + output);
  }

  lemma AddItemsKeeps(t: C.Table, id: C.ConversationId, key: nat, bodies: seq<C.Body>, room: bool)
    requires C.TableOk(t) && C.AddItems(t, id, key, bodies, room).Committed?
    ensures var u := C.AddItems(t, id, key, bodies, room).table;
            id in t && C.TableOk(u) && u == t[id := u[id]] && C.ConversationEvolves(t[id], u[id])
  {
    C.InsertOk(t[id], bodies);
  }

  lemma DeleteItemKeeps(t: C.Table, id: C.ConversationId, key: nat, ordinal: nat)
    requires C.TableOk(t) && C.DeleteItem(t, id, key, ordinal).Committed?
    ensures var u := C.DeleteItem(t, id, key, ordinal).table;
            id in t && C.TableOk(u) && u == t[id := u[id]] && C.ConversationEvolves(t[id], u[id])
  {
    C.DeleteItemOk(t[id], ordinal);
  }

  lemma CreateKeeps(t: C.Table, id: C.ConversationId, owner: nat, key: nat, bodies: seq<C.Body>, room: bool)
    requires C.TableOk(t) && C.Create(t, id, owner, key, bodies, room).Committed?
    ensures var u := C.Create(t, id, owner, key, bodies, room).table; id in u && C.TableOk(u) && u == t[id := u[id]]
  {
    C.InsertOk(C.Conversation(owner, key, 0, false, map[]), bodies);
  }

  /** Conversations that only evolve, with every snapshot kept, keep the conversation invariant. */
  lemma ConversingFrame(s: System, t: System)
    requires Conversing(s) && ConversationsEvolve(s, t)
    requires t.conversations.Keys <= t.usedConversations && C.TableOk(t.conversations)
    requires forall h :: h in t.attachments ==> if h in s.attachments then t.attachments[h] == s.attachments[h] else Faithful(t, t.attachments[h])
    requires forall h :: h in s.attachments ==> h in t.attachments
    requires forall h :: h in t.foreground ==> t.foreground[h] == 1 && h in t.attachments && (h in s.foreground || Spent(t, t.attachments[h]))
    ensures Conversing(t)
  {
    hide C.InOrder, C.ConversationOk;
    forall h | h in t.attachments ensures Faithful(t, t.attachments[h]) {
      if h in s.attachments { assert Faithful(s, s.attachments[h]); }
    }
    forall h | h in t.foreground ensures Spent(t, t.attachments[h]) {
      if h in s.foreground { assert Spent(s, s.attachments[h]) && Faithful(s, s.attachments[h]); }
    }
  }

  /** Replacing one row of the conversation table. */
  lemma PutConversation(s: System, t: System, id: C.ConversationId, c: C.Conversation)
    requires Conversing(s) && t.conversations == s.conversations[id := c] && C.TableOk(t.conversations)
    requires s.usedConversations <= t.usedConversations && id in t.usedConversations
    requires if id in s.conversations then C.ConversationEvolves(s.conversations[id], c) else id !in s.usedConversations
    ensures ConversationsEvolve(s, t) && t.conversations.Keys <= t.usedConversations
  {
    hide C.InOrder, C.TableOk;
  }

  lemma SameConversations(s: System, t: System)
    requires Conversing(s) && t.conversations == s.conversations && t.usedConversations == s.usedConversations
    ensures ConversationsEvolve(s, t) && t.conversations.Keys <= t.usedConversations && C.TableOk(t.conversations)
  {
    hide C.TableOk;
  }

  predicate Editing(step: Step) {
    step.CreateConversation? || step.CreateItems? || step.DeleteItem? || step.DeleteConversation? || step.Purge?
  }

  /** A committed edit that replaces one conversation by one that evolved from it. */
  lemma EditOne(s: System, t: System, id: C.ConversationId)
    requires Conversing(s) && id in s.conversations && id in t.conversations && C.TableOk(t.conversations)
    requires t == s.(conversations := s.conversations[id := t.conversations[id]])
    requires C.ConversationEvolves(s.conversations[id], t.conversations[id])
    ensures Conversing(t) && ConversationsEvolve(s, t)
  {
    hide C.InOrder, C.ConversationOk, C.ConversationEvolves;
    PutConversation(s, t, id, t.conversations[id]);
    ConversingFrame(s, t);
  }

  lemma CreateKeepsConversing(s: System, step: Step, t: System)
    requires Conversing(s) && step.CreateConversation? && TableStep(s, step, t)
    ensures Conversing(t) && ConversationsEvolve(s, t)
  {
    hide C.Create, C.InOrder, C.ConversationOk, C.ConversationEvolves;
    var r := C.Create(s.conversations, step.id, step.owner, step.key, step.bodies, step.room);
    if r.Committed? {
      CreateKeeps(s.conversations, step.id, step.owner, step.key, step.bodies, step.room);
      assert t.conversations == r.table;
      PutConversation(s, t, step.id, t.conversations[step.id]);
    } else {
      WiderConversations(s, t);
    }
    ConversingFrame(s, t);
  }

  lemma WiderConversations(s: System, t: System)
    requires Conversing(s) && t.conversations == s.conversations && s.usedConversations <= t.usedConversations
    ensures ConversationsEvolve(s, t) && t.conversations.Keys <= t.usedConversations && C.TableOk(t.conversations)
  {
    hide C.TableOk, C.InOrder;
  }

  lemma PurgeKeepsConversing(s: System, step: Step, t: System)
    requires Conversing(s) && step.Purge? && TableStep(s, step, t)
    ensures Conversing(t) && ConversationsEvolve(s, t)
  {
    hide C.InOrder, C.ConversationOk;
    ConversingFrame(s, t);
  }

  lemma EditKeepsConversing(s: System, step: Step, t: System)
    requires Conversing(s) && Editing(step) && TableStep(s, step, t)
    ensures Conversing(t) && ConversationsEvolve(s, t)
  {
    hide C.AddItems, C.DeleteItem, C.Create, Conversing, ConversationsEvolve, C.TableOk, C.ConversationEvolves;
    TableIsOk(s);
    SameStoresKeep(s, s);
    match step
    case CreateConversation(id, owner, key, bodies, room) => CreateKeepsConversing(s, step, t);
    case CreateItems(id, key, bodies, room) =>
      if C.AddItems(s.conversations, id, key, bodies, room).Committed? {
        AddItemsKeeps(s.conversations, id, key, bodies, room);
        EditOne(s, t, id);
      }
    case DeleteItem(id, key, ordinal) =>
      if C.DeleteItem(s.conversations, id, key, ordinal).Committed? {
        DeleteItemKeeps(s.conversations, id, key, ordinal);
        EditOne(s, t, id);
      }
    case DeleteConversation(id, key) =>
      if C.Visible(s.conversations, id, key) {
        MarkKeeps(s.conversations, id);
        EditOne(s, t, id);
      }
    case Purge(ids) => PurgeKeepsConversing(s, step, t);
  }

  lemma TableIsOk(s: System)
    requires Conversing(s)
    ensures C.TableOk(s.conversations)
  {
  }

  lemma MarkKeeps(t: C.Table, id: C.ConversationId)
    requires C.TableOk(t) && id in t && !t[id].deleted
    ensures var c := t[id].(deleted := true); C.TableOk(t[id := c]) && C.ConversationEvolves(t[id], c)
  {
    assert C.ConversationOk(t[id]);
  }

  lemma ForegroundKeepsConversing(s: System, step: Step, t: System)
    requires Conversing(s) && step.ForegroundTurn? && TableStep(s, step, t)
    ensures Conversing(t) && ConversationsEvolve(s, t)
  {
    hide C.Turn, C.InOrder, C.ConversationOk;
    SameConversations(s, s);
    var a := s.attachments[step.handle];
    if C.Turn(s.conversations, a, step.output, step.room).Committed? && !step.report.LostAndFailed? {
      TurnKeeps(s.conversations, a, step.output, step.room);
      assert step.handle !in s.foreground;
      PutConversation(s, t, a.id, t.conversations[a.id]);
      ConversingFrame(s, t);
    }
  }

  lemma PrepareKeepsConversing(s: System, step: Step, t: System)
    requires Conversing(s) && step.Prepare? && TableStep(s, step, t)
    ensures Conversing(t) && ConversationsEvolve(s, t)
  {
    hide C.InOrder, C.ConversationOk;
    SameConversations(s, t);
    ConversingFrame(s, t);
  }

  /** The completion transaction, seen from the conversations. */
  lemma CompleteKeepsConversing(s: System, e: Epoch, job: Job, r: Recorder, room: bool)
    requires Conversing(s) && job.attachment.Some? && r.requestId.Some?
    requires CompleteTx(s, e, job, r, room).Commit?
    ensures var t := CompleteTx(s, e, job, r, room).effect; Conversing(t) && ConversationsEvolve(s, t)
  {
    hide C.Turn, C.InOrder, C.ConversationOk;
    var t := CompleteTx(s, e, job, r, room).effect;
    var a := job.attachment.value;
    TurnKeeps(s.conversations, a, r.output, room);
    PutConversation(s, t, a.id, t.conversations[a.id]);
    ConversingFrame(s, t);
  }

  // -------------------------------------------------------------- worker frame

  /** What a statement of a worker may touch besides conversations and histories. */
  ghost predicate SameStores(s: System, t: System) {
    && t.conversations == s.conversations && t.usedConversations == s.usedConversations && t.attachments == s.attachments
    && t.foreground == s.foreground
  }

  lemma SameStoresKeep(s: System, t: System)
    requires Conversing(s) && SameStores(s, t)
    ensures Conversing(t) && ConversationsEvolve(s, t)
  {
    hide C.InOrder, C.TableOk;
  }

  lemma SqlStores(s: System, step: Step)
    requires Conversing(s) && Sql(step) && step.epoch in s.workers && Issues(s.workers[step.epoch], step)
    ensures var t := StatementOf(s, step).effect;
            && Conversing(t) && ConversationsEvolve(s, t) && t.attachments == s.attachments && t.foreground == s.foreground
            && t.usedConversations == s.usedConversations
  {
    hide Conversing, CompleteTx, C.Turn, ConversationsEvolve;
    var t := StatementOf(s, step).effect;
    var pc := s.workers[step.epoch];
    if step.Complete? && CompleteTx(s, step.epoch, pc.job, pc.recorder, step.room).Commit? {
      CompleteKeepsConversing(s, step.epoch, pc.job, pc.recorder, step.room);
      CompletionEffect(s, step.epoch, pc.job, pc.recorder, step.room);
    } else {
      SameStoresKeep(s, t);
    }
  }

  lemma CompletionEffect(s: System, e: Epoch, job: Job, r: Recorder, room: bool)
    requires job.attachment.Some? && r.requestId.Some? && CompleteTx(s, e, job, r, room).Commit?
    ensures var t := CompleteTx(s, e, job, r, room).effect;
            && Holds(s, e, job.id) && t.db == s.db[job.id := s.db[job.id].(phase := Completed)] && t.used == s.used
            && t.turns == s.turns + multiset{job.id} && t.calls == s.calls && t.workers == s.workers && t.epochs == s.epochs
            && t.attachments == s.attachments && t.usedConversations == s.usedConversations && t.foreground == s.foreground && t.now == s.now
  {
    hide C.Turn;
  }

  // ------------------------------------------------------------ response rows

  /** Rows are replaced one at a time and only move forward. */
  ghost predicate RowChange(s: System, t: System) {
    t.used == s.used && t.db.Keys == s.db.Keys && forall id :: id in s.db ==> ResponseEvolves(s.db[id], t.db[id])
  }

  lemma OneRow(s: System, id: ResponseId, r: Response)
    requires id in s.db && ResponseEvolves(s.db[id], r)
    ensures RowChange(s, SetResponse(s, id, r))
  {
  }

  lemma SqlRows(s: System, step: Step)
    requires Sql(step) && step.epoch in s.workers && Issues(s.workers[step.epoch], step)
    requires step.Store? ==> !s.workers[step.epoch].recorder.storedPhase.Active()
    ensures var t := StatementOf(s, step).effect;
            RowChange(s, t) && t.workers == s.workers && t.epochs == s.epochs && t.calls == s.calls
  {
    hide CompleteTx, C.Turn, RowChange;
    var pc := s.workers[step.epoch];
    var e := step.epoch;
    SameRows(s, StatementOf(s, step).effect);
    match step
    case Claim(_, id, _) => if StatementOf(s, step).enabled { OneRow(s, id, s.db[id].(phase := Running, lease := e)); }
    case Announce(_, _) =>
      if StatementOf(s, step).enabled { OneRow(s, pc.job.id, s.db[pc.job.id].(announced := true)); }
    case Link(_, _) =>
      if StatementOf(s, step).enabled { OneRow(s, pc.job.id, s.db[pc.job.id].(requestId := pc.recorder.requestId)); }
    case Store(_, _) =>
      if StatementOf(s, step).enabled { OneRow(s, pc.job.id, s.db[pc.job.id].(phase := pc.recorder.storedPhase)); }
    case Fail(_, _) => if StatementOf(s, step).enabled { OneRow(s, pc.job.id, s.db[pc.job.id].(phase := Failed)); }
    case Complete(_, room, _) =>
      if CompleteTx(s, e, pc.job, pc.recorder, room).Commit? {
        CompletionEffect(s, e, pc.job, pc.recorder, room);
        OneRow(s, pc.job.id, s.db[pc.job.id].(phase := Completed));
        SameDb(SetResponse(s, pc.job.id, s.db[pc.job.id].(phase := Completed)), StatementOf(s, step).effect, s);
      }
    case _ =>
  }

  lemma SameRows(s: System, t: System)
    ensures t.db == s.db && t.used == s.used ==> RowChange(s, t)
  {
  }

  lemma SameDb(t: System, u: System, s: System)
    requires RowChange(s, t) && u.db == t.db && u.used == t.used
    ensures RowChange(s, u)
  {
  }
}
