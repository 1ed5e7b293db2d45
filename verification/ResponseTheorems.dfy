/** The promises of background Responses and conversations, over every run. */
module ResponseTheorems {
  import opened Common
  import C = Conversations
  import opened ResponseMachine
  import opened ResponseSafety
  import opened ResponseRuns

  /** A background Response is forwarded at most once. Which providers that one request reaches is said in `Dispatches`. */
  lemma ForwardedOnce(states: seq<System>, steps: seq<Step>, i: nat, id: ResponseId)
    requires Run(states, steps) && i < |states|
    ensures states[i].calls[id] <= 1
  {
    hide Conversing, Rows, Turns, Next;
    RunKeepsInv(states, steps, i);
  }

  /** A conversation receives a Response's items exactly once if its row is completed, and never otherwise. */
  lemma TurnExactlyOnce(states: seq<System>, steps: seq<Step>, i: nat, id: ResponseId)
    requires Run(states, steps) && i < |states|
    ensures states[i].turns[id] <= 1
    ensures id in states[i].db ==>
              (states[i].turns[id] == 1 <==> states[i].db[id].attachment.Some? && states[i].db[id].phase.Completed?)
  {
    hide Conversing, Rows, Calls, Next;
    RunKeepsInv(states, steps, i);
  }

  /** A row that is gone or has ended. */
  ghost predicate Over(s: System, id: ResponseId) { id in s.used && (id in s.db ==> !s.db[id].phase.Active()) }

  /** Only the completion of a running row appends a turn for it. */
  lemma TurnNeedsRunningRow(s: System, step: Step, t: System, id: ResponseId)
    requires Inv(s) && Next(s, step, t) && Over(s, id)
    ensures Over(t, id) && t.turns[id] == s.turns[id]
  {
    hide Conversing, Calls, Turns, Known, StatementOf, TableStep, LocalStep, CompleteTx, Quiet;
    StepKeepsInv(s, step, t);
    if Sql(step) {
      StatementTurns(s, step, id);
    } else if Local(step) {
      LocalTurns(s, step, t);
    } else {
      TableTurns(s, step, t);
    }
  }

  lemma StatementTurns(s: System, step: Step, id: ResponseId)
    requires Sql(step) && step.epoch in s.workers && Issues(s.workers[step.epoch], step) && Over(s, id)
    ensures StatementOf(s, step).effect.turns[id] == s.turns[id]
  {
    hide CompleteTx, C.Turn;
    var pc := s.workers[step.epoch];
    if step.Complete? && CompleteTx(s, step.epoch, pc.job, pc.recorder, step.room).Commit? {
      CompletionEffect(s, step.epoch, pc.job, pc.recorder, step.room);
    }
  }

  lemma LocalTurns(s: System, step: Step, t: System)
    requires Local(step) && LocalStep(s, step, t)
    ensures t.turns == s.turns
  {
  }

  lemma TableTurns(s: System, step: Step, t: System)
    requires !Sql(step) && !Local(step) && TableStep(s, step, t)
    ensures t.turns == s.turns
  {
    hide C.AddItems, C.DeleteItem, C.Create, C.Delete, C.Turn, C.Snapshot;
  }

  /** After a cancel, a deletion, a failure or an interruption the row is over for good: its phase never changes
      again and no later commit, retried or not, appends its turn. */
  lemma {:induction false} OverForGood(states: seq<System>, steps: seq<Step>, i: nat, j: nat, id: ResponseId)
    requires Run(states, steps) && i <= j < |states| && Over(states[i], id)
    ensures Over(states[j], id) && states[j].turns[id] == states[i].turns[id]
    ensures id in states[j].db ==> id in states[i].db && states[j].db[id].phase == states[i].db[id].phase
    decreases j
  {
    hide Inv, Next, Evolves;
    if i < j {
      OverForGood(states, steps, i, j - 1, id);
      RunKeepsInv(states, steps, j - 1);
      TurnNeedsRunningRow(states[j - 1], steps[j - 1], states[j], id);
      StepKeepsInv(states[j - 1], steps[j - 1], states[j]);
      if id in states[j].db { OverStays(states[j - 1], states[j], id); }
    }
  }

  lemma OverStays(s: System, t: System, id: ResponseId)
    requires Evolves(s, t) && Over(s, id) && id in t.db
    ensures id in s.db && t.db[id].phase == s.db[id].phase
  {
  }

  // ------------------------------------------------------------ linearizability

  /** At an unchanged revision a conversation still holds exactly the same items. */
  lemma EqualRevisionEqualItems(states: seq<System>, steps: seq<Step>, i: nat, j: nat, id: C.ConversationId)
    requires Run(states, steps) && i <= j < |states|
    requires id in states[i].conversations && id in states[j].conversations
    requires states[i].conversations[id].revision == states[j].conversations[id].revision
    ensures states[i].conversations[id].items == states[j].conversations[id].items
  {
    hide Next, Rows, Turns, Calls, ResponsesEvolve, C.InOrder;
    RunKeepsInv(states, steps, i);
    RunEvolves(states, steps, i, j);
  }

  /** Every conversation stays within its item and byte limits. */
  lemma ConversationsStayBounded(states: seq<System>, steps: seq<Step>, i: nat, id: C.ConversationId)
    requires Run(states, steps) && i < |states| && id in states[i].conversations
    ensures var c := states[i].conversations[id];
            |c.items| <= C.MAX_ITEMS_PER_CONVERSATION && C.TotalBytes(C.InOrder(c.items)) <= C.MAX_CONVERSATION_BYTES
  {
    hide Next, Rows, Turns, Calls;
    RunKeepsInv(states, steps, i);
    assert C.ConversationOk(states[i].conversations[id]);
  }

  lemma KnownIsFaithful(s: System, a: C.Attachment)
    requires Conversing(s) && Known(s, Some(a))
    ensures Faithful(s, a) && C.TableOk(s.conversations)
  {
    hide C.TableOk;
  }

  /** When a background Response completes, its conversation becomes the history that was sent to the provider,
      followed by the new items and the provider's output, in ordinal order. */
  lemma CompletionExtendsHistory(states: seq<System>, steps: seq<Step>, i: nat)
    requires Run(states, steps) && i < |steps| && steps[i].Complete?
    requires states[i + 1].turns != states[i].turns
    ensures var s, t := states[i], states[i + 1];
            steps[i].epoch in s.workers && s.workers[steps[i].epoch].Completing? &&
            var job, r := s.workers[steps[i].epoch].job, s.workers[steps[i].epoch].recorder;
            job.id in s.db && s.db[job.id].phase.Running? && job.id in t.db && t.db[job.id].phase.Completed?
            && s.db[job.id].attachment == job.attachment && job.attachment.Some? &&
            var a := job.attachment.value;
            a.id in t.conversations && t.conversations[a.id].revision == a.revision + 1
            && C.InOrder(t.conversations[a.id].items) == a.history + a.newItems + r.output
  {
    hide Conversing, Calls, Turns, CompleteTx, C.Turn, C.InOrder, C.TableOk, Known;
    RunKeepsInv(states, steps, i);
    var s, t, e := states[i], states[i + 1], steps[i].epoch;
    assert Next(s, steps[i], t);
    var pc := s.workers[e];
    assert PcOk(s, pc);
    CompletionEffect(s, e, pc.job, pc.recorder, steps[i].room);
    CommittedTurn(s, e, pc.job, pc.recorder, steps[i].room);
    KnownIsFaithful(s, pc.job.attachment.value);
    C.TurnExtendsHistory(s.conversations, pc.job.attachment.value, pc.recorder.output, steps[i].room);
  }

  lemma CommittedTurn(s: System, e: Epoch, job: Job, r: Recorder, room: bool)
    requires job.attachment.Some? && r.requestId.Some? && CompleteTx(s, e, job, r, room).Commit?
    ensures var turn := C.Turn(s.conversations, job.attachment.value, r.output, room);
            turn.Committed? && CompleteTx(s, e, job, r, room).effect.conversations == turn.table
  {
    hide C.Turn;
  }

  // ------------------------------------------------- the stored rows of a turn

  /** A worker changes the conversation tables on behalf of Response `id`. */
  ghost predicate Stores(states: seq<System>, steps: seq<Step>, k: nat, id: ResponseId) {
    && k < |steps| && k + 1 < |states| && (Sql(steps[k]) || Local(steps[k]))
    && steps[k].epoch in states[k].workers && !states[k].workers[steps[k].epoch].Idle?
    && states[k].workers[steps[k].epoch].job.id == id && states[k + 1].conversations != states[k].conversations
  }

  /** Workers change conversations exactly when they append a turn. */
  lemma TurnStep(s: System, step: Step, t: System)
    requires Inv(s) && Next(s, step, t)
    ensures t.turns != s.turns ==>
              && step.Complete? && step.epoch in s.workers && s.workers[step.epoch].Completing?
              && t.turns == s.turns + multiset{s.workers[step.epoch].job.id} && t.conversations != s.conversations
    ensures (Sql(step) || Local(step)) && t.conversations != s.conversations ==> t.turns != s.turns
  {
    hide Conversing, Rows, Turns, Calls, TableStep, StatementOf;
    if step.Complete? {
      CompleteTurnStep(s, step, t);
    } else if Sql(step) {
      OtherStatementTurns(s, step);
    } else if Local(step) {
      LocalTurns(s, step, t);
    } else {
      TableTurns(s, step, t);
    }
  }

  lemma OtherStatementTurns(s: System, step: Step)
    requires Sql(step) && !step.Complete? && step.epoch in s.workers && Issues(s.workers[step.epoch], step)
    ensures var t := StatementOf(s, step).effect; t.turns == s.turns && t.conversations == s.conversations
  {
    hide CompleteTx, C.Turn;
  }

  lemma CompleteTurnStep(s: System, step: Step, t: System)
    requires Conversing(s) && step.Complete? && SqlStep(s, step, t)
    ensures t.turns == s.turns <==> t.conversations == s.conversations
    ensures t.turns != s.turns ==> t.turns == s.turns + multiset{s.workers[step.epoch].job.id}
  {
    hide Conversing, CompleteTx, C.Turn, C.TableOk, C.ConversationEvolves;
    var pc := s.workers[step.epoch];
    if CompleteTx(s, step.epoch, pc.job, pc.recorder, step.room).Commit? {
      CompletionEffect(s, step.epoch, pc.job, pc.recorder, step.room);
      CommittedTurn(s, step.epoch, pc.job, pc.recorder, step.room);
      TableIsOk(s);
      TurnKeeps(s.conversations, pc.job.attachment.value, pc.recorder.output, step.room);
    }
  }

  /** In the stored rows: a completed Response with a conversation was stored into it by exactly one step, and as the
      sent history, the new items and the output; no other worker step ever changes a conversation. */
  lemma TurnIsStoredOnce(states: seq<System>, steps: seq<Step>, i: nat, id: ResponseId)
    requires Run(states, steps) && i < |states| && id in states[i].db
    ensures states[i].db[id].attachment.Some? && states[i].db[id].phase.Completed? <==> exists k: nat :: k < i && Stores(states, steps, k, id)
    ensures forall k: nat, m: nat :: k < m < i && Stores(states, steps, k, id) ==> !Stores(states, steps, m, id)
    ensures forall k: nat :: k < i && Stores(states, steps, k, id) ==> StoredTurn(states[k], steps[k], states[k + 1])
  {
    hide Next, Inv;
    TurnExactlyOnce(states, steps, i, id);
    forall k: nat | k < i && Stores(states, steps, k, id)
      ensures states[i].turns[id] == 1 && StoredTurn(states[k], steps[k], states[k + 1])
      ensures forall m: nat :: k < m < i ==> !Stores(states, steps, m, id)
    {
      StoreCounts(states, steps, k, id);
      LaterStores(states, steps, k, i, id);
    }
    if states[i].turns[id] == 1 { SomeStepStored(states, steps, i, id); }
  }

  /** What a storing step leaves. */
  ghost predicate StoredTurn(s: System, step: Step, t: System) {
    step.Complete? && step.epoch in s.workers && s.workers[step.epoch].Completing? &&
    var job, r := s.workers[step.epoch].job, s.workers[step.epoch].recorder;
    job.attachment.Some? &&
    var a := job.attachment.value;
    a.id in t.conversations && C.InOrder(t.conversations[a.id].items) == a.history + a.newItems + r.output
  }

  lemma StoreCounts(states: seq<System>, steps: seq<Step>, k: nat, id: ResponseId)
    requires Run(states, steps) && Stores(states, steps, k, id)
    ensures states[k + 1].turns[id] == states[k].turns[id] + 1 && StoredTurn(states[k], steps[k], states[k + 1])
  {
    hide Next, Inv, C.InOrder;
    RunKeepsInv(states, steps, k);
    TurnStep(states[k], steps[k], states[k + 1]);
    CompletionExtendsHistory(states, steps, k);
  }

  lemma LaterStores(states: seq<System>, steps: seq<Step>, k: nat, i: nat, id: ResponseId)
    requires Run(states, steps) && k < i < |states| && Stores(states, steps, k, id)
    ensures states[i].turns[id] == 1
    ensures forall m: nat :: k < m < i ==> !Stores(states, steps, m, id)
  {
    hide Next, Inv, Stores, ConversationsEvolve, ResponsesEvolve;
    StoreCounts(states, steps, k, id);
    TurnsBounded(states, steps, i, id);
    RunEvolves(states, steps, k + 1, i);
    forall m: nat | k < m < i ensures !Stores(states, steps, m, id) {
      if Stores(states, steps, m, id) {
        StoreCounts(states, steps, m, id);
        TurnsBounded(states, steps, m + 1, id);
        RunEvolves(states, steps, k + 1, m);
      }
    }
  }

  lemma TurnsBounded(states: seq<System>, steps: seq<Step>, i: nat, id: ResponseId)
    requires Run(states, steps) && i < |states|
    ensures states[i].turns[id] <= 1
  {
    hide Conversing, Rows, Calls, Next;
    RunKeepsInv(states, steps, i);
  }

  lemma {:induction false} SomeStepStored(states: seq<System>, steps: seq<Step>, i: nat, id: ResponseId)
    requires Run(states, steps) && i < |states| && states[i].turns[id] == 1
    ensures exists k: nat :: k < i && Stores(states, steps, k, id)
  {
    hide Next, Inv;
    if i > 0 {
      TurnsBounded(states, steps, i - 1, id);
      if states[i - 1].turns[id] == 1 {
        SomeStepStored(states, steps, i - 1, id);
      } else {
        RunKeepsInv(states, steps, i - 1);
        TurnStep(states[i - 1], steps[i - 1], states[i]);
        assert Stores(states, steps, i - 1, id);
      }
    }
  }

  /** The same for a foreground turn, which moreover commits at most once however often its commit is tried. */
  lemma ForegroundExtendsHistory(states: seq<System>, steps: seq<Step>, i: nat, h: nat)
    requires Run(states, steps) && i < |steps| && steps[i].ForegroundTurn? && steps[i].handle == h
    ensures states[i + 1].foreground[h] <= 1
    ensures states[i + 1].foreground != states[i].foreground ==>
              var t, a := states[i + 1], states[i].attachments[h];
              h in states[i].attachments && a.id in t.conversations
              && C.InOrder(t.conversations[a.id].items) == a.history + a.newItems + steps[i].output
  {
    hide Rows, Calls, Turns, C.Turn, C.InOrder, C.TableOk;
    RunKeepsInv(states, steps, i);
    RunKeepsInv(states, steps, i + 1);
    var s, t := states[i], states[i + 1];
    assert Next(s, steps[i], t);
    if t.foreground != s.foreground {
      C.TurnExtendsHistory(s.conversations, s.attachments[h], steps[i].output, steps[i].room);
    }
  }

  /** What the provider is sent, history and new items, is what the conversation held at the remembered revision. */
  lemma SnapshotIsHistory(states: seq<System>, steps: seq<Step>, i: nat, h: nat)
    requires Run(states, steps) && i < |states| && h in states[i].attachments
    ensures var a := states[i].attachments[h];
            a.id in states[i].conversations && states[i].conversations[a.id].revision == a.revision ==>
              C.InOrder(states[i].conversations[a.id].items) == a.history
  {
    hide Rows, Calls, Turns, Next, C.InOrder;
    RunKeepsInv(states, steps, i);
    assert Faithful(states[i], states[i].attachments[h]);
  }
}
