/** Background work joined with the failover loop: which provider dispatches a batch item or a background Response
    causes over a whole run. A `Call` step of either machine is one forwarded request, and that request is one pass of
    `Failover.Forward` over its plan. A dispatch is one attempt at one target; an attempt of hosted file search sends its
    single target several requests, which `FileSearchLoop` bounds. */
module Dispatches {
  import opened Common
  import J = Json
  import F = Failover
  import L = BatchLines
  import B = BatchMachine
  import BS = BatchSafety
  import BR = BatchRuns
  import R = ResponseMachine
  import RS = ResponseSafety
  import RR = ResponseRuns

  /** One forwarded request: its plan, and how many of the dispatches that the plan leads to happened before the request
      ended or its process was stopped. */
  datatype Forwarding = Forwarding(config: F.Config, targets: seq<F.Target>, reached: nat)
  {
    predicate Valid() {
      && config.Valid() && !config.stream && (forall i :: 0 <= i < |targets| ==> targets[i].Valid(config))
      && reached <= F.DispatchCount(config, targets)
    }

    predicate Finished() { reached == F.DispatchCount(config, targets) }
  }

  /** Which key, if any, a request is forwarded for at each step. */
  type Calls<K> = seq<Option<K>>

  type ItemKey = (B.BatchId, nat)

  /** The targets that a run dispatches to on behalf of one key. */
  ghost function DispatchedFor<K>(calls: Calls<K>, forwards: seq<Forwarding>, key: K): seq<nat>
    requires |forwards| == |calls|
  {
    if calls == [] then []
    else
      var n := |calls| - 1;
      DispatchedFor(calls[..n], forwards[..n], key) + if calls[n] == Some(key) then F.UpTo(forwards[n].reached) else []
  }

  lemma {:induction false} NoCallNoDispatch<K>(calls: Calls<K>, forwards: seq<Forwarding>, key: K)
    requires |forwards| == |calls| && forall i :: 0 <= i < |calls| ==> calls[i] != Some(key)
    ensures DispatchedFor(calls, forwards, key) == []
  {
    if calls != [] { NoCallNoDispatch(calls[..|calls| - 1], forwards[..|calls| - 1], key); }
  }

  lemma {:induction false} OneCallDispatches<K>(calls: Calls<K>, forwards: seq<Forwarding>, key: K, k: nat)
    requires |forwards| == |calls| && k < |calls| && calls[k] == Some(key)
    requires forall i :: 0 <= i < |calls| && i != k ==> calls[i] != Some(key)
    ensures DispatchedFor(calls, forwards, key) == F.UpTo(forwards[k].reached)
  {
    hide F.UpTo;
    var n := |calls| - 1;
    if k == n {
      NoCallNoDispatch(calls[..n], forwards[..n], key);
    } else {
      OneCallDispatches(calls[..n], forwards[..n], key, k);
    }
  }

  // -------------------------------------------------------------- batch items

  ghost predicate IsCall(states: seq<B.System>, steps: seq<B.Step>, i: nat) {
    i < |steps| && i < |states| && steps[i].Call? && steps[i].epoch in states[i].workers && !states[i].workers[steps[i].epoch].Idle?
  }

  ghost function JobAt(states: seq<B.System>, steps: seq<B.Step>, i: nat): B.Job
    requires IsCall(states, steps, i)
  {
    states[i].workers[steps[i].epoch].job
  }

  ghost function BatchCalls(states: seq<B.System>, steps: seq<B.Step>): Calls<ItemKey> {
    seq(|steps|, i requires 0 <= i < |steps| =>
      if IsCall(states, steps, i) then Some(BR.KeyOf(JobAt(states, steps, i))) else None)
  }

  /** What is known of the requests that batch items are forwarded with: those of OpenAI Batches are never retried. */
  ghost predicate BatchForwards(states: seq<B.System>, steps: seq<B.Step>, forwards: seq<Forwarding>) {
    |forwards| == |steps|
    && forall i :: 0 <= i < |steps| && IsCall(states, steps, i) ==>
         forwards[i].Valid() && (JobAt(states, steps, i).kind.OpenAIBatch? ==> forwards[i].config.single)
  }

  lemma CallIsCounted(s: B.System, step: B.Step, t: B.System)
    requires step.Call? && B.Next(s, step, t)
    ensures step.epoch in s.workers && !s.workers[step.epoch].Idle?
            && t.calls == s.calls + multiset{BR.KeyOf(s.workers[step.epoch].job)}
  {
  }

  lemma CallsDiffer(states: seq<B.System>, steps: seq<B.Step>, i: nat, j: nat)
    requires B.Run(states, steps) && i < j && IsCall(states, steps, i) && IsCall(states, steps, j)
    ensures BR.KeyOf(JobAt(states, steps, i)) != BR.KeyOf(JobAt(states, steps, j))
  {
    hide B.Next, BS.Rows, BR.Finalized, BR.BatchEvolves;
    CallIsCounted(states[i], steps[i], states[i + 1]);
    CallIsCounted(states[j], steps[j], states[j + 1]);
    BR.RunEvolves(states, steps, i + 1, j);
    BR.RunKeepsInv(states, steps, j + 1);
    var key := BR.KeyOf(JobAt(states, steps, i));
    assert 1 <= states[i + 1].calls[key] <= states[j].calls[key];
    assert states[j + 1].calls[key] <= 1;
  }

  /** Over a whole run the dispatches for a batch item are those of the one request it is forwarded with: each planned
      target at most once and in the order of the plan. If that request ran to its end, a second provider was reached if
      and only if the first dispatch met the retry guard and the wait for it ended. */
  lemma ItemDispatches(states: seq<B.System>, steps: seq<B.Step>, forwards: seq<Forwarding>, k: nat)
    requires B.Run(states, steps) && BatchForwards(states, steps, forwards) && IsCall(states, steps, k)
    ensures var f := forwards[k];
            var sent := DispatchedFor(BatchCalls(states, steps), forwards, BR.KeyOf(JobAt(states, steps, k)));
            && sent == F.UpTo(f.reached) && |sent| <= |f.targets|
            && (JobAt(states, steps, k).kind.OpenAIBatch? ==> |sent| <= 1)
            && (f.Finished() ==> (1 < |sent| <==> 1 < |f.targets| && f.targets[1].Dispatches() && F.GoesOn(f.config, f.targets, 0)))
  {
    hide B.Run, B.Next, F.DispatchCount, F.GoesOn, F.Target.Valid;
    var calls, key, f := BatchCalls(states, steps), BR.KeyOf(JobAt(states, steps, k)), forwards[k];
    forall i | 0 <= i < |calls| && i != k ensures calls[i] != Some(key) {
      if IsCall(states, steps, i) {
        if i < k { CallsDiffer(states, steps, i, k); } else { CallsDiffer(states, steps, k, i); }
      }
    }
    OneCallDispatches(calls, forwards, key, k);
    F.DispatchesAreBounded(f.config, f.targets);
    F.LaterDispatch(f.config, f.targets, 1);
  }

  /** The jobs that workers hold after a step were held before it or describe a stored batch. */
  lemma StepJobs(s: B.System, step: B.Step, t: B.System)
    requires BR.Inv(s) && B.Next(s, step, t)
    ensures forall e :: e in t.workers && !t.workers[e].Idle? ==>
              var job := t.workers[e].job;
              (e in s.workers && !s.workers[e].Idle? && s.workers[e].job == job) || (job.id in s.db && job.kind == s.db[job.id].kind)
  {
    hide BR.Inv, B.NoticeFinish, B.Check, B.Judge, B.StartFinish, B.PutItem, B.FinishItem,
      B.CanArm, B.CanStore, B.CanFinish, B.RecoverItem, B.StopItem, B.CancelBatch, B.EndIfDone, B.NewBatch, B.CanFinalize, B.Finalize;
    if B.Works(step) && step.epoch in s.workers && !s.workers[step.epoch].Idle? && s.workers[step.epoch].job.total <= 4 {
      var pc := s.workers[step.epoch];
      match step {
        case ReadCancel(_, readOk, contextCanceled) => BR.CheckKeepsJob(pc.job, readOk, B.Flag(s, pc.job), s.now, contextCanceled);
        case Decide(_, readOk, contextCanceled) =>
          if pc.Returned? { BR.JudgeKeepsJob(pc.job, pc.recorder, readOk, B.Flag(s, pc.job), s.now, contextCanceled); }
        case Refuse(e, notice) => if pc.Ready? { BR.StartFinishKeepsJob(s, e, notice); }
        case Store(_, _) => if pc.Storing? { BR.FinishAfterStore(pc); }
        case _ =>
      }
    }
  }

  ghost predicate JobsSay(s: B.System, id: B.BatchId, kind: B.Kind) {
    forall e :: e in s.workers && !s.workers[e].Idle? && s.workers[e].job.id == id ==> s.workers[e].job.kind == kind
  }

  /** Once a batch exists every worker that remembers an item of it remembers its kind, even after its deletion. */
  lemma {:induction false} KindIsRemembered(states: seq<B.System>, steps: seq<B.Step>, i: nat, k: nat, id: B.BatchId)
    requires B.Run(states, steps) && i <= k < |states| && id in states[i].db
    ensures JobsSay(states[k], id, states[i].db[id].kind)
    decreases k
  {
    hide B.Next, BR.Calls, BR.Finalized, BS.BatchOk;
    BR.RunKeepsInv(states, steps, i);
    if i < k {
      KindIsRemembered(states, steps, i, k - 1, id);
      BR.RunKeepsInv(states, steps, k - 1);
      StepJobs(states[k - 1], steps[k - 1], states[k]);
      BR.RunEvolves(states, steps, i, k - 1);
    } else {
      forall e | e in states[i].workers && !states[i].workers[e].Idle? && states[i].workers[e].job.id == id
        ensures states[i].workers[e].job.kind == states[i].db[id].kind
      {
        assert BS.PcOk(states[i], states[i].workers[e]);
      }
    }
  }

  lemma KindOfCall(states: seq<B.System>, steps: seq<B.Step>, i: nat, k: nat)
    requires B.Run(states, steps) && IsCall(states, steps, k) && i < |states| && JobAt(states, steps, k).id in states[i].db
    ensures JobAt(states, steps, k).kind == states[i].db[JobAt(states, steps, k).id].kind
  {
    hide B.Next, BR.Calls, BR.Finalized, BS.BatchOk;
    if i <= k {
      KindIsRemembered(states, steps, i, k, JobAt(states, steps, k).id);
    } else {
      BR.RunKeepsInv(states, steps, k);
      assert BS.PcOk(states[k], states[k].workers[steps[k].epoch]);
      BR.RunEvolves(states, steps, k, i);
    }
  }

  /** An item of an OpenAI Batch causes at most one dispatch in a whole run. */
  lemma OpenAIItemIsDispatchedOnce(states: seq<B.System>, steps: seq<B.Step>, forwards: seq<Forwarding>, i: nat, id: B.BatchId, index: nat)
    requires B.Run(states, steps) && BatchForwards(states, steps, forwards)
    requires i < |states| && id in states[i].db && states[i].db[id].kind.OpenAIBatch?
    ensures |DispatchedFor(BatchCalls(states, steps), forwards, (id, index))| <= 1
  {
    hide B.Run, B.Next, F.DispatchCount, F.GoesOn, F.Target.Valid;
    var calls := BatchCalls(states, steps);
    if k :| 0 <= k < |calls| && calls[k] == Some((id, index)) {
      assert IsCall(states, steps, k);
      KindOfCall(states, steps, i, k);
      ItemDispatches(states, steps, forwards, k);
    } else {
      NoCallNoDispatch(calls, forwards, (id, index));
    }
  }

  // ----------------------------------------------- a Message Batch item sent twice

  const ITEM := B.Item("a", "r", 0, L.Queued, 0, None, false, true, L.Queued)
  const BATCH := B.Batch(B.MessageBatch, 1, 1, B.InProgress, false, 10, 1, [ITEM], None)
  const JOB := B.Job(0, 0, B.MessageBatch, "a", "r", 1, 10)
  const ANSWER := B.Recorder(true, true, true, false, 200, true, "{}", Some("{}"), None, None, None, "")

  /** One process that creates a batch of one item and carries it up to its call, and the states it goes through. */
  const SHORT_RUN: seq<B.Step> :=
    [B.Create(0, BATCH), B.Boot(1), B.Claim(1, 0, 0, Done), B.Arm(1, Done), B.ReadCancel(1, true, false), B.Call(1, ANSWER)]

  function ShortState(n: nat): B.System {
    var state := if n <= 2 then L.Queued else if n == 3 then L.Claimed else L.Dispatching;
    var item := ITEM.(state := state, lease := if n <= 2 then 0 else 1);
    B.System(if n == 0 then map[] else map[0 := BATCH.(items := [item])], 0,
             if n <= 1 then map[]
             else map[1 := if n == 2 then B.Idle else if n == 3 then B.Ready(JOB) else if n == 4 then B.Armed(JOB)
                           else if n == 5 then B.Cleared(JOB) else B.Returned(JOB, ANSWER)],
             if n == 0 then {} else {0}, if n <= 1 then {} else {1},
             if n <= 5 then multiset{} else multiset{(0, 0)}, multiset{})
  }

  lemma ShortRunBegins()
    ensures B.Next(ShortState(0), SHORT_RUN[0], ShortState(1)) && B.Next(ShortState(1), SHORT_RUN[1], ShortState(2))
  {
    hide J.Leads;
  }

  lemma ShortRunClaims()
    ensures B.Next(ShortState(2), SHORT_RUN[2], ShortState(3))
  {
    hide J.Leads;
    var s, t := ShortState(2), ShortState(3);
    assert B.Claimable(s, 0, 0) && B.JobOf(s, 0, 0) == JOB;
    assert s.db[0].items[0 := t.db[0].items[0]] == t.db[0].items;
  }

  lemma ShortRunArms()
    ensures B.Next(ShortState(3), SHORT_RUN[3], ShortState(4))
  {
    hide J.Leads;
    var s, t := ShortState(3), ShortState(4);
    assert B.CanArm(s, 1, JOB);
    assert s.db[0].items[0 := t.db[0].items[0]] == t.db[0].items;
    assert B.DoArm(s, JOB) == t.(workers := s.workers);
    assert t == B.SetPc(B.DoArm(s, JOB), 1, B.Armed(JOB));
  }

  lemma ShortRunCalls()
    ensures B.Next(ShortState(4), SHORT_RUN[4], ShortState(5)) && B.Next(ShortState(5), SHORT_RUN[5], ShortState(6))
  {
    hide J.Leads, B.Judge, B.StartFinish, B.NoticeFinish;
  }

  /** An item of a Message Batch can be sent to two providers: the first answers 503, the second 200. */
  lemma MessageItemReachesTwoProviders()
    ensures exists states, steps, forwards ::
              B.Run(states, steps) && BatchForwards(states, steps, forwards)
              && DispatchedFor(BatchCalls(states, steps), forwards, (0, 0)) == [0, 1]
  {
    hide B.Next, ShortState, J.Leads;
    var states := seq(7, n requires 0 <= n < 7 => ShortState(n));
    ShortRunBegins();
    ShortRunClaims();
    ShortRunArms();
    ShortRunCalls();
    var targets := [F.PlainTarget(503, true), F.PlainTarget(200, true)];
    F.SecondProvider();
    var forwards := seq(6, n => Forwarding(F.PLAIN_REQUEST, targets, 2));
    ShortCall(states);
    assert B.Run(states, SHORT_RUN);
    ItemDispatches(states, SHORT_RUN, forwards, 5);
    assert F.UpTo(2) == [0, 1];
  }

  lemma ShortCall(states: seq<B.System>)
    requires |states| == 7 && forall n :: 0 <= n < 7 ==> states[n] == ShortState(n)
    ensures B.Init(states[0]) && IsCall(states, SHORT_RUN, 5) && JobAt(states, SHORT_RUN, 5) == JOB
    ensures forall n :: 0 <= n < 6 && IsCall(states, SHORT_RUN, n) ==> n == 5
  {
    hide J.Leads;
    assert states[5].workers == map[1 := B.Cleared(JOB)];
  }

  // ------------------------------------------------------ background Responses

  ghost predicate IsResponseCall(states: seq<R.System>, steps: seq<R.Step>, i: nat) {
    i < |steps| && i < |states| && steps[i].Call? && steps[i].epoch in states[i].workers && !states[i].workers[steps[i].epoch].Idle?
  }

  ghost function ResponseAt(states: seq<R.System>, steps: seq<R.Step>, i: nat): R.ResponseId
    requires IsResponseCall(states, steps, i)
  {
    states[i].workers[steps[i].epoch].job.id
  }

  ghost function ResponseCalls(states: seq<R.System>, steps: seq<R.Step>): Calls<R.ResponseId> {
    seq(|steps|, i requires 0 <= i < |steps| => if IsResponseCall(states, steps, i) then Some(ResponseAt(states, steps, i)) else None)
  }

  ghost predicate ResponseForwards(states: seq<R.System>, steps: seq<R.Step>, forwards: seq<Forwarding>) {
    |forwards| == |steps|
    && forall i :: 0 <= i < |steps| && IsResponseCall(states, steps, i) ==> forwards[i].Valid()
  }

  lemma ResponseCallIsCounted(s: R.System, step: R.Step, t: R.System)
    requires step.Call? && R.Next(s, step, t)
    ensures step.epoch in s.workers && !s.workers[step.epoch].Idle? && t.calls == s.calls + multiset{s.workers[step.epoch].job.id}
  {
  }

  lemma ResponseCallsDiffer(states: seq<R.System>, steps: seq<R.Step>, i: nat, j: nat)
    requires R.Run(states, steps) && i < j && IsResponseCall(states, steps, i) && IsResponseCall(states, steps, j)
    ensures ResponseAt(states, steps, i) != ResponseAt(states, steps, j)
  {
    hide R.Next, RS.Conversing, RS.Rows, RS.Turns, RS.ConversationsEvolve, RS.ResponsesEvolve;
    ResponseCallIsCounted(states[i], steps[i], states[i + 1]);
    ResponseCallIsCounted(states[j], steps[j], states[j + 1]);
    RR.RunEvolves(states, steps, i + 1, j);
    RR.RunKeepsInv(states, steps, j + 1);
    var id := ResponseAt(states, steps, i);
    assert 1 <= states[i + 1].calls[id] <= states[j].calls[id];
    assert states[j + 1].calls[id] <= 1;
  }

  /** The same for background Responses, which are retried like any other request unless their own tools forbid it. */
  lemma ResponseDispatches(states: seq<R.System>, steps: seq<R.Step>, forwards: seq<Forwarding>, k: nat)
    requires R.Run(states, steps) && ResponseForwards(states, steps, forwards) && IsResponseCall(states, steps, k)
    ensures var f := forwards[k];
            var sent := DispatchedFor(ResponseCalls(states, steps), forwards, ResponseAt(states, steps, k));
            && sent == F.UpTo(f.reached) && |sent| <= |f.targets| && (f.config.single ==> |sent| <= 1)
            && (f.Finished() ==> (1 < |sent| <==> 1 < |f.targets| && f.targets[1].Dispatches() && F.GoesOn(f.config, f.targets, 0)))
  {
    hide R.Run, R.Next, F.DispatchCount, F.GoesOn, F.Target.Valid;
    var calls, key, f := ResponseCalls(states, steps), ResponseAt(states, steps, k), forwards[k];
    forall i | 0 <= i < |calls| && i != k ensures calls[i] != Some(key) {
      if IsResponseCall(states, steps, i) {
        if i < k { ResponseCallsDiffer(states, steps, i, k); } else { ResponseCallsDiffer(states, steps, k, i); }
      }
    }
    OneCallDispatches(calls, forwards, key, k);
    F.DispatchesAreBounded(f.config, f.targets);
    F.LaterDispatch(f.config, f.targets, 1);
  }
}
