/** What a worker makes of the checks before the provider call and of the outcome after it. */
module BatchOutcomes {
  import opened BatchLines
  import opened BatchMachine
  import opened Common
  import opened Json
  import opened BatchSafety
  import opened LineReading

  /** The attempt was settled as a success or a failure, so what the provider did is known. */
  predicate Completed(r: Recorder) { r.attempted && r.settled && (r.succeeded || r.failed) }

  /** The provider gave an answer that the kind of Batch counts as a success. */
  predicate Good(r: Recorder, kind: Kind) {
    Completed(r) && 200 <= r.status < 300
    && if kind.OpenAIBatch? then r.validJson && r.rewritten.Some? else r.succeeded && r.message.Some?
  }

  /** The gateway itself ends the item: the outcome is unknown, and a cancel was read, the deadline is past, or the
      context of a Message Batch item was canceled. */
  predicate Stopped(job: Job, r: Recorder, readOk: bool, flag: bool, now: int, contextCanceled: bool) {
    !Completed(r) && ((readOk && flag) || job.deadline <= now || (job.kind.MessageBatch? && contextCanceled))
  }

  predicate JobLimits(job: Job) { 1 <= job.total <= MAX_ITEMS && 0 < |job.customId| <= 64 && 0 < |job.resultId| <= 128 }

  /** The text of a line, not its record, is within the limit of its table. */
  predicate FitsTable(job: Job, line: Line)
    requires 1 <= job.total <= MAX_ITEMS
  {
    |Render(line)| <= if job.kind.OpenAIBatch? then LineLimit(job.total) else MAX_INFERENCE_BODY
  }

  /** The line for a good outcome: the ids of the request, and the status, request id and body of the provider. */
  function GoodLine(job: Job, r: Recorder): Line
    requires Good(r, job.kind)
  {
    if job.kind.OpenAIBatch? then OpenAI(Success(job.resultId, job.customId, r.status, r.requestId, r.rewritten.value))
    else Anthropic(Message(job.customId, r.message.value))
  }

  /** The first text that is not empty. */
  function First(texts: seq<string>): string {
    if texts == [] then "" else if texts[0] != "" then texts[0] else First(texts[1..])
  }

  /** The error in the provider's own words, if it gave one. Of an OpenAI Batch answer that was good but for a body that
      cannot be rewritten, nothing is kept. */
  function ProviderWords(job: Job, r: Recorder): Option<Line> {
    if job.kind.MessageBatch? then
      (match r.errorObject case Some(error) => Some(Anthropic(Errored(job.customId, error))) case None => None)
    else if r.body == "" || (Completed(r) && 200 <= r.status < 300 && r.validJson) then None
    else
      var (code, kind, message) := if r.providerError.Some? then r.providerError.value else ("", "", "");
      Some(OpenAI(Failure(job.resultId, job.customId, First([code, kind, "request_failed"]), First([message, "The request failed."]))))
  }

  // ------------------------------------------------------------------ bounding

  lemma BoundLine(job: Job, state: ItemState, line: Line)
    requires JobLimits(job) && line.OpenAI? == job.kind.OpenAIBatch?
    ensures Bound(job, state, line)
            == if FitsTable(job, line) then (line, state) else (Notify(job.kind, job.resultId, job.customId, TooLarge), Failed)
  {
    hide Render, OpenAISize, MessageSize;
    RenderIsOneLine(line);
  }

  lemma NoticeFits(job: Job, n: Notice)
    requires JobLimits(job)
    ensures FitsTable(job, Notify(job.kind, job.resultId, job.customId, n))
  {
    hide Render, OpenAISize, MessageSize, Notify;
    NotifyOk(job.kind, job.total, job.resultId, job.customId, n, Failed);
    RenderIsOneLine(Notify(job.kind, job.resultId, job.customId, n));
    NotifyKind(job.kind, job.resultId, job.customId, n);
  }

  lemma NotifyKind(kind: Kind, resultId: string, customId: string, n: Notice)
    ensures Notify(kind, resultId, customId, n).OpenAI? == kind.OpenAIBatch?
  {
  }

  lemma StopFits(job: Job, canceled: bool, started: bool)
    requires JobLimits(job)
    ensures FitsTable(job, StopLine(job.kind, job.resultId, job.customId, canceled, started))
    ensures StopLine(job.kind, job.resultId, job.customId, canceled, started).OpenAI? == job.kind.OpenAIBatch?
  {
    hide Render, OpenAISize, MessageSize, StopLine;
    StopLineOk(job.kind, job.total, job.resultId, job.customId, canceled, started);
    RenderIsOneLine(StopLine(job.kind, job.resultId, job.customId, canceled, started));
  }

  lemma FinishFitting(job: Job, state: ItemState, line: Line, linked: bool)
    requires JobLimits(job) && line.OpenAI? == job.kind.OpenAIBatch?
    ensures FitsTable(job, line) ==> StartFinish(job, state, line, linked) == Finishing(job, state, line, linked)
    ensures !FitsTable(job, line) ==>
              StartFinish(job, state, line, linked)
              == Finishing(job, Failed, Notify(job.kind, job.resultId, job.customId, TooLarge), linked)
  {
    hide Bound, FitsTable, Notify;
    BoundLine(job, state, line);
  }

  // ------------------------------------------------------------ after the call

  /** The worker goes on with this state and line: it stores them first when the request got an id. */
  ghost predicate GoesOn(pc: Pc, job: Job, r: Recorder, state: ItemState, line: Line) {
    pc == if r.requestId != "" then Storing(job, state, line, true) else Finishing(job, state, line, false)
  }

  lemma JudgeUnstopped(job: Job, r: Recorder, readOk: bool, flag: bool, now: int, contextCanceled: bool)
    requires JobLimits(job) && !Stopped(job, r, readOk, flag, now, contextCanceled)
    ensures var (line, state) := Outcome(job, r);
            line.OpenAI? == job.kind.OpenAIBatch?
            && GoesOn(Judge(job, r, readOk, flag, now, contextCanceled), job, r, if FitsTable(job, line) then state else Failed,
                      if FitsTable(job, line) then line else Notify(job.kind, job.resultId, job.customId, TooLarge))
  {
    hide Outcome, Bound, StartFinish, FitsTable, Notify;
    OutcomeKind(job, r);
    var (line, state) := Outcome(job, r);
    BoundLine(job, state, line);
    FinishFitting(job, state, line, false);
    var tooLarge := Notify(job.kind, job.resultId, job.customId, TooLarge);
    NoticeFits(job, TooLarge);
    NotifyKind(job.kind, job.resultId, job.customId, TooLarge);
    FinishFitting(job, Failed, tooLarge, false);
  }

  lemma OutcomeKind(job: Job, r: Recorder)
    ensures Outcome(job, r).0.OpenAI? == job.kind.OpenAIBatch?
  {
  }

  lemma GoodOutcome(job: Job, r: Recorder)
    requires Good(r, job.kind)
    ensures Outcome(job, r) == (GoodLine(job, r), Succeeded)
  {
  }

  lemma FirstIs(a: string, b: string, c: string)
    requires c != ""
    ensures First([a, b, c]) == if a != "" then a else if b != "" then b else c
    ensures First([a, c]) == if a != "" then a else c
  {
    assert [a, b, c][1..] == [b, c] && [b, c][1..] == [c] && [a, c][1..] == [c];
    assert First([b, c]) == if b != "" then b else First([c]);
  }

  lemma BadOutcome(job: Job, r: Recorder)
    requires !Good(r, job.kind)
    ensures Outcome(job, r)
            == var words := ProviderWords(job, r);
               (if words.Some? then words.value else Notify(job.kind, job.resultId, job.customId, NotCompleted), Failed)
  {
    hide First;
    var (code, kind, message) := if r.providerError.Some? then r.providerError.value else ("", "", "");
    FirstIs(code, kind, "request_failed");
    FirstIs(message, "", "The request failed.");
  }

  /** A good provider outcome becomes a success that carries the provider's answer, if and only if its line fits; a
      good answer that does not fit is a failure that says so; a cancel or the deadline no longer changes either. */
  lemma GoodAnswerSucceeds(job: Job, r: Recorder, readOk: bool, flag: bool, now: int, contextCanceled: bool)
    requires JobLimits(job)
    ensures var pc := Judge(job, r, readOk, flag, now, contextCanceled);
            && (pc.Storing? || pc.Finishing?)
            && (pc.state.Succeeded? <==> Good(r, job.kind) && FitsTable(job, GoodLine(job, r)))
            && (Good(r, job.kind) ==>
                  GoesOn(pc, job, r, if FitsTable(job, GoodLine(job, r)) then Succeeded else Failed,
                         if FitsTable(job, GoodLine(job, r)) then GoodLine(job, r)
                         else Notify(job.kind, job.resultId, job.customId, TooLarge)))
  {
    hide Judge, Outcome, FitsTable, Notify, StopLine;
    if Good(r, job.kind) {
      GoodOutcome(job, r);
      JudgeUnstopped(job, r, readOk, flag, now, contextCanceled);
    } else if Stopped(job, r, readOk, flag, now, contextCanceled) {
      StoppedItemEnds(job, r, readOk, flag, now, contextCanceled);
    } else {
      BadOutcome(job, r);
      JudgeUnstopped(job, r, readOk, flag, now, contextCanceled);
    }
  }

  /** Any other outcome that is not stopped fails with the provider's own error when there is one and it fits. */
  lemma BadAnswerKeepsItsError(job: Job, r: Recorder, readOk: bool, flag: bool, now: int, contextCanceled: bool)
    requires JobLimits(job) && !Good(r, job.kind) && !Stopped(job, r, readOk, flag, now, contextCanceled)
    ensures var words := ProviderWords(job, r);
            GoesOn(Judge(job, r, readOk, flag, now, contextCanceled), job, r, Failed,
                   if words.None? then Notify(job.kind, job.resultId, job.customId, NotCompleted)
                   else if FitsTable(job, words.value) then words.value
                   else Notify(job.kind, job.resultId, job.customId, TooLarge))
  {
    hide Judge, Outcome, FitsTable, Notify, ProviderWords, Good;
    BadOutcome(job, r);
    JudgeUnstopped(job, r, readOk, flag, now, contextCanceled);
    NoticeFits(job, NotCompleted);
  }

  /** The gateway cancels or expires a called item if and only if the outcome is unknown and it has a cause: first a cancel
      request it could read, then the deadline, then a canceled context. The line says which, and nothing is stored in
      `settling` first. */
  lemma StoppedItemEnds(job: Job, r: Recorder, readOk: bool, flag: bool, now: int, contextCanceled: bool)
    requires JobLimits(job)
    ensures var pc := Judge(job, r, readOk, flag, now, contextCanceled);
            && (pc.Storing? || pc.Finishing?)
            && (pc.state.Canceled? || pc.state.Expired? <==> Stopped(job, r, readOk, flag, now, contextCanceled))
            && (Stopped(job, r, readOk, flag, now, contextCanceled) ==>
                  var canceled := (readOk && flag) || now < job.deadline;
                  pc == Finishing(job, if canceled then Canceled else Expired, StoppedLine(job, canceled, true), r.requestId != ""))
  {
    hide Outcome, FitsTable, Notify, StopLine, StartFinish, Bound;
    if Stopped(job, r, readOk, flag, now, contextCanceled) {
      var canceled := (readOk && flag) || now < job.deadline;
      StopFits(job, canceled, true);
      FinishFitting(job, if canceled then Canceled else Expired, StopLine(job.kind, job.resultId, job.customId, canceled, true),
                    r.requestId != "");
      StoppedLineIs(job, canceled, true);
    } else if Good(r, job.kind) {
      GoodOutcome(job, r);
      JudgeUnstopped(job, r, readOk, flag, now, contextCanceled);
    } else {
      BadOutcome(job, r);
      JudgeUnstopped(job, r, readOk, flag, now, contextCanceled);
    }
  }

  /** What a client reads about an item the gateway stopped. */
  function StoppedLine(job: Job, canceled: bool, called: bool): Line {
    if job.kind.MessageBatch? then Anthropic(Result(job.customId, canceled))
    else OpenAI(Gateway(job.resultId, job.customId,
                        match (canceled, called)
                        case (true, true) => CancelledDuring
                        case (true, false) => CancelledBefore
                        case (false, true) => ExpiredDuring
                        case (false, false) => ExpiredBefore))
  }

  lemma StoppedLineIs(job: Job, canceled: bool, called: bool)
    ensures StopLine(job.kind, job.resultId, job.customId, canceled, called) == StoppedLine(job, canceled, called)
  {
  }

  // ----------------------------------------------------------- before the call

  /** The provider is called if and only if the cancel flag could be read and is not set, the deadline is ahead, and the
      context of a Message Batch item is alive; otherwise the item ends for the first cause that holds. */
  lemma CheckedItemIsCalled(job: Job, readOk: bool, flag: bool, now: int, contextCanceled: bool)
    requires JobLimits(job)
    ensures var pc := Check(job, readOk, flag, now, contextCanceled);
            var gone := job.kind.MessageBatch? && contextCanceled;
            && (pc.Cleared? <==> readOk && !flag && now < job.deadline && !gone) && (pc.Cleared? ==> pc == Cleared(job))
            && ((readOk && flag) || (now < job.deadline && gone) ==> pc == Finishing(job, Canceled, StoppedLine(job, true, false), false))
            && (!(readOk && flag) && job.deadline <= now ==> pc == Finishing(job, Expired, StoppedLine(job, false, false), false))
            && (!readOk && now < job.deadline && !gone ==>
                  pc == Finishing(job, Failed, Notify(job.kind, job.resultId, job.customId, CancelUnknown), false))
  {
    hide StopLine, StartFinish, FitsTable, Notify;
    StopFits(job, true, false);
    StopFits(job, false, false);
    StoppedLineIs(job, true, false);
    StoppedLineIs(job, false, false);
    NoticeFits(job, CancelUnknown);
    NotifyKind(job.kind, job.resultId, job.customId, CancelUnknown);
    FinishFitting(job, Canceled, StoppedLine(job, true, false), false);
    FinishFitting(job, Expired, StoppedLine(job, false, false), false);
    FinishFitting(job, Failed, Notify(job.kind, job.resultId, job.customId, CancelUnknown), false);
  }

  /** What a client reads in a line the gateway words by itself. */
  lemma NoticeReads(kind: Kind, resultId: string, customId: string, n: Notice)
    ensures ReadLine(Render(Notify(kind, resultId, customId, n)), kind.OpenAIBatch?)
            == Some(if kind.OpenAIBatch? then Error(customId, resultId, Code(n), Text(n))
                    else Ending(customId, "errored", Some(ErrorObject(n))))
  {
    hide ReadLine, Render, Code, Text, ErrorObject;
    LineReadsBack(Notify(kind, resultId, customId, n));
  }

  /** A refused item fails with the notice it was refused with. */
  lemma RefusedItemFails(job: Job, n: Notice)
    requires JobLimits(job)
    ensures NoticeFinish(job, n) == Finishing(job, Failed, Notify(job.kind, job.resultId, job.customId, n), false)
  {
    hide FitsTable, Notify, StartFinish;
    NoticeFits(job, n);
    NotifyKind(job.kind, job.resultId, job.customId, n);
    FinishFitting(job, Failed, Notify(job.kind, job.resultId, job.customId, n), false);
  }

  /** What a client reads of a good answer. */
  lemma GoodLineReads(job: Job, r: Recorder)
    requires Good(r, job.kind)
    ensures ReadLine(Render(GoodLine(job, r)), job.kind.OpenAIBatch?)
            == Some(if job.kind.OpenAIBatch? then Answer(job.customId, job.resultId, r.requestId, r.status, r.rewritten.value)
                    else Ending(job.customId, "succeeded", Some(r.message.value)))
  {
    hide ReadLine, Render;
    LineReadsBack(GoodLine(job, r));
  }
}
