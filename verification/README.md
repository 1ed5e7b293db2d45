# Verified model of the gateway's background work, streams, uploads and translations

This project models the parts of Pocket AI Gateway in which many things happen at once or a small mistake is hard to
see, and proves what they promise for every input and every run.

**Background work.** OpenAI Batches and Anthropic Message Batches are one state machine over their SQL rows
(`BatchMachine`): every guarded UPDATE or transaction is one atomic step; any number of gateway processes, each with its
own lease epoch, claim, arm, call, settle and finish items while handlers create, cancel and delete, startup recovery
and reconciliation run at any time, and processes crash between any two steps. A statement or commit may take effect and
still report an error to the process that issued it, which then retries. `BatchSafety` holds the row invariant,
`BatchRuns` the call and finalization invariants, `BatchTheorems` and `BatchReasons` the theorems about runs.
`BatchOutcomes` says which provider outcome becomes which line, and `BatchAnswers` that in every run a stored line names
the request it answers and a success carries the answer of a provider call made for it. The loops that the machine
treats as single steps are methods in `BatchRows`, `BatchFiles` and `BatchUsage`, proved to have the machine's effect.
`Json` writes and reads JSON text, `BatchLines` the lines of both kinds, and `LineReading` reads them back as clients of
the files do. Background Responses and the conversations they extend are a second machine (`ResponseMachine`), which
also contains foreground turns and every other writer of a conversation; `ResponseOutcomes` says where each decision and
statement of its workers leads, and that a worker nobody interrupts ends every queued Response as the provider's answer
says. `Admission` runs both machines side by side under the shared queue caps and the retention caps of Message Batches,
and `QueueGrowth` tells what makes the byte counts of the queues grow. `Rotation` is the order in which one process
picks work.

**Hosted file search.** `FileSearchBudget` is the checked arithmetic, the input reservation and the merging of reported
usage; `FileSearchLoop` the dispatch loop with its call and output budgets.

**Streams and failover.** `Sse` is event framing and the usage-chunk filter, `Captures` the ring buffer and the
head-and-tail window, `AttemptWriter` the response writer of one attempt, `Failover` the loop over routing targets, and
`TranslatedStream` the event stream of a translated Responses call. `Dispatches` joins the two state machines with the
failover loop: which providers a batch item or a background Response reaches over a whole run.

**Uploads, text and translation.** `GeminiUpload` and `OpenAIUpload` are the two resumable upload protocols,
`GeminiRuns` what clients of the first may rely on over runs with deletions and other uploads, `Utf` and `TextChunks`
the normalisation and chunking of stored text, `Ranking` the incremental top-k search, and `AnthropicTranslation` the
canonical-to-Anthropic encoding with tool-name resolution.

JSON appears as text where the gateway writes lines that are read back, and otherwise as datatypes or as already parsed
values, bodies as byte sequences, sealed payloads as abstract seal and open pairs, time as a non-decreasing integer.
Clocks, identifiers, the provider's answers, the scheduling of processes and the fate of every statement are parameters
or free choices of a step.

What turned out not to hold, with the exact condition under which it does:

- Recovering an OpenAI item that crashed in `settling` can change its state: `openAIBatchResultState` reads a provider's
  own error code `batch_cancelled` or `batch_expired` as the gateway's (`RecoveryOfSettledOpenAIItems`,
  `RecoveryCanDisagree`).
- UTF-8 text that begins with U+FEFF loses that character, whose encoding is trimmed as a byte-order mark
  (`Utf8IsKept`).
- The head-and-tail window can show bytes twice: for some input of length n if and only if n exceeds the tail limit,
  which is not zero, and falls short of both limits together (`RepeatsIffLimitsOverlap`, `WindowCanRepeat`).
- A canonical image with neither inline data nor a URL, as a Gemini file reference without a URI decodes to, cannot be
  encoded for Anthropic and decoded again (`RoundTrip`, `EmptyImageIsRefused`).
- A client can be sent nothing at all: if and only if the last dispatch met the retry guard and the wait before the
  retry was cut short, or the plan is empty (`AfterDispatch`, `Forward`, `SilentClient`).
- Items of Message Batches and background Responses are forwarded once, but that one request can reach several
  providers: a second one if and only if the first dispatch met the retry guard, the wait ended and the second target
  can be dispatched to. Only items of OpenAI Batches are always dispatched at most once (`ItemDispatches`,
  `OpenAIItemIsDispatchedOnce`, `ResponseDispatches`, `MessageItemReachesTwoProviders`). A dispatch is one attempt at
  one target; an attempt of hosted file search sends its single target several requests, bounded by
  `RunStaysWithinReservation`.
- The byte caps of the background queues hold at each admission but not in every state (`QueueCanExceedItsByteCap`). A
  step exceeds a cap if and only if the bytes counted before it and its own growth do, which can be told beforehand: the
  request bytes and sealings of a created batch, the bytes of an enqueued Response, five bytes for its first
  announcement, and the bytes of a stored result; nothing else makes a count grow (`CapIsExceededIff`).
- A retry of a finished Gemini upload is compared with whatever file has its file's id now. While nobody asked to delete
  that file and no purge picked its id, retries are accepted if and only if they agree with the upload; after that,
  accepted retries agree with it if and only if the id is free or the file that took it has the same bytes as far as
  both go (`LateRetries`, `RetryMatchesAnotherFile`).
- The purge of expired Gemini files goes by id alone, so it can delete a file that has not expired: if and only if it
  picked the file's id, which takes an expired file of another key with the same id (`PurgeRemovesLiveIff`,
  `PurgeTakesLiveFile`).

## Model

| member | source | states |
|---|---|---|
| `Json.EscapingIsUndone` | internal/gateway/openai_batch_background.go:478 | a reader that undoes JSON escapes gets back every string, quotes, controls, HTML-sensitive characters and the two Unicode separators included |
| `Json.FieldIsRead` | internal/gateway/openai_batch_background.go:478-507 | a reader that scans for a member by name finds the whole value written under it, nested objects and strings with any characters included |
| `BatchLines.OpenAISizeIsLength` | internal/gateway/openai_batch_background.go:473-507 | the arithmetic size used by every limit is the byte length of the JSON line, escapes included |
| `BatchLines.MessageSizeIsLength` | internal/gateway/anthropic_batch_background.go:336-365 | the same for the five shapes of Message Batch lines |
| `BatchLines.RenderIsOneLine` | internal/gateway/openai_batch_background.go:466-507 | every stored line is one line of text of exactly its size |
| `BatchLines.LineLimitFits` | internal/gateway/openai_batch_background.go:45-50 | the per-line limit is the largest with which a full set of lines and their separators fits one File |
| `BatchLines.NoticeStateReadsCode` | internal/gateway/openai_batch_background.go:509-530 | reading the error code of a gateway line gives the state that line was written for |
| `LineReading.OpenAIReadsBack` | internal/gateway/openai_batch_background.go:473-507 | from the text of every OpenAI line a reader gets its custom id and id, and the status, request id and body, or the code and message |
| `LineReading.MessageReadsBack` | internal/gateway/anthropic_batch_background.go:336-365 | from the text of every Message Batch line a reader gets its custom id, its kind, and the message or error |
| `LineReading.ErrorObjectReads` | internal/gateway/anthropic_batch_background.go:342-344 | an error of the gateway reads back as its type and message |
| `LineReading.StateIsRead` | internal/gateway/openai_batch_background.go:509-530 | the state that recovery reads in the text of a stored line is the state the line stands for |
| `BatchSafety.StopItemOk` | internal/gateway/openai_batch_background.go:354-363 | stopping an unstarted item leaves it terminal with a line within its limit, and leaves started items alone |
| `BatchSafety.CancelOk` | internal/gateway/anthropic_batches.go:302-310 | the cancel transaction keeps a batch well-formed and leaves no item queued or claimed |
| `BatchSafety.RecoverItemOk` | internal/gateway/openai_batch_background.go:82-112 | startup recovery keeps an item well-formed, never touches a terminal one and never re-queues one that started |
| `BatchSafety.BoundOk` | internal/gateway/openai_batch_background.go:532-537 | bounding a line makes it fit, keeps a fitting one, and never turns a failure into a success |
| `BatchSafety.SizeCheckNeverBlocks` | internal/gateway/openai_batch_background.go:401-432 | an open OpenAI Batch can be finalized if and only if none of its items is active: the size check cannot stop it |
| `BatchSafety.WorkerKeepsRows` | internal/gateway/openai_batch_background.go:116-265 | every worker statement of either kind keeps all rows and all remembered jobs well-formed |
| `BatchSafety.TableKeepsRows` | internal/gateway/anthropic_batch_background.go:237-300 | so does every handler, recovery, reconciliation and retention step |
| `BatchRuns.WorkerStepEvolves` | internal/gateway/anthropic_batch_background.go:116-235 | a worker statement moves rows only forward: terminal items stay, started items never return to the queue |
| `BatchRuns.TableStepEvolves` | internal/gateway/anthropic_batch_background.go:47-89 | the same for all other steps, recovery included |
| `BatchRuns.StepKeepsInv` | internal/gateway/openai_batch_background.go:56-471 | one step of any process or handler keeps the whole invariant |
| `BatchRuns.RunEvolves` | internal/gateway/openai_batch_background.go:56-471 | between any two states of a run, rows have only evolved |
| `BatchTheorems.ForwardedOnce` | internal/gateway/openai_batch_background.go:158-201 | in every run, with any processes, crashes, recoveries and ambiguous statements, an item is forwarded at most once |
| `Dispatches.ItemDispatches` | internal/gateway/forward.go:464-907 | over a whole run the dispatches for a batch item are those of its one request, each planned target at most once and in plan order; a finished request reached a second provider iff the first dispatch met the retry guard, its wait ended, and the second target could be dispatched to |
| `Dispatches.OpenAIItemIsDispatchedOnce` | internal/gateway/forward.go:298-301 | an item of an OpenAI Batch causes at most one dispatch in a whole run |
| `Dispatches.MessageItemReachesTwoProviders` | internal/gateway/forward.go:767 | a concrete run in which an item of a Message Batch is sent to two providers |
| `BatchTheorems.StartedNeverReturns` | internal/gateway/openai_batch_background.go:82-112 | an item that left queued and claimed never returns to them |
| `BatchTheorems.TerminalIsFinal` | internal/gateway/openai_batch_background.go:243-265 | a terminal item is never overwritten |
| `BatchTheorems.CancelIsSafe` | internal/gateway/openai_batch_background.go:329-365 | after a cancel committed no item of the batch is queued or claimed in any later state and none newly enters dispatching |
| `BatchTheorems.EndedIsSoundAndStable` | internal/gateway/anthropic_batch_background.go:297-300 | ended means every item is terminal with a fitting line, one per request, and stays so unchanged until deletion |
| `BatchTheorems.RecoveryFinishesMessageItems` | internal/gateway/anthropic_batch_background.go:76-81 | recovering a Message Batch item that crashed in settling gives the state and line the interrupted finish would have stored |
| `BatchTheorems.RecoveryDecides` | internal/gateway/openai_batch_background.go:82-112 | recovery queues a claimed item again, ends a dispatching one as expired iff it is of an OpenAI Batch past its deadline and as interrupted otherwise, and gives a settling one the state of its line |
| `BatchTheorems.MessageBatchEnds` | internal/gateway/anthropic_batch_background.go:297-300 | a cancel, a reconciliation or the finish of an item leaves a Message Batch ended iff every item is terminal |
| `BatchReasons.RecoveryOfSettledOpenAIItems` | internal/gateway/openai_batch_background.go:89-98 | for an OpenAI item this holds if and only if the stored line is not a provider error with code batch_cancelled or batch_expired |
| `BatchTheorems.RecoveryCanDisagree` | internal/gateway/openai_batch_background.go:509-530 | a concrete provider error that recovery turns from failed into expired |
| `BatchTheorems.FinalizedOnce` | internal/gateway/openai_batch_background.go:369-464 | an OpenAI Batch is finalized at most once, exactly once when it has a terminal status, and then stays unchanged |
| `BatchTheorems.FilesPartition` | internal/gateway/openai_batch_background.go:386-426 | each item's line stands in the file of its side after the lines of the earlier items of that side; the two files hold exactly the items |
| `BatchTheorems.FinalizationIsComplete` | internal/gateway/openai_batch_background.go:430-463 | a finalization leaves request_completed output lines, all successes, the rest as error lines, request_total together, both within the File limit |
| `BatchFiles.FinalStatusAndCounts` | internal/gateway/openai_batch_background.go:389-463 | in every run a finalized batch is cancelled iff a cancel was requested and expired iff none was and an item expired; request_completed and request_failed are the numbers of items that succeeded, and that failed or were interrupted |
| `BatchReasons.EndingsAreJustified` | internal/gateway/anthropic_batch_background.go:141-199 | a terminal item's line says its state; only a requested cancel cancels and only the deadline expires, provider codes aside |
| `BatchReasons.CheckReason` | internal/gateway/anthropic_batch_background.go:141-161 | the checks before the provider call stop an item only for a cause that holds |
| `BatchReasons.JudgeReason` | internal/gateway/anthropic_batch_background.go:175-200 | what is stored after the provider call is justified by the outcome, a cancel request or the deadline |
| `BatchOutcomes.CheckedItemIsCalled` | internal/gateway/openai_batch_background.go:172-187 | the provider is called iff the cancel flag was read and is not set, the deadline is ahead and the item context alive; otherwise the item ends for the first cause that holds |
| `BatchOutcomes.GoodAnswerSucceeds` | internal/gateway/openai_batch_background.go:211-241 | an item succeeds iff the outcome is known, 2xx and valid for its kind, and its line fits; the line then has its ids and the provider's status, request id and body, whatever cancel or deadline came since |
| `BatchOutcomes.BadAnswerKeepsItsError` | internal/gateway/anthropic_batch_background.go:189-193 | any other outcome that is not stopped fails, in the provider's own words when there are any and they fit |
| `BatchOutcomes.StoppedItemEnds` | internal/gateway/anthropic_batch_background.go:175-188 | a called item is cancelled or expired iff its outcome is unknown and there is a cause, and for the first cause that holds |
| `BatchOutcomes.NoticeReads` | internal/gateway/openai_batch_background.go:503-507 | a client reads the code and message of the notice in every line the gateway words itself |
| `BatchAnswers.DecisionFollowsOutcome` | internal/gateway/openai_batch_background.go:211-241 | in every run the decision after a call is taken on the outcome of a call made for that item, succeeds iff that outcome is good and its line fits, and stores first iff the request got an id and was not stopped |
| `BatchAnswers.StatementWritesDecision` | internal/gateway/openai_batch_background.go:231-265 | in every run a storing or finishing statement that takes effect leaves exactly the decided line, and state, in the row |
| `BatchAnswers.SuccessIsTheProvidersAnswer` | internal/gateway/openai_batch_background.go:220-265 | in every run the line of a succeeded item has the ids of its request and the answer of a provider call that an earlier step made for it |
| `BatchUsage.BatchTotals.Add` | internal/gateway/openai_batch_background.go:546-612 | the chain of checks accepts a report iff it has the endpoint's shape, is consistent, and the grand total stays within 2^53-1; no step overflows; a refusal changes nothing |
| `BatchFiles.SplitJoin` | internal/gateway/openai_batch_background.go:466-471 | cutting joined lines at their breaks gives the lines back |
| `BatchFiles.FileReadsBack` | internal/gateway/openai_batch_background.go:466-471 | a generated file reads back as exactly its rendered lines |
| `BatchFiles.JoinSize` | internal/gateway/openai_batch_background.go:430 | the size that is checked is the length of the joined text |
| `BatchFiles.GatherRows` | internal/gateway/openai_batch_background.go:386-426 | the row loop yields both texts, the counts, and totals that are known iff every item is countable and the exact sum fits |
| `BatchFiles.FinalizeOpenAIBatch` | internal/gateway/openai_batch_background.go:369-464 | finalization writes iff the machine's guard holds, and then the specified row, both file texts, and exact totals when known; cut from the text of its side, each item's line reads back as that item's entry |
| `BatchAnswers.FilesNameTheirRequests` | internal/gateway/openai_batch_background.go:386-442 | in every run, read from the text of the generated files, each request has one line of its side in order, under its own custom id and id, an answer iff it succeeded |
| `BatchRows.BatchRow.StopUnstarted` | internal/gateway/anthropic_batch_background.go:268-295 | the two-phase stop loop changes exactly the unstarted rows |
| `BatchRows.BatchRow.Cancel` | internal/gateway/anthropic_batches.go:302-310 | the cancel transaction in place has the machine's effect |
| `BatchRows.BatchRow.FinishRetrying` | internal/gateway/anthropic_batch_background.go:203-235 | whatever attempts take effect or report errors, the finishing loop finishes the item at most once, and exactly once if some attempt took effect in time |
| `BatchRows.BatchRow.Recover` | internal/gateway/openai_batch_background.go:82-112 | the recovery loop applies the recovery of each listed row once |
| `BatchRows.BatchRow.Results` | internal/gateway/anthropic_batches.go:372-401 | results exist iff the batch ended, and are its lines in ordinal order, each of which reads back from the text; the size check in the loop never fails |
| `BatchAnswers.ResultsNameTheirRequests` | internal/gateway/anthropic_batches.go:372-401 | in every run the results of an ended batch, read from their text, name the requests in order and say "succeeded" for exactly the successes |
| `BatchRows.BatchRow.RequestCounts` | internal/gateway/anthropic_batches.go:432-468 | the five reported counts always sum to the item count; until the batch ends all are processing |
| `BatchRows.CountsSum` | internal/gateway/anthropic_batches.go:432-468 | over all states the row counts add up to the number of items |
| `BatchRows.SumOfGroups` | internal/gateway/anthropic_batches.go:434-446 | the groups of GROUP BY cover every row once |
| `Conversations.InsertedInOrder` | internal/gateway/conversation_items.go:174-197 | rows inserted after the greatest ordinal are read last and in the given order, also after deletions |
| `Conversations.InOrderCount` | internal/gateway/conversation_items.go:174-185 | reading in ordinal order returns every row once |
| `Conversations.InsertOk` | internal/gateway/conversation_items.go:174-197 | a successful insert stays within the item and byte caps and appends exactly the items |
| `Conversations.TurnExtendsHistory` | internal/gateway/conversation_attachment.go:364-377 | a turn that commits makes the conversation history ++ new items ++ output, one revision later, and changes no other row |
| `Conversations.TurnAppends` | internal/gateway/conversation_attachment.go:364-377 | a turn commits iff the conversation is open at the remembered revision, there is room and it fits; it appends exactly the new items and the output and changes no other row |
| `Conversations.AddItemsAppends` | internal/gateway/conversations.go:205-226 | adding items commits iff the conversation is open, there is room and they fit; it appends exactly the given items, one revision later |
| `Conversations.CreateHolds` | internal/gateway/conversations.go:61-80 | creating commits iff there is room and the items fit; the conversation then holds exactly these at revision 1 |
| `Conversations.DeleteItemOk` | internal/gateway/conversations.go:304-338 | deleting an item keeps the caps |
| `Conversations.DeleteItemRemoves` | internal/gateway/conversations.go:304-338 | deleting commits iff the conversation is open and has the item; the history then lacks exactly that body at its place |
| `ConversationStore.Store.InsertItems` | internal/gateway/conversation_items.go:174-197 | the insert loop has the specified effect or none |
| `ConversationStore.Store.Prepare` | internal/gateway/conversation_attachment.go:49-98 | revision and history are read as one snapshot |
| `ConversationStore.Store.AppendTurn` | internal/gateway/conversation_attachment.go:364-389 | the turn transaction commits the specified table or, on any failure, leaves it as it was |
| `ConversationStore.Store.CreateItems` | internal/gateway/conversations.go:205-226 | adding items commits one revision further or not at all |
| `ConversationStore.Store.CreateConversation` | internal/gateway/conversations.go:61-80 | a new conversation starts at revision 1 with its items, or not at all |
| `ResponseSafety.EditKeepsConversing` | internal/gateway/conversations.go:166-226 | creates, edits, deletes and purges keep every remembered snapshot faithful and only move revisions forward |
| `ResponseSafety.CompleteKeepsConversing` | internal/gateway/response_background.go:450-470 | so does the completion transaction |
| `ResponseSafety.SqlRows` | internal/gateway/response_background.go:254-504 | each statement of a worker changes at most one row and only forward |
| `ResponseRuns.StepKeepsInv` | internal/gateway/response_background.go:221-504 | one step of any worker, handler or foreground request keeps the whole invariant |
| `ResponseRuns.RunEvolves` | internal/gateway/response_background.go:221-504 | between any two states of a run, rows, conversations and attachments have only evolved |
| `ResponseTheorems.ForwardedOnce` | internal/gateway/response_background.go:254-283 | a background Response is forwarded at most once |
| `Dispatches.ResponseDispatches` | internal/gateway/forward.go:464-907 | over a whole run the dispatches for a background Response are those of its one request, each planned target at most once and in plan order; to one target if its tools forbid retries; a second provider exactly as for batch items |
| `ResponseTheorems.TurnExactlyOnce` | internal/gateway/response_background.go:408-470 | a conversation receives a Response's items exactly once if its row is completed and never otherwise |
| `ResponseTheorems.TurnIsStoredOnce` | internal/gateway/response_background.go:408-470 | in the stored rows: a completed Response with a conversation was stored by exactly one step, as history, new items and output, and no other worker step changes a conversation |
| `ResponseTheorems.TurnNeedsRunningRow` | internal/gateway/response_background.go:450-470 | only the completion of a running row appends its turn |
| `ResponseTheorems.OverForGood` | internal/gateway/response_storage.go:171-226 | after cancel, delete, failure or interruption the phase is final and no later or retried commit appends the turn |
| `ResponseTheorems.EqualRevisionEqualItems` | internal/gateway/conversations.go:184-338 | equal revisions of a live conversation mean equal items, whatever ran in between |
| `ResponseTheorems.ConversationsStayBounded` | internal/gateway/conversation_items.go:183-185 | every conversation stays within its item and byte caps |
| `ResponseTheorems.CompletionExtendsHistory` | internal/gateway/response_background.go:450-470 | at completion the conversation is exactly the sent history, the new items and the provider output, in ordinal order |
| `ResponseTheorems.ForegroundExtendsHistory` | internal/gateway/conversation_attachment.go:364-389 | the same for foreground turns, each committed at most once however often it is tried |
| `ResponseTheorems.SnapshotIsHistory` | internal/gateway/conversation_attachment.go:58-98 | while the revision is unchanged the remembered history is what the conversation holds |
| `ResponseOutcomes.CheckedJob` | internal/gateway/response_background.go:324-361 | the provider is called only after the conversation was read at the remembered revision and then the row as running; otherwise the Response fails or is left alone |
| `ResponseOutcomes.SettledResult` | internal/gateway/response_background.go:378-387 | after the call a settled result goes on, through linking if it has a conversation; it fails iff it is not settled or has no request to link |
| `ResponseOutcomes.JudgedAnswer` | internal/gateway/response_background.go:388-448 | the answer is stored, or completed with its conversation, iff it is 2xx, can be rewritten and, with a conversation, its request is still open; otherwise the Response fails, closing an open request first |
| `ResponseOutcomes.CompletionIff` | internal/gateway/response_background.go:450-470 | a completion commits iff the lease holds the running row, the conversation is at the remembered revision with room for the turn, and the request is open |
| `ResponseOutcomes.StatementLeavesPhase` | internal/gateway/response_background.go:254-504 | every worker statement that takes effect leaves the row in the phase its decision stands for iff its guard holds, and no other row changes |
| `ResponseOutcomes.RefusedCompletion` | internal/gateway/response_background.go:419-443 | a completion that does not commit changes nothing, and its reason decides whether the gateway request is closed and the Response failed |
| `ResponseOutcomes.UninterruptedWorkerEnds` | internal/gateway/response_background.go:254-470 | from every state a free process ends a queued Response, if nobody interrupts it, in the phase the provider's answer stands for iff that answer is usable, and as failed otherwise |
| `ResponseOutcomes.EveryRunCanComplete` | internal/gateway/response_background.go:221-470 | every run with a queued Response and a free process can be continued to that end |
| `ResponseOutcomes.ResponsesComplete` | internal/gateway/response_background.go:402-470 | runs exist that end with a completed Response, one without a conversation and one with |
| `Admission.ReservationCovers` | internal/gateway/anthropic_batches.go:81-118 | a Message Batch item never retains more than its request and its reservation |
| `Admission.ItemReleases` | internal/gateway/anthropic_batch_background.go:356-361 | no step makes an item active again or makes a Message Batch item retain more |
| `Admission.ActiveJobsStayCapped` | internal/gateway/anthropic_batch_background.go:26-45 | in every reachable state the work of all three queues is within the global, owner and key job caps |
| `Admission.RetainedItemsStayCapped` | internal/gateway/response_storage.go:96-149 | in every reachable state retained Message Batch items are within the count and byte caps |
| `Admission.QueueBytesAreAdmittedOrGrown` | internal/gateway/anthropic_batch_background.go:26-45 | in every reachable state the bytes the queue caps count are those active work was admitted with, which stay within the caps, plus exactly what it has grown by since, at most one result and two sealings a job |
| `Admission.SettlingGrowsQueue` | internal/gateway/openai_batch_background.go:236 | storing a provider result adds exactly its bytes to the count of every scope of its batch |
| `QueueGrowth.CreatingGrowsQueue` | internal/gateway/openai_batches.go:133-178 | creating a batch adds its request bytes to the count of its scopes and, for an OpenAI Batch, 28 more for each sealed request |
| `QueueGrowth.EnqueuingGrowsQueue` | internal/gateway/response_background.go:129-137 | enqueuing a background Response adds the bytes it was admitted with |
| `QueueGrowth.AnnouncingGrowsQueue` | internal/gateway/response_background.go:274-279 | the first announcement of a Response adds the five bytes of its longer status |
| `QueueGrowth.OtherBatchStepsRelease` | internal/gateway/anthropic_batch_background.go:26-45 | no other step of the batch machine makes any count grow |
| `QueueGrowth.OtherResponseStepsRelease` | internal/gateway/anthropic_batch_background.go:26-45 | no other step of the Response machine makes any count grow |
| `QueueGrowth.CapIsExceededIff` | internal/gateway/anthropic_batch_background.go:26-45 | in every run a step from within a byte cap exceeds it iff the bytes counted before and the growth told by the step do |
| `Admission.QueueCanExceedItsByteCap` | internal/gateway/openai_batches.go:133-158 | a concrete run of two admitted batches that leaves a key over its byte cap |
| `Rotation.Scheduler.RunRound` | internal/gateway/response_background.go:175-187 | a round runs the first ready queue from the rotation on, and nothing iff none is ready |
| `Rotation.NoKindStarves` | internal/gateway/response_background.go:175-187 | a queue that stays ready is run within any three rounds |
| `Rotation.ClaimNext` | internal/gateway/response_background.go:261 | the claimed Response is of another owner than the last, then of another key, whenever one is queued, and the oldest of those |
| `FileSearchBudget.SafePositiveProduct` | internal/gateway/responses_file_search_execution.go:88-93 | the exact product, or nothing iff an operand is negative or, with a non-zero left operand, the product leaves 0..2^53-1 |
| `FileSearchBudget.SafePositiveSum` | internal/gateway/responses_file_search_execution.go:95-100 | the exact sum, or nothing iff it leaves the range |
| `FileSearchBudget.InputReservation` | internal/gateway/responses_file_search_execution.go:62-86 | the reservation is the closed formula iff that is within range; no step overflows |
| `FileSearchBudget.SpreadBound` | internal/gateway/responses_file_search_execution.go:62-86 | however calls are spread over rounds, the input of all dispatches is within (calls+1)·input + calls(calls+1)/2·(search+output) |
| `FileSearchBudget.ReservationDominates` | internal/gateway/responses_file_search_execution.go:62-86 | the reservation bounds every run that keeps the call and output limits |
| `FileSearchBudget.MergeIsPointwise` | internal/gateway/responses_file_search_execution.go:502-530 | a merge succeeds iff each entry does, and leaves each name as its entry alone would |
| `FileSearchBudget.MergeOrderIsIrrelevant` | internal/gateway/responses_file_search_execution.go:502-530 | the iteration order of the map does not matter |
| `FileSearchLoop.FunctionCalls` | internal/gateway/responses_file_search_execution.go:329-351 | the positions of the internal calls, refused iff an item is malformed |
| `FileSearchLoop.RunSearches` | internal/gateway/responses_file_search_execution.go:200-235 | all calls of a turn run unless one is unusable or fails, which is then the reported reason |
| `FileSearchLoop.TakeTurn` | internal/gateway/responses_file_search_execution.go:141-257 | a turn ends the loop for the stated reason or continues it with fewer calls and less output left |
| `FileSearchLoop.Dispatch` | internal/gateway/responses_file_search_execution.go:102-259 | every run keeps the budgets, ends for the stated reason, and answers with the public form of all turns and the merged usage |
| `FileSearchLoop.AnswerIsPublic` | internal/gateway/responses_file_search_execution.go:353-368 | a public answer has every item of the providers in its place, each internal call replaced by its public form, and none left |
| `FileSearchLoop.KnownTotalsAreExact` | internal/gateway/responses_file_search_execution.go:483-530 | while usage is known, a total that every turn reports, at the top or in a detail object at any depth, is the exact sum and within 2^53-1 |
| `FileSearchLoop.ReportedIff` | internal/gateway/responses_file_search_execution.go:483-530 | a name is found iff an entry has it, and counts iff its value is an integer within range |
| `FileSearchLoop.OneTurnIsKnown` | internal/gateway/responses_file_search_execution.go:483-530 | usage becomes known: a single turn that reports its three totals makes them the totals |
| `FileSearchLoop.RunStaysWithinReservation` | internal/gateway/responses_file_search_execution.go:62-259 | any run dispatches at most maxCalls+1 requests, each with a positive output limit, and together they stay within the reservation |
| `Sse.FrameEnd` | internal/gateway/response_writer.go:180-189 | comparing terminator starts finds the earliest frame end for any mixture of line endings |
| `Sse.FrameEndIsStable` | internal/gateway/response_writer.go:180-189 | a found frame end stays the first one when the buffer grows |
| `Sse.FramesRebuild` | internal/gateway/response_writer.go:145-162 | cutting into frames loses no byte |
| `Sse.FilteredAppend` | internal/gateway/response_writer.go:145-162 | filtering a longer stream is filtering its parts, the remainder continued |
| `Sse.UsageFilter.Write` | internal/gateway/response_writer.go:145-162 | an error-free write forwards the frames it completes except usage-only ones; an oversized one changes nothing |
| `Sse.UsageFilter.Finish` | internal/gateway/response_writer.go:170-178 | after Finish the client has the visible frames and the remainder |
| `Sse.FilterWrites` | internal/gateway/response_writer.go:139-178 | no write of a division fails iff each fits the pending buffer, and then the client gets the same bytes for any division |
| `Captures.TailCapture.Write` | internal/gateway/dispatch.go:501-525 | writes of any size keep the last limit bytes in the ring |
| `Captures.TailCapture.Contents` | internal/gateway/dispatch.go:527-535 | the contents are the last min(limit, total) bytes written |
| `Captures.LimitedCapture.Write` | internal/gateway/dispatch.go:537-550 | the buffer is the first min(limit, total) bytes |
| `Captures.CompletePrefix` | internal/gateway/dispatch.go:479-488 | the longest prefix that ends with a terminator |
| `Captures.CompleteTail` | internal/gateway/dispatch.go:490-499 | everything after the first terminator, or all |
| `Captures.HeadTailCapture.Contents` | internal/gateway/dispatch.go:467-477 | the window is a function of the concatenated input alone |
| `Captures.WindowIsPrefixAndSuffix` | internal/gateway/dispatch.go:467-477 | past the limit it is a prefix and a suffix of the input |
| `Captures.RepeatsIffLimitsOverlap` | internal/gateway/dispatch.go:467-477 | some input of length n is shown with repeated bytes iff 0 < tail limit < n < head limit + tail limit |
| `Captures.WindowCanRepeat` | internal/gateway/dispatch.go:467-477 | a concrete input whose bytes come out twice |
| `AttemptWriter.Writer.Write` | internal/gateway/response_writer.go:35-49 | bytes are buffered until the commit and passed on after it; the buffer limit is exact |
| `AttemptWriter.Writer.Flush` | internal/gateway/response_writer.go:50-60 | a flush reaches the client only for a successful streaming response, with its status and what was held back |
| `AttemptWriter.Writer.Commit` | internal/gateway/response_writer.go:78-100 | a commit sends status, headers and body once and keeps the gateway's request id |
| `Failover.RunOps` | internal/gateway/forward.go:531-557 | a dispatch writes under its own attempt and reaches the client iff a stream is flushed after a successful status; writer and client together have the bytes written, up to the buffer limit, and the first status |
| `Failover.AfterDispatch` | internal/gateway/forward.go:766-907 | another attempt follows iff the retry guard holds and the wait ends; otherwise the client sees the specified answer: status and bytes of the provider or of the rewrite, the stored body, the gateway's error under its own status, or nothing |
| `Failover.Forward` | internal/gateway/forward.go:464-907 | the request is dispatched to the first DispatchCount targets, in order; the client sees the specified answer of the last one alone, with its status and bytes, one gateway error alone, or nothing |
| `Failover.SuccessIsShown` | internal/gateway/forward.go:766-907 | a success is shown as stored iff it has to be stored and was accounted and stored, as an error that says why not otherwise; any other success under its status with all bytes written, or those of the rewritten body |
| `Failover.FailureIsShown` | internal/gateway/forward.go:900-907 | a failure that ends the loop is shown under the provider's status with its bytes, or as 502 iff it broke off a 2xx answer, was rejected by a check, or has no status, and was not shown already |
| `Failover.NothingIsLostIff` | internal/gateway/response_writer.go:35-49 | bytes are lost iff a stream held back for a conversation exceeds 16 MiB |
| `Failover.NoAnswerIff` | internal/gateway/forward.go:894-898 | the client gets no answer at all iff the plan is empty or the wait before a retry was cut short |
| `Failover.RetriedStatuses` | internal/gateway/forward.go:910-915 | without an error a request reaches a second provider iff the first status is missing, 408, 425, 429 or at least 500 |
| `Failover.RetriedErrors` | internal/gateway/forward.go:766-767 | with an error it does so after any status but 2xx, and after 2xx only for a broken connection or answer |
| `Failover.DispatchesAreBounded` | internal/gateway/forward.go:767 | no target is dispatched to twice, and a request that is never retried to one at most |
| `Failover.LaterDispatch` | internal/gateway/forward.go:767 | target j is dispatched to iff every earlier one met the retry guard and its wait ended, and it can itself be dispatched to |
| `Failover.SecondProvider` | internal/gateway/forward.go:910-915 | a concrete request whose first provider answers 503 and that is sent to a second one |
| `Failover.SilentClient` | internal/gateway/forward.go:894-898 | the same request with its wait cut short: the client is sent nothing |
| `Failover.EveryAttemptIsAccounted` | internal/gateway/forward.go:505-537 | each admitted attempt is cancelled before dispatch, or dispatched and settled, once and never both; at most one settlement is final, the last attempt's |
| `TranslatedStream.WithToolIsGood` | internal/protocol/stream.go:138-153 | a new call opens the next output index and nothing else |
| `TranslatedStream.MoreTextIsGood` | internal/protocol/stream.go:117-135 | text deltas accumulate at the message's index |
| `TranslatedStream.Translator.Consume` | internal/protocol/stream.go:112-214 | consuming an event keeps what the client has seen in step with the collected items, which grow by exactly its text, arguments and names |
| `TranslatedStream.Translator.FillArguments` | internal/protocol/stream.go:268-275 | empty arguments become an empty object; success iff all arguments are JSON |
| `TranslatedStream.Translator.Finish` | internal/protocol/stream.go:259-358 | success iff complete with known usage and valid arguments; then the stream is well-formed: indices 0..n-1 opened with their kind and closed once, deltas adding up to what the closing events and the item say, the final list in index order, with the token counts |
| `TranslatedStream.TranslateStream` | internal/protocol/stream.go:101-358 | success iff every frame can be decoded, what the source says is within the limits, and it is complete with valid arguments; then the stream is well-formed and reports the source's token counts, each call of the source stands at a place of its own with its name and whole arguments, and the only other item, if any, is the message with the whole text and refusal |
| `TranslatedStream.NotesAreOnPayloads` | internal/protocol/stream.go:188-214 | per dialect and on the payloads: when a stream has ended, when its usage is terminal, and that the last input and output counts given are the ones reported |
| `TranslatedStream.CollectOutput` | internal/protocol/stream.go:350-355 | the collecting loop terminates and lists the items by index |
| `GeminiUpload.GeminiStore.UploadChunk` | internal/gateway/gemini_files.go:264-420 | the handler changes the tables and answers exactly as the specification, row expiry, busy slot and taken ids included |
| `GeminiUpload.GeminiStore.AnswerCompleted` | internal/gateway/gemini_files.go:324-343 | a late retry is answered from the file that has the id now |
| `GeminiRuns.StepKeepsInv` | internal/gateway/gemini_files.go:160-468 | every step keeps all rows and files well-formed: stored bytes only grow, a completed row never changes and has the declared size, and a file made by an upload is what it completed with |
| `GeminiRuns.AcceptedIffAdmissible` | internal/gateway/gemini_files.go:264-420 | a request is accepted iff admissible |
| `GeminiRuns.CompletionTakesId` | internal/gateway/gemini_files.go:374-420 | a completing request puts exactly the declared bytes under the id asked for, or the generated one, for 48 hours |
| `GeminiRuns.AcceptedChunksAgree` | internal/gateway/gemini_files.go:264-420 | in every run an accepted chunk agrees byte for byte with the upload in every later state, unless it was compared with a file that took the id of a deleted one |
| `GeminiRuns.OwnUntilDeleted` | internal/gateway/gemini_files.go:453-468 | from completion until it expires, an upload is compared with its own file iff nobody asked to delete that file and no purge picked its id |
| `GeminiRuns.PurgeRemovesLiveIff` | internal/gateway/gemini_files.go:182 | the purge removes a live file iff it picked its id, and then because another key has an expired file with that id |
| `GeminiRuns.PurgeTakesLiveFile` | internal/gateway/gemini_files.go:182 | a concrete run in which a file completed a moment ago is purged with the expired file of another key |
| `GeminiRuns.RetriesAgreeIff` | internal/gateway/gemini_files.go:324-343 | all accepted retries of a completed upload agree with it iff no live file has its id or that file has the same bytes as far as both go |
| `GeminiRuns.LateRetries` | internal/gateway/gemini_files.go:324-343 | in every run: while nobody asked to delete the file and no purge picked its id, retries are accepted iff they agree with the upload; after that, its own file is gone for good and accepted retries agree iff the id is free or taken by a file with the same bytes as far as both go |
| `GeminiRuns.RetryMatchesAnotherFile` | internal/gateway/gemini_files.go:324-343 | a concrete run in which a finished upload accepts the bytes of another file, refuses its own, and can stop without an answer |
| `OpenAIUpload.Upload.AddPart` | internal/gateway/uploads.go:174-216 | parts are non-empty, at most 16, and never exceed the declared size together |
| `OpenAIUpload.SumOfSubset` | internal/gateway/uploads.go:194-197 | with non-empty parts, only all of them together reach their total |
| `OpenAIUpload.Upload.Complete` | internal/gateway/uploads.go:263-361 | completion succeeds iff part_ids is a permutation of all stored parts and they add up to the declared size; the file is their concatenation in that order |
| `OpenAIUpload.Upload.Cancel` | internal/gateway/uploads.go:364-406 | an open upload can be cancelled once, which drops its parts |
| `Utf.EncodeIsValid` | internal/gateway/vector_store_content.go:419-422 | every encoded text is valid UTF-8 and decodes to itself |
| `Utf.Decode` | internal/gateway/vector_store_content.go:419-422 | every valid byte sequence is the encoding of its text |
| `Utf.CutIsValid` | internal/gateway/vector_store_content.go:368-380 | valid text may be cut before any rune start |
| `Utf.Utf16RoundTrip` | internal/gateway/vector_store_content.go:385-417 | UTF-16 in either order, surrogate pairs included, reads back as written |
| `TextChunks.FromUtf16` | internal/gateway/vector_store_content.go:385-417 | marked UTF-16 is accepted iff whole, well-paired, NUL-free and within 16 MiB, as its UTF-8 encoding |
| `TextChunks.Utf8Text` | internal/gateway/vector_store_content.go:384-427 | normalisation accepts exactly the acceptable files and returns the encoding of their text |
| `TextChunks.Utf16IsKept` | internal/gateway/vector_store_content.go:385-417 | marked UTF-16 stands for exactly the text written |
| `TextChunks.Utf8IsKept` | internal/gateway/vector_store_content.go:419-426 | UTF-8 text is kept iff it does not begin with U+FEFF, whose encoding is dropped as a mark |
| `TextChunks.CutPoint` | internal/gateway/vector_store_content.go:369-377 | the cut is a rune start at most 64 KiB in and, before the end, at least 32767 bytes in |
| `TextChunks.Split` | internal/gateway/vector_store_content.go:367-381 | the loop terminates; the chunks concatenate to the text, each valid, non-empty and within the limits |
| `TextChunks.TextChunks` | internal/gateway/vector_store_content.go:362-382 | both together, for every input |
| `TextChunks.WrittenTextIsAcceptable` | internal/gateway/vector_store_content.go:362-427 | the promise for NUL-free text in UTF-8 and in both UTF-16 orders |
| `Ranking.TopStep` | internal/gateway/vector_store_search.go:143-147 | sorting one more result in and cutting keeps the best limit |
| `Ranking.Search` | internal/gateway/vector_store_search.go:122-150 | unless a file cannot be loaded, the results are the best limit of exactly the chunks that score positively and reach the threshold, ordered by score, file id and ordinal |
| `Ranking.TopIsOrdered` | internal/gateway/vector_store_search.go:460-468 | a higher score comes first, then the smaller file id, then the smaller ordinal; a missing hit comes before no result |
| `Ranking.TopIsUnique` | internal/gateway/vector_store_search.go:144 | any two such lists are equal |
| `Ranking.CosineAtMostOne` | internal/gateway/vector_store_search.go:445-458 | dot² ≤ leftNorm·rightNorm for all term frequencies |
| `Ranking.ClampChangesNothing` | internal/gateway/vector_store_search.go:457 | over exact arithmetic the clamp to 1 never changes a score |
| `Ranking.LexicalCosine` | internal/gateway/vector_store_search.go:445-458 | the loops compute the three sums; the score is zero without division iff dot is zero |
| `AnthropicTranslation.EncodeAnthropicMessages` | internal/protocol/encode.go:29-39 | the loop encodes every message in order |
| `AnthropicTranslation.ResolveToolResultNames` | internal/protocol/validation.go:39-51 | the map of names seen so far resolves each result to the latest earlier tool use |
| `AnthropicTranslation.DecodeRequest` | internal/protocol/decode.go:145-153 | decoding refuses exactly what the validators refuse and otherwise resolves names |
| `AnthropicTranslation.PartRoundTrip` | internal/protocol/encode.go:145-166 | one part comes back in normal form, and is accepted iff portable |
| `AnthropicTranslation.RoundTrip` | internal/protocol/decode.go:409-433 | a valid message list makes the trip iff every image is portable, and comes back as its normal form |
| `AnthropicTranslation.SecondTripChangesNothing` | internal/protocol/decode.go:511-550 | a second trip changes nothing |
| `AnthropicTranslation.ResultNames` | internal/protocol/validation.go:39-51 | tool results are named after the latest earlier tool use with their id |
| `AnthropicTranslation.StringContentIsOneText` | internal/protocol/decode.go:409-412 | plain string content is accepted and decoded exactly as a single text block |
| `AnthropicTranslation.NothingIsSkipped` | internal/protocol/decode.go:145-153 | a decoded request loses nothing: every block of array content became the part of its own kind at its place |
| `AnthropicTranslation.ArrayResultDecodes` | internal/protocol/helpers.go:10-22 | array content of a tool result decodes to the texts of its text blocks of either spelling, joined in order, as a string of that text would |
| `AnthropicTranslation.EmptyImageIsRefused` | internal/protocol/decode.go:523-544 | a concrete image with neither data nor URL is refused |

## Left out

- HTTP handlers, authentication, routing tables, multipart and JSON wire parsing: the model works on parsed values, and
  what a parser decides (a usable query, a decodable event, a valid body) is part of the input.
- The keys, providers, usage and storage packages: admission, settlement and route outcomes are free choices with the
  results the callers distinguish; the loops that retry a settlement until it succeeds are one step.
- Encryption, hashing and random tokens: sealing succeeds, opening inverts it for matching data, and new ids are new.
- Contexts and deadlines around a provider call: a call may return anything at any time; a worker stopped by its process
  is a crash, and only a cancelled item context is tied to a committed cancel.
- Validation of new batches and uploads before they are stored: the machines start from rows the handlers insert.
- Retention caps of anything but Message Batch items: everything else that is retained, the files and rows of finalized
  OpenAI Batches among them, counts as given at each admission.
- Retention caps over all conversations: the outcome of that check is free in each transaction; the per-conversation
  caps are proved.
- The reconciliation sweeps over whole tables: they are sequences of steps on single items and single batches.
- Which queued Response a process claims inside `ResponseMachine`: any may be claimed there; the order is in `Rotation`.
- Line splitting and the 16 MiB input limit of the source of a translated stream, failed writes to its client, and the
  OpenAI, Anthropic and Gemini clients of `TranslateStream`: only the Responses client has an index discipline to prove.
- What a JSON text from a provider says: of the bodies and errors inside a line the model knows only that they are on
  one line and that their strings and brackets close, which is what the reader of the line relies on.
- Where a streamed tool's id comes from later deltas: stream properties are keyed by output index.
- Usage details, prices, web-tool accounting and provider-specific body rewriting inside the failover loop: their
  outcome is part of each target, restricted by what the checks before them imply.
- JSON file schemas, OOXML, PDF and HTML extraction, WebSocket relays, realtime usage, dialing, timers, self-update and
  the dashboard: library calls and I/O.
- Floating-point rounding and the internals of `sort.Slice`: scores are reals and sorting is any ranked rearrangement.
- OpenAI and Gemini request round trips and tool choice: lossy by design.
- The two state machines relate whole states instead of updating objects, because interleaving is their point; their
  loops over rows, files, counts and conversation items are methods with the machines' effects as contracts.
- TextChunks.Utf8IsKept: a leading U+FEFF is dropped, so the text is kept on the stated condition only.
- Ranking.ClampChangesNothing: for exact arithmetic, not for the rounding of double-precision numbers.
- FileSearchBudget.SpreadBound: each search counts as at most the maximal result bytes and each turn as at most its
  reported output, as the reservation itself assumes.
- AttemptWriter.Writer.Write: writes to the client succeed; what a client that went away received is not modelled.
- GeminiRuns.LateRetries: a late retry reads its row and the file in one step, since a completed row no longer changes;
  the deletion of an API key with all its rows is not a step.
