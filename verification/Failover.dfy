/** The failover loop over the targets of a routing plan: which targets a request is dispatched to, what the client may
    see, and how attempts are accounted. */
module Failover {
  import opened Common
  import opened Sse
  import opened AttemptWriter

  /** What a dispatch does to its writer, one call at a time. */
  datatype Op = Head(code: nat) | SetHeader(name: string, value: string) | Data(bytes: Bytes) | FlushNow

  /** What the checks after a dispatch do to the buffered body. */
  datatype Post = Keep | Rewrite(bytes: Bytes) | Discard | DiscardIfUncommitted

  /** The request, as far as the loop depends on it. `single` collects the kinds of request that are never retried:
      items of OpenAI Batches, opaque media, prompt caching, hosted web tools and file search. Items of Message Batches
      and background Responses are retried like any other request. */
  datatype Config = Config(stream: bool, attached: bool, deferred: bool, store: bool, storedChat: bool, single: bool)
  {
    /** The validators refuse streaming together with storage. */
    predicate Valid() { (store || storedChat ==> !stream) && (deferred ==> attached) }

    predicate Streaming() { stream && !attached }
  }

  /** The status of a fresh writer after some calls: the first head counts, and writing or flushing implies 200. */
  function StatusAfter(ops: seq<Op>): nat {
    if ops == [] then 0
    else
      var before := StatusAfter(ops[..|ops| - 1]);
      if before != 0 then before
      else match ops[|ops| - 1]
           case Head(code) => code
           case SetHeader(_, _) => 0
           case Data(_) | FlushNow => 200
  }

  /** Whether some flush came after a successful status: on a streaming writer that commits the attempt. */
  predicate FlushedSuccess(ops: seq<Op>) {
    exists i :: 0 <= i < |ops| && ops[i].FlushNow? && 200 <= StatusAfter(ops[..i + 1]) < 300
  }

  /** Why an answer could not be stored, or its turn not appended to the conversation. */
  datatype StorageError = RetentionLimit | ConversationLimit | ConversationChanged | StorageFailure

  /** All that one target's turn through the loop depends on. `copyError` is the final value of the loop's copyErr;
      `denied` says that an admission was refused by a limit, and `storageError` why storing failed, if it did. */
  datatype Target = Target(translates: bool, admits: bool, denied: bool, current: bool, marks: bool, native: bool,
                           ops: seq<Op>, result: nat, dispatchError: bool, interrupted: bool, semanticError: bool, post: Post,
                           success: bool, copyError: bool, streamFailed: bool, searchFailed: bool, contextDone: bool,
                           turnStored: bool, settles: bool, publishes: bool, storageError: StorageError,
                           published: Bytes, waits: bool, errorSize: nat)
  {
    predicate Valid(config: Config) {
      && (success || searchFailed ==> !dispatchError && !copyError && 200 <= result < 300)
      && (dispatchError ==> copyError) && (interrupted ==> dispatchError) && (streamFailed ==> !success)
      && (200 <= result < 300 && !dispatchError ==> StatusAfter(ops) != 0)
      && (forall i :: 0 <= i < |ops| && ops[i].Head? ==> ops[i].code != 0)
      && (config.Streaming() ==> post.Keep? || post.DiscardIfUncommitted?)
      && (post.Rewrite? ==> 200 <= result < 300 && !dispatchError)
      && (post.Discard? || post.DiscardIfUncommitted? ==> copyError)
    }

    /** The request is sent to the target: it can be translated and admitted, and the attempt is marked as dispatching. */
    predicate Dispatches() { translates && admits && current && marks }
  }

  datatype Event =
    | Admitted(attempt: nat)
    | Cancelled(attempt: nat)
    | Dispatched(attempt: nat)
    | Settled(attempt: nat, final: bool)
    | Closed       // CloseFailedRequest
    | Finalized    // the request is finalized with, or instead of, its stored result

  // ---------------------------------------------------- which targets are tried

  /** `retryableResult`. */
  predicate RetryableResult(status: nat, failed: bool) {
    !(200 <= status < 300) && (failed || status == 0 || status == 408 || status == 425 || status == 429 || status >= 500)
  }

  /** The guard of a retry after a dispatch that had committed its writer or not. */
  predicate RetryGuard(config: Config, t: Target, last: bool, committed: bool) {
    && !config.single && !t.streamFailed && !last && !committed && !t.contextDone
    && ((!t.semanticError && ((t.native && t.dispatchError) || t.interrupted)) || RetryableResult(t.result, t.copyError))
  }

  predicate MayRetry(config: Config, targets: seq<Target>, i: nat)
    requires i < |targets|
  {
    RetryGuard(config, targets[i], i + 1 == |targets|, config.Streaming() && FlushedSuccess(targets[i].ops))
  }

  /** The loop moves on from target `i`: it was dispatched to, may be retried, and the wait before the retry ended. */
  predicate GoesOn(config: Config, targets: seq<Target>, i: nat)
    requires i < |targets|
  {
    targets[i].Dispatches() && MayRetry(config, targets, i) && targets[i].waits
  }

  /** The loop wants to move on from target `i`, but the wait before the retry is cut short. */
  predicate CutShort(config: Config, targets: seq<Target>, i: nat)
    requires i < |targets|
  {
    targets[i].Dispatches() && MayRetry(config, targets, i) && !targets[i].waits
  }

  /** The target the loop ends at, from target `i` on. */
  function LastTarget(config: Config, targets: seq<Target>, i: nat): (r: nat)
    requires i <= |targets|
    ensures i <= r <= |targets| && (i < |targets| ==> r < |targets| && !GoesOn(config, targets, r))
    ensures forall k :: i <= k < r ==> GoesOn(config, targets, k)
    decreases |targets| - i
  {
    if i < |targets| && GoesOn(config, targets, i) then LastTarget(config, targets, i + 1) else i
  }

  /** To how many targets a request is dispatched: all that the loop left behind, and the one it ended at, if that one was
      dispatched to. */
  function DispatchCount(config: Config, targets: seq<Target>): nat {
    var last := LastTarget(config, targets, 0);
    last + if last < |targets| && targets[last].Dispatches() then 1 else 0
  }

  function UpTo(n: nat): seq<nat> { seq(n, i => i) }

  /** No target is dispatched to twice, and a single request to one at most. */
  lemma DispatchesAreBounded(config: Config, targets: seq<Target>)
    ensures DispatchCount(config, targets) <= |targets|
    ensures config.single ==> DispatchCount(config, targets) <= 1
  {
    var last := LastTarget(config, targets, 0);
    if last > 0 { assert GoesOn(config, targets, 0); }
  }

  /** Target `j` is dispatched to if and only if every earlier one could be retried and waited for, and it can itself be
      dispatched to; for `j` = 1 that is when a request reaches a second provider. */
  lemma {:induction false} LaterDispatch(config: Config, targets: seq<Target>, j: nat)
    ensures j < DispatchCount(config, targets) <==>
              j < |targets| && targets[j].Dispatches() && forall i :: 0 <= i < j ==> GoesOn(config, targets, i)
  {
    hide RetryGuard;
    var last := LastTarget(config, targets, 0);
    if j < last {
      assert GoesOn(config, targets, j);
    } else if last < j && last < |targets| {
      assert !GoesOn(config, targets, last);
    }
  }

  /** A request that may be tried twice, whose first provider answered without any error of reading or translating it, and
      whose wait ended, reaches a second provider that can be dispatched to if and only if the first status is missing, 408,
      425, 429 or at least 500. */
  lemma RetriedStatuses(config: Config, targets: seq<Target>)
    requires |targets| > 1 && targets[0].Valid(config) && targets[0].Dispatches() && targets[1].Dispatches()
    requires !config.single && targets[0].waits && !targets[0].contextDone && !targets[0].streamFailed && !targets[0].copyError
    requires !(config.Streaming() && FlushedSuccess(targets[0].ops))
    ensures 1 < DispatchCount(config, targets) <==>
              var status := targets[0].result; status == 0 || status == 408 || status == 425 || status == 429 || status >= 500
  {
    hide FlushedSuccess, StatusAfter, LastTarget, DispatchCount;
    LaterDispatch(config, targets, 1);
    assert GoesOn(config, targets, 0) <==> forall i :: 0 <= i < 1 ==> GoesOn(config, targets, i);
  }

  /** With an error the request also moves on after any status that is not 2xx; after a 2xx one it does so only for an
      error of the connection or an interrupted answer, never for an answer that says the wrong thing. A single request,
      the last target, a committed stream, a failed stream and a gone client never do. */
  lemma RetriedErrors(config: Config, targets: seq<Target>)
    requires |targets| > 1 && targets[0].Valid(config) && targets[0].Dispatches() && targets[1].Dispatches() && targets[0].copyError
    ensures 1 < DispatchCount(config, targets) <==>
              var t := targets[0];
              && t.waits && !config.single && !t.contextDone && !t.streamFailed && !(config.Streaming() && FlushedSuccess(t.ops))
              && (t.result < 200 || t.result >= 300 || (!t.semanticError && (t.interrupted || (t.native && t.dispatchError))))
  {
    hide FlushedSuccess, StatusAfter, LastTarget, DispatchCount;
    LaterDispatch(config, targets, 1);
    assert GoesOn(config, targets, 0) <==> forall i :: 0 <= i < 1 ==> GoesOn(config, targets, i);
  }

  // --------------------------------------------------------------- the client

  /** The events of `n` attempts that were each retried. */
  function Retried(n: nat): seq<Event> {
    if n == 0 then [] else Retried(n - 1) + [Admitted(n - 1), Dispatched(n - 1), Settled(n - 1, false)]
  }

  /** The events of the last turn, after `n` retried attempts. */
  predicate LastTurn(n: nat, events: seq<Event>) {
    || events == []
    || (events == [Closed] && n > 0)
    || events == [Admitted(n), Cancelled(n)]
    || (exists final :: events == [Admitted(n), Dispatched(n), Settled(n, final)])
    || events == [Admitted(n), Dispatched(n), Settled(n, false), Closed]
    || events == [Admitted(n), Dispatched(n), Settled(n, false), Finalized]
  }

  /** The targets of the dispatches in a log, in order. */
  function DispatchedTo(log: seq<Event>): seq<nat> {
    if log == [] then []
    else DispatchedTo(log[..|log| - 1]) + if log[|log| - 1].Dispatched? then [log[|log| - 1].attempt] else []
  }

  /** The body of one attempt, one gateway error alone, or nothing. */
  ghost predicate OneSource(body: seq<Piece>, attempt: nat) {
    FromAttempt(body, attempt) || (|body| == 1 && body[0].Gateway?)
  }

  ghost predicate FromAttempt(body: seq<Piece>, attempt: nat) {
    forall i :: 0 <= i < |body| ==> body[i].Provider? && body[i].attempt == attempt
  }

  /** Whether the answer is only published once its settlement succeeded and it was stored. */
  predicate Publishing(config: Config, t: Target) {
    !config.deferred && !t.contextDone
    && ((t.success && (config.store || config.storedChat)) || (t.searchFailed && !t.success && config.store))
  }

  /** Whether the conversation turn of an answer that is not stored could not be appended. */
  predicate TurnLost(config: Config, t: Target) {
    t.success && config.attached && !config.store && !config.deferred && !t.turnStored
  }

  /** The answer could not be stored as the request asks; a result to publish counts, not the turn before it. */
  predicate StorageFailed(config: Config, t: Target) {
    if Publishing(config, t) then !t.publishes else TurnLost(config, t)
  }

  // ------------------------------------------------------------ what the client is to see

  datatype Answer = Nothing | Shown(status: nat, bytes: Bytes) | Error(status: nat)

  /** The provider's bytes in a body, one after the other. */
  function BytesOf(body: seq<Piece>): Bytes {
    if body == [] then []
    else BytesOf(body[..|body| - 1]) + if body[|body| - 1].Provider? then body[|body| - 1].bytes else []
  }

  /** All bytes that a dispatch writes. */
  function DataOf(ops: seq<Op>): Bytes {
    if ops == [] then [] else DataOf(ops[..|ops| - 1]) + if ops[|ops| - 1].Data? then ops[|ops| - 1].bytes else []
  }

  /** The bytes of a dispatch that are kept under a buffer limit: a write that would exceed it is refused. */
  function Held(ops: seq<Op>, limit: nat): (r: Bytes)
    ensures limit > 0 ==> |r| <= limit
  {
    if ops == [] then []
    else
      var before, op := Held(ops[..|ops| - 1], limit), ops[|ops| - 1];
      if op.Data? && (limit == 0 || |before| + |op.bytes| <= limit) then before + op.bytes else before
  }

  /** Nothing is lost if and only if everything fits. */
  lemma {:induction false} HeldIsData(ops: seq<Op>, limit: nat)
    ensures Held(ops, limit) == DataOf(ops) <==> limit == 0 || |DataOf(ops)| <= limit
  {
    if ops != [] { HeldIsData(ops[..|ops| - 1], limit); }
  }

  /** The buffer limit of an attempt's writer: only a stream that is held back for a conversation has one. */
  function Limit(config: Config): nat { if config.stream && config.attached then MAX_INFERENCE_BODY else 0 }

  function StorageStatus(e: StorageError): nat {
    match e
    case RetentionLimit | ConversationLimit => 429
    case ConversationChanged => 409
    case StorageFailure => 503
  }

  /** The attempt was shown to the client while it was streaming. */
  predicate Committed(config: Config, t: Target) { config.Streaming() && FlushedSuccess(t.ops) }

  /** What an attempt that is neither retried nor stored leaves for the client: its status and bytes, with the body that a
      check put in their place; or an error of the gateway when the attempt is dropped or has no status. */
  function AttemptAnswer(config: Config, t: Target): Answer {
    var dropped := !Committed(config, t)
                   && ((t.dispatchError && 200 <= t.result < 300) || t.post.Discard? || t.post.DiscardIfUncommitted?);
    if dropped || StatusAfter(t.ops) == 0 then Error(502)
    else Shown(StatusAfter(t.ops), if t.post.Rewrite? then t.post.bytes else Held(t.ops, Limit(config)))
  }

  /** What the client sees when the loop ends at a target. */
  function AnswerOf(config: Config, t: Target, last: bool): Answer {
    if !t.translates then Error(400)
    else if !t.admits then Error(if t.denied then 429 else 503)
    else if !t.current || !t.marks then Error(503)
    else if Publishing(config, t) && !t.settles then Error(503)
    else if StorageFailed(config, t) then Error(StorageStatus(t.storageError))
    else if Publishing(config, t) then Shown(StatusAfter(t.ops), t.published)
    else if RetryGuard(config, t, last, Committed(config, t)) then Nothing
    else AttemptAnswer(config, t)
  }

  /** The client has this answer: nothing at all, the provider's bytes under this status, or the gateway's error. */
  ghost predicate Sees(client: Client, answer: Answer)
    reads client
  {
    match answer
    case Nothing => client.Untouched()
    case Shown(status, bytes) =>
      client.status == status && BytesOf(client.body) == bytes && forall i :: 0 <= i < |client.body| ==> client.body[i].Provider?
    case Error(status) => client.status == status && forall i :: 0 <= i < |client.body| ==> client.body[i].Gateway?
  }

  /** An attempt's writer and its client together have this status and these bytes. */
  ghost predicate Carries(writer: Writer, status: nat, bytes: Bytes)
    reads writer, writer.client
  {
    && writer.status == status && BytesOf(writer.client.body) + BytesOf(writer.body) == bytes
    && (writer.committed ==> writer.client.status == status)
  }

  lemma BytesOfSnoc(body: seq<Piece>, p: Piece)
    ensures BytesOf(body + [p]) == BytesOf(body) + if p.Provider? then p.bytes else []
  {
    assert (body + [p])[..|body|] == body;
  }

  lemma NoBytes()
    ensures BytesOf([]) == [] && Held([], 0) == []
  {
  }

  lemma OnePiece(n: nat, bytes: Bytes)
    ensures BytesOf([Provider(n, bytes)]) == bytes
  {
    assert [Provider(n, bytes)][..0] == [];
  }

  lemma {:induction false} BodySizeIsLength(body: seq<Piece>, n: nat)
    requires FromAttempt(body, n)
    ensures BodySize(body) == |BytesOf(body)|
  {
    if body != [] { BodySizeIsLength(body[..|body| - 1], n); }
  }

  lemma HeldNext(ops: seq<Op>, n: nat, limit: nat)
    requires n < |ops|
    ensures Held(ops[..n + 1], limit)
            == if ops[n].Data? && (limit == 0 || |Held(ops[..n], limit)| + |ops[n].bytes| <= limit)
               then Held(ops[..n], limit) + ops[n].bytes else Held(ops[..n], limit)
  {
    assert ops[..n + 1][..n] == ops[..n];
  }

  lemma StatusSnoc(ops: seq<Op>, op: Op)
    ensures FlushedSuccess(ops + [op]) <==> FlushedSuccess(ops) || (op.FlushNow? && 200 <= StatusAfter(ops + [op]) < 300)
  {
    hide StatusAfter;
    var all := ops + [op];
    forall i | 0 <= i < |ops| ensures all[i] == ops[i] && all[..i + 1] == ops[..i + 1] { }
    assert all[..|ops| + 1] == all && all[|ops|] == op;
  }

  lemma StatusNext(ops: seq<Op>, n: nat)
    requires n < |ops|
    ensures StatusAfter(ops[..n + 1]) == if StatusAfter(ops[..n]) != 0 then StatusAfter(ops[..n])
                                         else match ops[n]
                                              case Head(code) => code
                                              case SetHeader(_, _) => 0
                                              case Data(_) | FlushNow => 200
    ensures FlushedSuccess(ops[..n + 1]) <==> FlushedSuccess(ops[..n]) || (ops[n].FlushNow? && 200 <= StatusAfter(ops[..n + 1]) < 300)
  {
    hide FlushedSuccess;
    assert ops[..n + 1][..n] == ops[..n];
    assert ops[..n + 1] == ops[..n] + [ops[n]];
    StatusSnoc(ops[..n], ops[n]);
  }

  /** A dispatch writes to its own attempt only, and reaches the client exactly by flushing a successful stream. Writer
      and client together have the bytes written, up to the buffer limit, under the first status. */
  method RunOps(writer: Writer, attempt: nat, ops: seq<Op>)
    requires writer.Valid() && !writer.committed && writer.body == [] && writer.status == 0
    requires writer.streaming ==> writer.bufferLimit == 0
    requires forall i :: 0 <= i < |ops| && ops[i].Head? ==> ops[i].code != 0
    modifies writer, writer.client
    ensures writer.Valid() && FromAttempt(writer.body, attempt) && FromAttempt(writer.client.body, attempt)
    ensures Carries(writer, StatusAfter(ops), Held(ops, writer.bufferLimit))
    ensures writer.committed <==> writer.streaming && FlushedSuccess(ops)
    ensures writer.committed ==> writer.status != 0
    ensures writer.status == 0 ==> writer.body == []
  {
    hide StatusAfter, FlushedSuccess, BytesOf, Held, BodySize;
    var n := 0;
    NoOps();
    NoBytes();
    assert ops[..0] == [];
    assert Held(ops[..0], writer.bufferLimit) == [] by { NothingHeld(writer.bufferLimit); }
    while n < |ops|
      invariant 0 <= n <= |ops| && writer.Valid()
      invariant FromAttempt(writer.body, attempt) && FromAttempt(writer.client.body, attempt)
      invariant Carries(writer, StatusAfter(ops[..n]), Held(ops[..n], writer.bufferLimit))
      invariant writer.committed <==> writer.streaming && FlushedSuccess(ops[..n])
      invariant writer.committed ==> writer.status != 0
      invariant writer.status == 0 ==> writer.body == []
    {
      StatusNext(ops, n);
      HeldNext(ops, n, writer.bufferLimit);
      match ops[n] {
        case Head(code) => writer.WriteHeader(code);
        case SetHeader(name, value) => writer.SetHeader(name, value);
        case Data(bytes) => RunData(writer, attempt, bytes);
        case FlushNow => RunFlush(writer);
      }
      n := n + 1;
    }
    assert ops[..n] == ops;
  }

  /** One write of a dispatch. */
  method RunData(writer: Writer, attempt: nat, bytes: Bytes)
    requires writer.Valid() && FromAttempt(writer.body, attempt) && FromAttempt(writer.client.body, attempt)
    requires writer.committed ==> writer.bufferLimit == 0 && writer.status != 0
    requires writer.committed ==> writer.client.status == writer.status
    modifies writer, writer.client`status, writer.client`body
    ensures writer.Valid() && FromAttempt(writer.body, attempt) && FromAttempt(writer.client.body, attempt)
    ensures writer.committed == old(writer.committed)
    ensures writer.status == if old(writer.status) == 0 then 200 else old(writer.status)
    ensures writer.committed ==> writer.client.status == writer.status
    ensures var before := old(BytesOf(writer.client.body) + BytesOf(writer.body));
            BytesOf(writer.client.body) + BytesOf(writer.body)
            == if writer.bufferLimit == 0 || |before| + |bytes| <= writer.bufferLimit then before + bytes else before
  {
    hide BytesOf, BodySize;
    NoBytes();
    BodySizeIsLength(writer.body, attempt);
    BytesOfSnoc(writer.body, Provider(attempt, bytes));
    BytesOfSnoc(writer.client.body, Provider(attempt, bytes));
    var ok := writer.Write(Provider(attempt, bytes));
  }

  /** One flush of a dispatch. */
  method RunFlush(writer: Writer)
    requires writer.Valid() && (writer.committed ==> writer.client.status == writer.status)
    modifies writer, writer.client
    ensures writer.Valid()
    ensures writer.status == if old(writer.status) == 0 then 200 else old(writer.status)
    ensures writer.committed <==> old(writer.committed) || (writer.streaming && 200 <= writer.status < 300)
    ensures writer.committed ==> writer.client.status == writer.status
    ensures (writer.body == old(writer.body) && writer.client.body == old(writer.client.body))
            || (writer.body == [] && writer.client.body == old(writer.body) && old(writer.client.body) == [])
    ensures BytesOf(writer.client.body) + BytesOf(writer.body) == old(BytesOf(writer.client.body) + BytesOf(writer.body))
  {
    hide BytesOf;
    NoBytes();
    writer.Flush();
  }

  lemma NothingHeld(limit: nat)
    ensures Held([], limit) == []
  {
  }

  lemma NoOps()
    ensures StatusAfter([]) == 0 && !FlushedSuccess([])
  {
  }

  /** An error body after a reset: the whole answer is the gateway's, under its own status. */
  method AnswerError(writer: Writer, status: nat, size: nat)
    requires writer.Valid() && !writer.committed && status != 0
    modifies writer, writer.client
    ensures writer.Valid() && writer.committed && Sees(writer.client, Error(status))
    ensures writer.client.body == if writer.bufferLimit == 0 || size <= writer.bufferLimit then [Gateway(status, size)] else []
  {
    writer.Reset();
    writer.WriteHeader(status);
    assert BodySize([]) == 0;
    var ok := writer.Write(Gateway(status, size));
    writer.Commit();
  }

  method Reply(client: Client, status: nat, size: nat)
    requires client.Untouched() && status != 0
    modifies client
    ensures client.body == [Gateway(status, size)] && Sees(client, Error(status))
  {
    client.WriteHeader(status);
    client.Write([Gateway(status, size)]);
  }

  /** Writer and client after the dispatch of a target. */
  ghost predicate AfterOps(writer: Writer, n: nat, config: Config, t: Target)
    reads writer, writer.client
  {
    && writer.Valid() && FromAttempt(writer.body, n) && FromAttempt(writer.client.body, n)
    && Carries(writer, StatusAfter(t.ops), Held(t.ops, Limit(config)))
    && writer.committed == Committed(config, t)
    && (writer.committed ==> writer.status != 0) && (writer.status == 0 ==> writer.body == [])
  }

  /** Writer and client after the checks: the bytes kept, the bytes put in their place, or nothing. */
  ghost predicate AfterPost(writer: Writer, n: nat, config: Config, t: Target)
    reads writer, writer.client
  {
    && writer.Valid() && FromAttempt(writer.body, n) && FromAttempt(writer.client.body, n)
    && writer.committed == Committed(config, t)
    && (writer.committed ==> writer.status != 0) && (writer.status == 0 ==> writer.body == [])
    && if !Committed(config, t) && (t.post.Discard? || t.post.DiscardIfUncommitted?)
       then writer.status == 0
       else Carries(writer, StatusAfter(t.ops), if t.post.Rewrite? then t.post.bytes else Held(t.ops, Limit(config)))
  }

  /** The checks after a dispatch replace or drop what is held back of it, never what was committed. */
  method ApplyPost(writer: Writer, n: nat, config: Config, t: Target)
    requires config.Valid() && t.Valid(config) && writer.streaming == config.Streaming() && AfterOps(writer, n, config, t)
    modifies writer, writer.client
    ensures AfterPost(writer, n, config, t) && writer.client.body == old(writer.client.body)
    ensures t.success || t.searchFailed ==> writer.status != 0
  {
    hide StatusAfter, FlushedSuccess, BytesOf, Held;
    NoBytes();
    match t.post {
      case Keep =>
      case Rewrite(bytes) =>
        OnePiece(n, bytes);
        writer.body := [Provider(n, bytes)];
      case Discard => writer.Reset();
      case DiscardIfUncommitted => if !writer.committed { writer.Reset(); }
    }
  }

  /** What follows the dispatch of one attempt inside `forwardAuthorized`: checks, settlement, storage and the answer.
      It comes back with `again` exactly if the attempt may be retried and the wait ended; otherwise the client sees what
      `AnswerOf` says. */
  method AfterDispatch(writer: Writer, n: nat, last: bool, config: Config, t: Target) returns (again: bool, events: seq<Event>)
    requires config.Valid() && t.Valid(config) && t.Dispatches() && writer.streaming == config.Streaming() && AfterOps(writer, n, config, t)
    modifies writer, writer.client
    ensures again <==> RetryGuard(config, t, last, Committed(config, t)) && t.waits
    ensures again ==> writer.client.Untouched() && events == [Settled(n, false)]
    ensures !again ==> LastTurn(n, [Admitted(n), Dispatched(n)] + events) && OneSource(writer.client.body, n)
    ensures !again ==> Sees(writer.client, AnswerOf(config, t, last))
    ensures !again && writer.client.Untouched() ==> events == [Settled(n, false), Closed]
  {
    hide StatusAfter, FlushedSuccess, BytesOf, Held, OneSource, Sees, AttemptAnswer, StorageStatus;
    ApplyPost(writer, n, config, t);
    var retry := RetryGuard(config, t, last, writer.committed);
    var publish := Publishing(config, t);
    var storageFailed := TurnLost(config, t);
    var final := !retry && !storageFailed && !publish && !(config.deferred && t.success && !t.contextDone);
    events := [Settled(n, final)];
    if publish && !t.settles {
      AnswerError(writer, 503, t.errorSize);
      ErrorIsOneSource(writer, n, 503);
      return false, events;
    }
    if publish {
      storageFailed := !t.publishes;
      if !storageFailed {
        events := events + [Finalized];
        writer.body := [Provider(n, t.published)];
        OnePiece(n, t.published);
        NoBytes();
      }
    }
    if storageFailed {
      var status := StorageStatus(t.storageError);
      StorageStatusIsError(t.storageError);
      AnswerError(writer, status, t.errorSize);
      ErrorIsOneSource(writer, n, status);
      return false, [Settled(n, final), Finalized];
    }
    if retry {
      if !t.waits {
        UntouchedIsNothing(writer.client, n);
        return false, [Settled(n, final), Closed];
      }
      return true, events;
    }
    Conclude(writer, n, config, t);
    return false, events;
  }

  lemma StorageStatusIsError(e: StorageError)
    ensures StorageStatus(e) >= 400
  {
  }

  lemma ErrorIsOneSource(writer: Writer, n: nat, status: nat)
    requires Sees(writer.client, Error(status)) && status != 0 && |writer.client.body| <= 1
    ensures OneSource(writer.client.body, n) && !writer.client.Untouched()
  {
  }

  lemma UntouchedIsNothing(client: Client, n: nat)
    requires client.Untouched()
    ensures OneSource(client.body, n) && Sees(client, Nothing)
  {
  }

  /** The end of the loop body: what is held back is committed, or an error in place of nothing. */
  method Conclude(writer: Writer, n: nat, config: Config, t: Target)
    requires config.Valid() && t.Valid(config)
    requires FromAttempt(writer.body, n) && FromAttempt(writer.client.body, n) && writer.Valid()
    requires (writer.committed ==> writer.status != 0) && (t.success || t.searchFailed ==> writer.status != 0)
    requires if Publishing(config, t) then Carries(writer, StatusAfter(t.ops), t.published) && !writer.committed
             else AfterPost(writer, n, config, t)
    modifies writer, writer.client
    ensures writer.Valid() && writer.committed && OneSource(writer.client.body, n) && !writer.client.Untouched()
    ensures Sees(writer.client, if Publishing(config, t) then Shown(StatusAfter(t.ops), t.published) else AttemptAnswer(config, t))
  {
    hide StatusAfter, FlushedSuccess, BytesOf, Held;
    NoBytes();
    if t.dispatchError && 200 <= t.result < 300 && !writer.committed { writer.Reset(); }
    if !t.success && writer.status == 0 {
      AnswerError(writer, 502, t.errorSize);
    } else {
      writer.Commit();
    }
  }

  /** One turn of the loop: target `i` is refused before its dispatch, or dispatched to and then retried or answered. */
  method TryTarget(targets: seq<Target>, i: nat, config: Config, client: Client, errorSize: nat) returns (again: bool, events: seq<Event>)
    requires config.Valid() && client.Untouched() && i < |targets| && targets[i].Valid(config)
    modifies client
    ensures again <==> GoesOn(config, targets, i)
    ensures again ==> client.Untouched() && events == [Admitted(i), Dispatched(i), Settled(i, false)]
    ensures !again ==> LastTurn(i, events) && OneSource(client.body, i) && (targets[i].Dispatches() <==> |events| >= 3)
    ensures !again ==> Sees(client, AnswerOf(config, targets[i], i + 1 == |targets|))
    ensures !again && client.Untouched() ==> events != [] && events[|events| - 1] == Closed
  {
    hide RetryGuard, FlushedSuccess, StatusAfter, Publishing, StorageFailed, AttemptAnswer, BytesOf, Held, Sees;
    var t := targets[i];
    if !t.translates || !t.admits {
      Reply(client, if !t.translates then 400 else if t.denied then 429 else 503, errorSize);
      return false, if i > 0 then [Closed] else [];
    }
    client.header := client.header[REQUEST_ID := "request"];
    if !t.current || !t.marks {
      Reply(client, 503, errorSize);
      return false, [Admitted(i), Cancelled(i)];
    }
    var writer := new Writer(client, config.Streaming(), Limit(config));
    RunOps(writer, i, t.ops);
    again, events := AfterDispatch(writer, i, i + 1 == |targets|, config, t);
    events := [Admitted(i), Dispatched(i)] + events;
    assert events[1] == Dispatched(i);
  }

  /** A streamed answer of a conversation loses bytes if and only if it is longer than 16 MiB; no other answer loses any. */
  lemma NothingIsLostIff(config: Config, ops: seq<Op>)
    ensures Held(ops, Limit(config)) == DataOf(ops) <==> !(config.stream && config.attached) || |DataOf(ops)| <= MAX_INFERENCE_BODY
  {
    HeldIsData(ops, Limit(config));
  }

  /** What a client sees of a success: a result to be stored, under its status, exactly when it was accounted and stored,
      and the error that says why not otherwise; an answer whose turn could not be appended to its conversation not at
      all; and any other answer under the provider's status, with all the bytes it wrote or those of the rewritten body. */
  lemma SuccessIsShown(config: Config, t: Target, last: bool)
    requires config.Valid() && t.Valid(config) && t.Dispatches() && t.success
    requires config.stream && config.attached ==> |DataOf(t.ops)| <= MAX_INFERENCE_BODY
    ensures var stores := !config.deferred && !t.contextDone && (config.store || config.storedChat);
            var appends := config.attached && !config.store && !config.deferred;
            var storageError := Error(if t.storageError.ConversationChanged? then 409
                                      else if t.storageError.StorageFailure? then 503 else 429);
            AnswerOf(config, t, last)
            == if stores
               then (if !t.settles then Error(503) else if !t.publishes then storageError else Shown(StatusAfter(t.ops), t.published))
               else if appends && !t.turnStored then storageError
               else Shown(StatusAfter(t.ops), if t.post.Rewrite? then t.post.bytes else DataOf(t.ops))
  {
    hide StatusAfter, FlushedSuccess, Held, DataOf;
    NothingIsLostIff(config, t.ops);
  }

  /** What a client sees of a failure that is the end of the loop: the provider's own status and bytes if the attempt was
      shown already or can be shown, and "bad gateway" if a 2xx answer broke off, was rejected by a check, or there is no
      status at all. A hosted search that failed is stored like a success when the request asks for storage. */
  lemma FailureIsShown(config: Config, t: Target, last: bool)
    requires config.Valid() && t.Valid(config) && t.Dispatches() && !t.success && !(t.searchFailed && config.store)
    requires config.stream && config.attached ==> |DataOf(t.ops)| <= MAX_INFERENCE_BODY
    requires AnswerOf(config, t, last) != Nothing
    ensures var shown := config.Streaming() && FlushedSuccess(t.ops);
            var broken := (t.dispatchError && 200 <= t.result < 300) || t.post.Discard? || t.post.DiscardIfUncommitted?;
            AnswerOf(config, t, last)
            == if (broken && !shown) || StatusAfter(t.ops) == 0 then Error(502)
               else Shown(StatusAfter(t.ops), if t.post.Rewrite? then t.post.bytes else DataOf(t.ops))
  {
    hide StatusAfter, FlushedSuccess, Held, DataOf, RetryGuard;
    NothingIsLostIff(config, t.ops);
  }

  /** What the client sees of a whole request. */
  function FinalAnswer(config: Config, targets: seq<Target>): Answer {
    var last := LastTarget(config, targets, 0);
    if last < |targets| then AnswerOf(config, targets[last], last + 1 == |targets|) else Nothing
  }

  /** The client gets no answer at all if and only if the plan is empty or the wait before a retry was cut short. */
  lemma NoAnswerIff(config: Config, targets: seq<Target>)
    requires config.Valid() && forall i :: 0 <= i < |targets| ==> targets[i].Valid(config)
    ensures FinalAnswer(config, targets).Nothing? <==> targets == [] || CutShort(config, targets, LastTarget(config, targets, 0))
  {
    hide LastTarget, StatusAfter, FlushedSuccess, Held, StorageStatus;
  }

  /** The loop of `forwardAuthorized` over the plan's targets. It dispatches to the targets `DispatchCount` tells, in
      their order. Whatever they do, the client sees the answer of the last attempt alone, with the provider's status and
      bytes or the stored body, one gateway error alone, or nothing, and nothing exactly if the plan is empty or the wait
      before a retry was cut short; every earlier attempt was settled and not final. */
  method Forward(targets: seq<Target>, config: Config, client: Client, errorSize: nat) returns (log: seq<Event>, ghost last: nat)
    requires config.Valid() && client.Untouched() && forall i :: 0 <= i < |targets| ==> targets[i].Valid(config)
    modifies client
    ensures last == LastTarget(config, targets, 0) && DispatchedTo(log) == UpTo(DispatchCount(config, targets))
    ensures OneSource(client.body, last) && Sees(client, FinalAnswer(config, targets))
    ensures |Retried(last)| <= |log| && log[..|Retried(last)|] == Retried(last) && LastTurn(last, log[|Retried(last)|..])
    ensures client.Untouched() <==> targets == [] || CutShort(config, targets, last)
    ensures client.Untouched() && targets != [] ==> log != [] && log[|log| - 1] == Closed
  {
    hide LastTarget, Retried, DispatchedTo, DispatchCount, GoesOn, CutShort, LastTurn, AnswerOf, Sees, FinalAnswer;
    NoAnswerIff(config, targets);
    AnswerHasStatus(config, targets);
    log := [];
    var index := 0;
    NothingRetried(config);
    while index < |targets|
      invariant 0 <= index <= |targets| && client.Untouched() && log == Retried(index)
      invariant index == |targets| ==> targets == []
      invariant LastTarget(config, targets, 0) == LastTarget(config, targets, index)
    {
      EndsOrGoesOn(config, targets, index);
      var again, events := TryTarget(targets, index, config, client, errorSize);
      log := log + events;
      if !again {
        EndedAt(config, targets, index, events);
        AnswerIsNothing(client, FinalAnswer(config, targets));
        return log, index;
      }
      RetriedNext(index);
      index := index + 1;
    }
    NothingIsUntouched(client);
    return log, index;
  }

  lemma AnswerHasStatus(config: Config, targets: seq<Target>)
    requires config.Valid() && forall i :: 0 <= i < |targets| ==> targets[i].Valid(config)
    ensures FinalAnswer(config, targets).Shown? || FinalAnswer(config, targets).Error? ==> FinalAnswer(config, targets).status != 0
    ensures targets == [] ==> FinalAnswer(config, targets).Nothing?
    ensures var n := LastTarget(config, targets, 0);
            n < |targets| ==> FinalAnswer(config, targets) == AnswerOf(config, targets[n], n + 1 == |targets|)
  {
    hide StatusAfter, FlushedSuccess, Held, RetryGuard;
  }

  lemma NothingIsUntouched(client: Client)
    requires client.Untouched()
    ensures Sees(client, Nothing) && OneSource(client.body, 0)
  {
  }

  /** Every answer but the empty one is visible. */
  lemma AnswerIsNothing(client: Client, answer: Answer)
    requires Sees(client, answer) && (answer.Shown? || answer.Error? ==> answer.status != 0)
    ensures client.Untouched() <==> answer.Nothing?
  {
  }

  lemma NothingRetried(config: Config)
    ensures Retried(0) == [] && DispatchedTo([]) == [] && LastTurn(0, [])
    ensures LastTarget(config, [], 0) == 0 && DispatchCount(config, []) == 0
  {
  }

  lemma RetriedNext(n: nat)
    ensures Retried(n + 1) == Retried(n) + [Admitted(n), Dispatched(n), Settled(n, false)]
  {
  }

  lemma EndsOrGoesOn(config: Config, targets: seq<Target>, i: nat)
    requires i < |targets|
    ensures LastTarget(config, targets, i) == if GoesOn(config, targets, i) then LastTarget(config, targets, i + 1) else i
    ensures GoesOn(config, targets, i) ==> i + 1 < |targets|
  {
  }

  /** Where the loop ends decides which targets its log has dispatches to. */
  lemma EndedAt(config: Config, targets: seq<Target>, n: nat, tail: seq<Event>)
    requires n < |targets| && LastTarget(config, targets, 0) == n && LastTurn(n, tail)
    requires targets[n].Dispatches() <==> |tail| >= 3
    ensures DispatchedTo(Retried(n) + tail) == UpTo(DispatchCount(config, targets))
    ensures (Retried(n) + tail)[..|Retried(n)|] == Retried(n) && (Retried(n) + tail)[|Retried(n)|..] == tail
  {
    hide LastTarget, Retried, DispatchedTo;
    RetriedDispatches(n);
    TailDispatches(n, tail);
    DispatchedAppend(Retried(n), tail);
    if |tail| >= 3 { assert UpTo(n) + [n] == UpTo(n + 1); }
  }

  lemma {:induction false} DispatchedAppend(a: seq<Event>, b: seq<Event>)
    ensures DispatchedTo(a + b) == DispatchedTo(a) + DispatchedTo(b)
  {
    if b == [] {
      assert a + b == a;
    } else {
      DispatchedAppend(a, b[..|b| - 1]);
      assert (a + b)[..|a + b| - 1] == a + b[..|b| - 1];
    }
  }

  lemma {:induction false} RetriedDispatches(n: nat)
    ensures DispatchedTo(Retried(n)) == UpTo(n)
  {
    if n > 0 {
      RetriedDispatches(n - 1);
      var turn := [Admitted(n - 1), Dispatched(n - 1), Settled(n - 1, false)];
      DispatchedAppend(Retried(n - 1), turn);
      OneDispatch(n - 1, turn);
    }
  }

  lemma {:induction false} NoDispatch(log: seq<Event>)
    requires forall i :: 0 <= i < |log| ==> !log[i].Dispatched?
    ensures DispatchedTo(log) == []
  {
    if log != [] { NoDispatch(log[..|log| - 1]); }
  }

  lemma OneDispatch(n: nat, tail: seq<Event>)
    requires |tail| > 1 && tail[1] == Dispatched(n) && forall i :: 0 <= i < |tail| && i != 1 ==> !tail[i].Dispatched?
    ensures DispatchedTo(tail) == [n]
  {
    var before, rest := tail[..1], tail[2..];
    assert tail == before + [Dispatched(n)] + rest;
    assert DispatchedTo([Dispatched(n)]) == [n] by { assert [Dispatched(n)][..0] == []; }
    hide DispatchedTo;
    NoDispatch(before);
    NoDispatch(rest);
    DispatchedAppend(before, [Dispatched(n)]);
    DispatchedAppend(before + [Dispatched(n)], rest);
  }

  lemma TailDispatches(n: nat, tail: seq<Event>)
    requires LastTurn(n, tail)
    ensures DispatchedTo(tail) == if |tail| >= 3 then [n] else []
  {
    hide DispatchedTo;
    if |tail| < 3 { NoDispatch(tail); } else { OneDispatch(n, tail); }
  }

  // --------------------------------------------------------------- two providers

  /** A target whose answer has the given status and nothing else to it, and a request without any option. */
  function PlainTarget(status: nat, waits: bool): Target {
    Target(true, true, false, true, true, true, [Head(status)], status, false, false, false, Keep,
           status == 200, false, false, false, false, true, true, true, StorageFailure, [], waits, 0)
  }

  const PLAIN_REQUEST := Config(false, false, false, false, false, false)

  /** A plain request whose first provider answers 503 is sent to a second one. */
  lemma SecondProvider()
    ensures var targets := [PlainTarget(503, true), PlainTarget(200, true)];
            && PLAIN_REQUEST.Valid() && (forall i :: 0 <= i < 2 ==> targets[i].Valid(PLAIN_REQUEST))
            && DispatchCount(PLAIN_REQUEST, targets) == 2
  {
    var targets := [PlainTarget(503, true), PlainTarget(200, true)];
    assert forall s :: StatusAfter([Head(s)]) == s by { forall s ensures StatusAfter([Head(s)]) == s { assert [Head(s)][..0] == []; } }
    assert GoesOn(PLAIN_REQUEST, targets, 0);
    LaterDispatch(PLAIN_REQUEST, targets, 1);
    DispatchesAreBounded(PLAIN_REQUEST, targets);
  }

  /** The same request is left without an answer when the wait before its second attempt is cut short. */
  method SilentClient(client: Client)
    requires client.Untouched()
    modifies client
    ensures client.Untouched()
  {
    var targets := [PlainTarget(503, false), PlainTarget(200, true)];
    assert forall s :: StatusAfter([Head(s)]) == s by { forall s ensures StatusAfter([Head(s)]) == s { assert [Head(s)][..0] == []; } }
    assert CutShort(PLAIN_REQUEST, targets, 0) && !GoesOn(PLAIN_REQUEST, targets, 0);
    var log, last := Forward(targets, PLAIN_REQUEST, client, 0);
    assert log != [];
  }

  // -------------------------------------------------------------- accounting

  function Count(log: seq<Event>, e: Event): nat {
    if log == [] then 0 else Count(log[..|log| - 1], e) + if log[|log| - 1] == e then 1 else 0
  }

  lemma {:induction false} CountAppend(a: seq<Event>, b: seq<Event>, e: Event)
    ensures Count(a + b, e) == Count(a, e) + Count(b, e)
  {
    if b == [] {
      assert a + b == a;
    } else {
      CountAppend(a, b[..|b| - 1], e);
      assert (a + b)[..|a + b| - 1] == a + b[..|b| - 1];
    }
  }

  /** Events that are all different are counted once each. */
  lemma {:induction false} CountDistinct(log: seq<Event>, e: Event)
    requires forall i, j :: 0 <= i < j < |log| ==> log[i] != log[j]
    ensures Count(log, e) == if e in log then 1 else 0
  {
    if log != [] { CountDistinct(log[..|log| - 1], e); }
  }

  lemma {:induction false} RetriedCount(n: nat, e: Event)
    ensures Count(Retried(n), e) == match e
                                    case Admitted(j) => if j < n then 1 else 0
                                    case Dispatched(j) => if j < n then 1 else 0
                                    case Settled(j, final) => if j < n && !final then 1 else 0
                                    case _ => 0
  {
    hide Count;
    if n > 0 {
      RetriedCount(n - 1, e);
      var turn := [Admitted(n - 1), Dispatched(n - 1), Settled(n - 1, false)];
      CountAppend(Retried(n - 1), turn, e);
      CountDistinct(turn, e);
    } else {
      CountDistinct([], e);
    }
  }

  /** Every admitted attempt is either cancelled before its dispatch, or dispatched and settled, never both and never
      twice; at most one settlement is final, and it is the last attempt's and the last thing that happens. */
  lemma EveryAttemptIsAccounted(log: seq<Event>, last: nat, j: nat)
    requires |Retried(last)| <= |log| && log[..|Retried(last)|] == Retried(last) && LastTurn(last, log[|Retried(last)|..])
    ensures Count(log, Admitted(j)) <= 1
    ensures Count(log, Admitted(j)) == Count(log, Cancelled(j)) + Count(log, Dispatched(j))
    ensures Count(log, Dispatched(j)) == Count(log, Settled(j, false)) + Count(log, Settled(j, true))
    ensures Count(log, Settled(j, true)) > 0 ==> j == last && log[|log| - 1] == Settled(j, true)
  {
    hide Count, Retried;
    var tail := log[|Retried(last)|..];
    assert log == Retried(last) + tail;
    var events := [Admitted(j), Cancelled(j), Dispatched(j), Settled(j, false), Settled(j, true)];
    forall i | 0 <= i < |events|
      ensures Count(log, events[i]) == Count(Retried(last), events[i]) + if events[i] in tail then 1 else 0
    {
      CountAppend(Retried(last), tail, events[i]);
      CountDistinct(tail, events[i]);
    }
    assert events[0] == Admitted(j) && events[1] == Cancelled(j) && events[2] == Dispatched(j)
           && events[3] == Settled(j, false) && events[4] == Settled(j, true);
    RetriedCount(last, Admitted(j));
    RetriedCount(last, Cancelled(j));
    RetriedCount(last, Dispatched(j));
    RetriedCount(last, Settled(j, false));
    RetriedCount(last, Settled(j, true));
  }
}
