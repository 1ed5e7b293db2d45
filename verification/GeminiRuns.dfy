/** What clients of Gemini uploads may rely on, over every run: agreement of accepted chunks with the finished upload, and
    where it ends once the file's id was freed. */
module GeminiRuns {
  import opened Common
  import opened Sse
  import opened GeminiUpload

  predicate Agrees(content: Bytes, r: Request) {
    0 <= r.offset && r.offset + |r.chunk| <= |content| && content[r.offset..r.offset + |r.chunk|] == r.chunk
  }

  lemma AgreesWithLonger(content: Bytes, longer: Bytes, r: Request)
    requires Agrees(content, r) && content <= longer
    ensures Agrees(longer, r)
  {
    assert longer[r.offset..r.offset + |r.chunk|] == content[r.offset..r.offset + |r.chunk|];
  }

  /** The file under the id of a completed upload is the one that upload made. */
  predicate Own(s: Tables, u: UploadId) {
    u in s.uploads && s.uploads[u].status.Completed?
    && var k := FileOf(s.uploads[u]); k in s.files && s.files[k].maker == u
  }

  // ---------------------------------------------------------------- invariant

  predicate RowOk(row: Row, now: int) {
    && 1 <= row.expected <= MAX_GEMINI_FILE_BYTES && row.expiresAt == row.createdAt + UPLOAD_LIFETIME && row.createdAt <= now
    && |Content(row)| == row.received <= row.expected
    && match row.status
       case Pending =>
         (row.received > 0 ==> row.sealed.Some?) && (row.sealed.Some? ==> row.sealed.value == Seal(row.sealed.value.plaintext, row.key))
       case Completed(_, completedAt, _) => row.received == row.expected && row.createdAt <= completedAt <= now
  }

  predicate FileOk(s: Tables, k: FileKey)
    requires k in s.files
  {
    var f := s.files[k];
    && f.createdAt <= s.now && f.expiresAt == f.createdAt + FILE_LIFETIME && f.maker in s.used
    && (f.maker in s.uploads ==>
          var row := s.uploads[f.maker];
          row.status.Completed? && FileOf(row) == k && row.status.finished == f.content && row.status.completedAt == f.createdAt)
  }

  ghost predicate Inv(s: Tables) {
    && s.uploads.Keys <= s.used
    && (forall u :: u in s.uploads ==> RowOk(s.uploads[u], s.now))
    && (forall k :: k in s.files ==> FileOk(s, k))
  }

  /** Rows only gain bytes, and a completed row never changes. */
  predicate RowEvolves(x: Row, y: Row) {
    && x.key == y.key && x.expected == y.expected && x.createdAt == y.createdAt && x.expiresAt == y.expiresAt
    && Content(x) <= Content(y) && (x.status.Completed? ==> y == x)
  }

  ghost predicate Evolves(s: Tables, t: Tables) {
    && s.used <= t.used && s.now <= t.now
    && forall u :: u in s.used && u in t.uploads ==> u in s.uploads && RowEvolves(s.uploads[u], t.uploads[u])
  }

  lemma StoredOpens(row: Row, now: int)
    requires RowOk(row, now) && row.status.Pending?
    ensures Opening(row) == Some(Content(row))
  {
  }

  /** The bytes of an open upload with those of a request that continues it. */
  function Grown(row: Row, r: Request): Bytes { if r.offset < row.received then Content(row) else Content(row) + r.chunk }

  /** The two ways in which a request changes the tables. */
  predicate Grows(s: Tables, u: UploadId, row: Row, r: Request, id: FileId, t: Tables) {
    var content := Grown(row, r);
    t == s.(uploads := s.uploads[u := Stored(row, content)])
    || (|content| == row.expected && (row.key, id) !in s.files && t == Complete(s, u, row, id, content))
  }

  lemma TakeWorks(s: Tables, u: UploadId, r: Request, fate: Fate)
    requires Inv(s) && u in s.uploads && s.uploads[u].status.Pending? && 0 <= r.offset <= s.uploads[u].received
    requires r.offset + |r.chunk| <= s.uploads[u].expected
    ensures var row := s.uploads[u];
            Content(row) <= Grown(row, r) && |Grown(row, r)| <= row.expected
            && (Take(s, u, row, r, fate).0 == s || Grows(s, u, row, r, NewId(row, fate), Take(s, u, row, r, fate).0))
  {
    hide FileOk, Opening;
    StoredOpens(s.uploads[u], s.now);
    assert RowOk(s.uploads[u], s.now);
  }

  /** An accepted request agrees with the upload as it leaves it. */
  lemma TakeAgrees(s: Tables, u: UploadId, r: Request, fate: Fate)
    requires Inv(s) && u in s.uploads && s.uploads[u].status.Pending? && 0 <= r.offset <= s.uploads[u].received
    requires r.offset + |r.chunk| <= s.uploads[u].expected && fate.Possible() && Take(s, u, s.uploads[u], r, fate).1.Accepted()
    ensures var row := s.uploads[u];
            var (t, reply) := Take(s, u, row, r, fate);
            && u in t.uploads && Agrees(Content(t.uploads[u]), r)
            && (reply.Final? ==> t.uploads[u].status.Completed? && reply.file == t.uploads[u].status.finished)
  {
    hide Inv, Opening, Agrees, Continues, Content, Stored, Complete;
    var row := s.uploads[u];
    TakeResult(s, u, r, fate);
    AcceptedGrows(s, row, r, fate);
    ContentAfter(s, u, row, NewId(row, fate), Grown(row, r));
  }

  /** What an accepted request leaves behind, in terms of the bytes it continues. */
  lemma TakeResult(s: Tables, u: UploadId, r: Request, fate: Fate)
    requires Inv(s) && u in s.uploads && s.uploads[u].status.Pending? && 0 <= r.offset <= s.uploads[u].received
    requires r.offset + |r.chunk| <= s.uploads[u].expected && fate.Possible() && Take(s, u, s.uploads[u], r, fate).1.Accepted()
    ensures var row := s.uploads[u];
            var (t, reply) := Take(s, u, row, r, fate);
            && RowOk(row, s.now) && Continues(s, row, r, fate)
            && if r.command.Upload?
               then reply.Active?
                    && t == if r.offset < row.received then s else s.(uploads := s.uploads[u := Stored(row, Grown(row, r))])
               else reply == Final(Grown(row, r)) && t == Complete(s, u, row, NewId(row, fate), Grown(row, r))
  {
    hide FileOk, Opening, Continues, RowOk, Agrees, Stored, Complete, Content;
    var row := s.uploads[u];
    assert RowOk(row, s.now);
    StoredOpens(row, s.now);
    TakeAcceptedIff(s, u, row, r, fate);
  }

  lemma AcceptedGrows(s: Tables, row: Row, r: Request, fate: Fate)
    requires RowOk(row, s.now) && 0 <= r.offset <= row.received && Continues(s, row, r, fate)
    ensures Agrees(Grown(row, r), r) && (r.offset < row.received ==> Grown(row, r) == Content(row))
  {
    hide NewId, Content;
    var grown := Grown(row, r);
    if r.offset == row.received { assert grown[r.offset..r.offset + |r.chunk|] == r.chunk; }
  }

  lemma ContentAfter(s: Tables, u: UploadId, row: Row, id: FileId, content: Bytes)
    requires row.status.Pending?
    ensures Content(Stored(row, content)) == content
    ensures var t := Complete(s, u, row, id, content);
            u in t.uploads && t.uploads[u].status.Completed? && t.uploads[u].status.finished == Content(t.uploads[u]) == content
  {
  }

  lemma ChunkKeepsInv(s: Tables, u: UploadId, r: Request, fate: Fate)
    requires Inv(s)
    ensures var t := Chunked(s, u, r, fate).0; Inv(t) && Evolves(s, t)
  {
    hide Take, Late, Grown, RowOk, FileOk;
    SameEvolves(s);
    var t := Chunked(s, u, r, fate).0;
    if t != s {
      TakeWorks(s, u, r, fate);
      var row := s.uploads[u];
      if t == s.(uploads := s.uploads[u := Stored(row, Grown(row, r))]) {
        StoringKeepsInv(s, u, Grown(row, r));
      } else {
        CompletingKeepsInv(s, u, NewId(row, fate), Grown(row, r));
      }
    }
  }

  lemma SameEvolves(s: Tables)
    requires Inv(s)
    ensures Evolves(s, s)
  {
  }

  lemma StoringKeepsInv(s: Tables, u: UploadId, content: Bytes)
    requires Inv(s) && u in s.uploads && s.uploads[u].status.Pending?
    requires Content(s.uploads[u]) <= content && |content| <= s.uploads[u].expected
    ensures var t := s.(uploads := s.uploads[u := Stored(s.uploads[u], content)]); Inv(t) && Evolves(s, t)
  {
    var t := s.(uploads := s.uploads[u := Stored(s.uploads[u], content)]);
    assert RowOk(s.uploads[u], s.now);
    forall k | k in t.files ensures FileOk(t, k) { assert FileOk(s, k); }
  }

  lemma CompletingKeepsInv(s: Tables, u: UploadId, id: FileId, content: Bytes)
    requires Inv(s) && u in s.uploads && s.uploads[u].status.Pending? && (s.uploads[u].key, id) !in s.files
    requires Content(s.uploads[u]) <= content && |content| == s.uploads[u].expected
    ensures var t := Complete(s, u, s.uploads[u], id, content); Inv(t) && Evolves(s, t) && Own(t, u)
  {
    var t := Complete(s, u, s.uploads[u], id, content);
    assert RowOk(s.uploads[u], s.now);
    forall k | k in t.files ensures FileOk(t, k) {
      if k != (s.uploads[u].key, id) { assert FileOk(s, k); }
    }
  }

  lemma StepKeepsInv(s: Tables, step: Step, t: Tables)
    requires Inv(s) && Next(s, step, t)
    ensures Inv(t) && Evolves(s, t)
  {
    hide Chunked;
    if step.Chunk? {
      ChunkKeepsInv(s, step.id, step.request, step.fate);
    } else {
      forall k | k in t.files ensures FileOk(t, k) { assert FileOk(s, k); }
    }
  }

  lemma EvolvesTransitive(s: Tables, t: Tables, u: Tables)
    requires Evolves(s, t) && Evolves(t, u)
    ensures Evolves(s, u)
  {
  }

  lemma {:induction false} RunKeepsInv(states: seq<Tables>, steps: seq<Step>, i: nat)
    requires Run(states, steps) && i < |states|
    ensures Inv(states[i])
  {
    hide Inv, Next, Evolves;
    if i == 0 {
      EmptyInv(states[0]);
    } else {
      RunKeepsInv(states, steps, i - 1);
      StepKeepsInv(states[i - 1], steps[i - 1], states[i]);
    }
  }

  lemma EmptyInv(s: Tables)
    requires s.files == map[] && s.uploads == map[]
    ensures Inv(s)
  {
  }

  lemma {:induction false} RunEvolves(states: seq<Tables>, steps: seq<Step>, i: nat, j: nat)
    requires Run(states, steps) && i <= j < |states|
    ensures Evolves(states[i], states[j])
    decreases j
  {
    hide Inv, Next, Evolves;
    RunKeepsInv(states, steps, i);
    if i < j {
      RunEvolves(states, steps, i, j - 1);
      RunKeepsInv(states, steps, j - 1);
      StepKeepsInv(states[j - 1], steps[j - 1], states[j]);
      EvolvesTransitive(states[i], states[j - 1], states[j]);
    } else {
      SameEvolves(states[i]);
    }
  }

  lemma RowHistory(states: seq<Tables>, steps: seq<Step>, i: nat, j: nat, u: UploadId)
    requires Run(states, steps) && i <= j < |states| && u in states[i].uploads && u in states[j].uploads
    ensures RowEvolves(states[i].uploads[u], states[j].uploads[u])
  {
    hide Next, RowOk, FileOk, RowEvolves;
    RunKeepsInv(states, steps, i);
    RunEvolves(states, steps, i, j);
  }

  // --------------------------------------------------- which file is consulted

  /** A request to delete that file, or a purge that has picked its id. */
  predicate Removes(step: Step, k: FileKey) { step == Delete(k) || (step.PurgeFiles? && k.1 in step.picked) }

  /** The own file of an upload stays under its id until it is removed: nothing replaces it, and it outlives the upload. */
  lemma OwnStep(s: Tables, step: Step, t: Tables, u: UploadId)
    requires Inv(s) && Next(s, step, t) && u in s.uploads && s.uploads[u].status.Completed? && Open(t, u)
    ensures Own(t, u) <==> Own(s, u) && !Removes(step, FileOf(s.uploads[u]))
  {
    hide Chunked;
    var k := FileOf(s.uploads[u]);
    StepKeepsInv(s, step, t);
    assert RowEvolves(s.uploads[u], t.uploads[u]);
    assert RowOk(s.uploads[u], s.now);
    if k in s.files { assert FileOk(s, k); }
    if step.Chunk? { ChunkKeepsFiles(s, step.id, step.request, step.fate, u); }
  }

  /** A request of any upload leaves existing files alone, and makes at most one file, its own. */
  lemma ChunkKeepsFiles(s: Tables, v: UploadId, r: Request, fate: Fate, u: UploadId)
    requires Inv(s) && u in s.uploads && s.uploads[u].status.Completed?
    ensures var t := Chunked(s, v, r, fate).0;
            && (forall k :: k in s.files ==> k in t.files && t.files[k] == s.files[k])
            && (forall k :: k in t.files && t.files[k].maker == u ==> k in s.files)
  {
    hide Take, Late, RowOk, FileOk, Grown;
    var t := Chunked(s, v, r, fate).0;
    if t != s { TakeWorks(s, v, r, fate); }
  }

  /** Whether one of the steps from `i` on up to `j` removes that file. */
  ghost predicate RemovedBetween(steps: seq<Step>, i: nat, j: nat, k: FileKey) {
    exists n :: i <= n < j && n < |steps| && Removes(steps[n], k)
  }

  /** From its completion until it expires, an upload's own file is the one its retries are compared with if and only if
      nobody asked to delete it and no purge picked its id. */
  lemma {:induction false} OwnUntilDeleted(states: seq<Tables>, steps: seq<Step>, i: nat, j: nat, u: UploadId)
    requires Run(states, steps) && i <= j < |states| && Own(states[i], u) && Open(states[j], u)
    ensures u in states[i].uploads && Own(states[j], u) <==> !RemovedBetween(steps, i, j, FileOf(states[i].uploads[u]))
    decreases j
  {
    hide Next, Inv, Own;
    OwnMeans(states[i], u);
    var k := FileOf(states[i].uploads[u]);
    if i < j {
      OpenBefore(states, steps, i, j - 1, j, u);
      OwnUntilDeleted(states, steps, i, j - 1, u);
      RunKeepsInv(states, steps, j - 1);
      OwnStep(states[j - 1], steps[j - 1], states[j], u);
      if Removes(steps[j - 1], k) { assert RemovedBetween(steps, i, j, k); }
      if RemovedBetween(steps, i, j - 1, k) {
        var n :| i <= n < j - 1 && n < |steps| && Removes(steps[n], k);
        assert RemovedBetween(steps, i, j, k);
      }
    }
  }

  lemma OwnMeans(s: Tables, u: UploadId)
    requires Own(s, u)
    ensures u in s.uploads && s.uploads[u].status.Completed?
  {
  }

  lemma OpenBefore(states: seq<Tables>, steps: seq<Step>, i: nat, n: nat, j: nat, u: UploadId)
    requires Run(states, steps) && i <= n <= j < |states| && u in states[i].uploads && states[i].uploads[u].status.Completed? && Open(states[j], u)
    ensures Open(states[n], u) && states[n].uploads[u] == states[i].uploads[u] == states[j].uploads[u]
  {
    hide Next, RowOk, FileOk;
    RunKeepsInv(states, steps, i);
    RunEvolves(states, steps, i, n);
    RunEvolves(states, steps, n, j);
  }

  // ---------------------------------------------------------------- agreement

  /** When a request is answered with success: it is well formed, gets the upload slot, its upload is open, it stays within
      the declared size and starts no later than the stored bytes end. It repeats the stored bytes where it overlaps them,
      or, once the upload is completed, the bytes of the file that has its id now; and its own commit is reported. */
  predicate Admissible(s: Tables, u: UploadId, r: Request, fate: Fate) {
    && 0 <= r.offset <= MAX_GEMINI_FILE_BYTES && |r.chunk| <= MAX_GEMINI_FILE_BYTES && (r.command.Finalize? <==> r.chunk == [])
    && !fate.busy && fate.opens && Open(s, u) &&
    var row := s.uploads[u];
    && r.offset <= row.received && r.offset + |r.chunk| <= row.expected
    && if row.status.Completed? then fate.readable && Live(s, FileOf(row)) && Agrees(s.files[FileOf(row)].content, r)
       else Continues(s, row, r, fate)
  }

  predicate Continues(s: Tables, row: Row, r: Request, fate: Fate) {
    (r.offset < row.received ==> Agrees(Content(row), r))
    && if r.command.Upload? then r.offset < row.received || fate.reported
       else
         fate.reported && (row.key, NewId(row, fate)) !in s.files
         && (if r.offset < row.received then row.received else r.offset + |r.chunk|) == row.expected
  }

  lemma TakeAcceptedIff(s: Tables, u: UploadId, row: Row, r: Request, fate: Fate)
    requires RowOk(row, s.now) && row.status.Pending? && 0 <= r.offset <= row.received && r.offset + |r.chunk| <= row.expected
    ensures Take(s, u, row, r, fate).1.Accepted() <==> Continues(s, row, r, fate)
  {
    hide Opening;
    StoredOpens(row, s.now);
  }

  lemma AcceptedIffAdmissible(s: Tables, u: UploadId, r: Request, fate: Fate)
    requires Inv(s)
    ensures Chunked(s, u, r, fate).1.Accepted() <==> Admissible(s, u, r, fate)
  {
    hide FileOk, RowOk, Take, Continues;
    if u in s.uploads {
      var row := s.uploads[u];
      assert RowOk(row, s.now);
      if row.status.Pending? && 0 <= r.offset <= row.received && r.offset + |r.chunk| <= row.expected { TakeAcceptedIff(s, u, row, r, fate); }
    }
  }

  /** An own file is exactly what its upload completed with, and cannot expire before the upload does. */
  lemma OwnFile(s: Tables, u: UploadId)
    requires Inv(s) && Own(s, u) && Open(s, u)
    ensures var row := s.uploads[u];
            var f := s.files[FileOf(row)];
            Live(s, FileOf(row)) && f.content == row.status.finished && |f.content| == row.expected && f.createdAt == row.status.completedAt
  {
    var row := s.uploads[u];
    assert FileOk(s, FileOf(row)) && RowOk(row, s.now);
  }

  /** Every chunk that was answered with success agrees byte for byte with the upload in every later state, as long as it
      was not compared with a file that took the id of a deleted one. A finished upload has the declared size, never
      changes, and the file its completion answered with is what it finished with. */
  lemma AcceptedChunksAgree(states: seq<Tables>, steps: seq<Step>, i: nat, j: nat)
    requires Run(states, steps) && i < j < |states| && steps[i].Chunk? && steps[i].id in states[j].uploads
    requires Chunked(states[i], steps[i].id, steps[i].request, steps[i].fate).1.Accepted()
    ensures var u, r := steps[i].id, steps[i].request;
            var reply, row := Chunked(states[i], u, r, steps[i].fate).1, states[j].uploads[u];
            && u in states[i].uploads
            && (states[i].uploads[u].status.Pending? || Own(states[i], u) ==>
                  Agrees(Content(row), r) && (reply.Final? ==> row.status.Completed? && reply.file == Content(row)))
            && (row.status.Completed? ==> |Content(row)| == row.expected)
            && (states[i].uploads[u].status.Completed? ==> row == states[i].uploads[u])
  {
    hide Take, Late, FileOk;
    var s, t, u, r, fate := states[i], states[i + 1], steps[i].id, steps[i].request, steps[i].fate;
    assert Next(s, steps[i], t);
    RunKeepsInv(states, steps, i);
    RunKeepsInv(states, steps, j);
    assert RowOk(states[j].uploads[u], states[j].now);
    AcceptedStep(s, u, r, fate);
    RowHistory(states, steps, i + 1, j, u);
    if Agrees(Content(t.uploads[u]), r) { AgreesWithLonger(Content(t.uploads[u]), Content(states[j].uploads[u]), r); }
  }

  lemma AcceptedStep(s: Tables, u: UploadId, r: Request, fate: Fate)
    requires Inv(s) && fate.Possible() && Chunked(s, u, r, fate).1.Accepted()
    ensures var (t, reply) := Chunked(s, u, r, fate);
            && u in s.uploads && u in t.uploads && (s.uploads[u].status.Completed? ==> t == s)
            && (s.uploads[u].status.Pending? || Own(s, u) ==>
                  Agrees(Content(t.uploads[u]), r)
                  && (reply.Final? ==> t.uploads[u].status.Completed? && reply.file == Content(t.uploads[u])))
  {
    hide Take, FileOk;
    if s.uploads[u].status.Pending? {
      TakeAgrees(s, u, r, fate);
    } else if Own(s, u) {
      OwnFile(s, u);
    }
  }

  // -------------------------------------------------- retries after completion

  /** Whatever retry of a completed upload is accepted agrees with what the upload completed with. */
  ghost predicate RetriesAgree(s: Tables, u: UploadId) {
    forall r: Request, fate: Fate :: u in s.uploads && Chunked(s, u, r, fate).1.Accepted() ==> Agrees(Content(s.uploads[u]), r)
  }

  predicate WellFormed(r: Request) {
    0 <= r.offset <= MAX_GEMINI_FILE_BYTES && |r.chunk| <= MAX_GEMINI_FILE_BYTES && (r.command.Finalize? <==> r.chunk == [])
  }

  /** A retry that can be served is accepted exactly if it agrees with what the upload completed with, and is answered. */
  ghost predicate ExactRetries(s: Tables, u: UploadId) {
    forall r: Request, fate: Fate ::
      u in s.uploads && WellFormed(r) && !fate.busy && fate.opens && fate.readable && r.offset + |r.chunk| <= s.uploads[u].expected ==>
        (Chunked(s, u, r, fate).1.Accepted() <==> Agrees(Content(s.uploads[u]), r)) && !Chunked(s, u, r, fate).1.Panicked?
  }

  /** Two contents have the same bytes as far as both go. */
  predicate SameAsFarAsBothGo(a: Bytes, b: Bytes) { a <= b || b <= a }

  /** Exactly when accepted retries agree: no file has the id now, or it has the upload's bytes as far as both go. */
  lemma RetriesAgreeIff(s: Tables, u: UploadId)
    requires Inv(s) && Open(s, u) && s.uploads[u].status.Completed?
    ensures var row := s.uploads[u];
            RetriesAgree(s, u) <==> (Live(s, FileOf(row)) ==> SameAsFarAsBothGo(s.files[FileOf(row)].content, row.status.finished))
  {
    hide FileOk, Take;
    var row := s.uploads[u];
    assert RowOk(row, s.now);
    var k := FileOf(row);
    if Live(s, k) {
      var f, c := s.files[k].content, row.status.finished;
      var n := if |f| < |c| then |f| else |c|;
      SharedPrefix(f, c, n);
      if f[..n] == c[..n] {
        forall r, fate | Chunked(s, u, r, fate).1.Accepted() ensures Agrees(c, r) { PrefixAgrees(f, c, n, r); }
      } else {
        WholePrefixIsAccepted(s, u, n);
      }
    }
  }

  lemma SharedPrefix(a: Bytes, b: Bytes, n: nat)
    requires n == if |a| < |b| then |a| else |b|
    ensures SameAsFarAsBothGo(a, b) <==> a[..n] == b[..n]
  {
    assert a[..|a|] == a && b[..|b|] == b;
  }

  lemma PrefixAgrees(f: Bytes, c: Bytes, n: nat, r: Request)
    requires n <= |f| && n <= |c| && f[..n] == c[..n] && Agrees(f, r) && r.offset + |r.chunk| <= n
    ensures Agrees(c, r)
  {
    assert f[r.offset..r.offset + |r.chunk|] == f[..n][r.offset..r.offset + |r.chunk|];
    assert c[r.offset..r.offset + |r.chunk|] == c[..n][r.offset..r.offset + |r.chunk|];
  }

  /** A retry of the file's own first bytes is accepted, so it disagrees with the upload if those differ. */
  lemma WholePrefixIsAccepted(s: Tables, u: UploadId, n: nat)
    requires Inv(s) && Open(s, u) && s.uploads[u].status.Completed? && Live(s, FileOf(s.uploads[u]))
    requires var f, c := s.files[FileOf(s.uploads[u])].content, s.uploads[u].status.finished;
             n <= |f| && n <= |c| && f[..n] != c[..n]
    ensures !RetriesAgree(s, u)
  {
    hide FileOk;
    var row := s.uploads[u];
    assert RowOk(row, s.now);
    var f := s.files[FileOf(row)].content;
    var r, fate := Request(Upload, 0, f[..n]), Fate(false, true, true, "", false, false);
    assert f[0..n] == f[..n] && row.status.finished[0..n] == row.status.finished[..n];
    AcceptedIffAdmissible(s, u, r, fate);
    assert Chunked(s, u, r, fate).1.Accepted() && !Agrees(Content(row), r);
  }

  /** Late retries over every run. Let an upload complete, and look at any later state while it is open.
      If nobody asked to delete its file since and no purge picked its id, a retry whose file can be read is accepted if and only if it is well formed,
      within the declared size and agrees with the upload, and never stops the request.
      Otherwise the upload's own file is gone for good, and accepted retries agree with the upload if and only if no
      file took the id or the one that did has the same bytes as far as both go. */
  lemma LateRetries(states: seq<Tables>, steps: seq<Step>, i: nat, j: nat, u: UploadId)
    requires Run(states, steps) && i <= j < |states| && Own(states[i], u) && Open(states[j], u)
    ensures u in states[i].uploads && states[j].uploads[u] == states[i].uploads[u]
    ensures var s, row := states[j], states[i].uploads[u];
            var k := FileOf(row);
            if RemovedBetween(steps, i, j, k)
            then !Own(s, u) && (RetriesAgree(s, u) <==> !Live(s, k) || SameAsFarAsBothGo(s.files[k].content, row.status.finished))
            else RetriesAgree(s, u) && ExactRetries(s, u)
  {
    hide Next, Inv, Own, Take, RetriesAgree;
    OwnMeans(states[i], u);
    OpenBefore(states, steps, i, j, j, u);
    RunKeepsInv(states, steps, j);
    OwnUntilDeleted(states, steps, i, j, u);
    RetriesAgreeIff(states[j], u);
    if Own(states[j], u) {
      OwnFile(states[j], u);
      OwnRetries(states[j], u);
    }
  }

  lemma OwnRetries(s: Tables, u: UploadId)
    requires Inv(s) && Own(s, u) && Open(s, u)
    ensures ExactRetries(s, u)
  {
    hide FileOk, Take;
    OwnFile(s, u);
    assert RowOk(s.uploads[u], s.now);
  }

  // ----------------------------------------------------------------- the purge

  /** A purge removes a live file if and only if it picked its id, and then because another key has an expired file with
      the same id. */
  lemma PurgeRemovesLiveIff(s: Tables, ids: set<FileId>, t: Tables, k: FileKey)
    requires Next(s, PurgeFiles(ids), t) && Live(s, k)
    ensures k !in t.files <==> k.1 in ids
    ensures k !in t.files ==> exists key: Key :: key != k.0 && (key, k.1) in s.files && !Live(s, (key, k.1))
  {
    if k.1 in ids {
      var key: Key :| (key, k.1) in s.files && !Live(s, (key, k.1));
      assert key != k.0;
    }
  }

  // ------------------------------------------------------ a retry gone astray

  const HELLO: Bytes := [104, 101, 108, 108, 111]
  const WORLD: Bytes := [119, 111, 114, 108, 100]
  const HI: Bytes := [104, 105]
  const FINE := Fate(false, true, true, "", true, true)

  function Named(size: nat): Row { Row(1, size, "x", 0, None, 0, UPLOAD_LIFETIME, Pending) }

  function Whole(chunk: Bytes): Request { Request(UploadFinalize, 0, chunk) }

  /** Upload 1 named "x" finishes, its file is deleted, and upload 2 takes the name for other bytes. */
  function Story(other: Bytes): seq<Step> {
    [Begin(1, Named(5)), Chunk(1, Whole(HELLO), FINE), Delete((1, "x")), Begin(2, Named(|other|)), Chunk(2, Whole(other), FINE)]
  }

  function Done(content: Bytes): Row {
    Row(1, |content|, "x", |content|, None, 0, UPLOAD_LIFETIME, Completed("x", 0, content))
  }

  function Scene(other: Bytes, n: nat): Tables {
    var first, second := File(HELLO, 0, FILE_LIFETIME, 1), File(other, 0, FILE_LIFETIME, 2);
    Tables(0,
           if n == 2 then map[(1, "x") := first] else if n == 5 then map[(1, "x") := second] else map[],
           if n == 0 then map[] else if n == 1 then map[1 := Named(5)] else if n <= 3 then map[1 := Done(HELLO)]
           else if n == 4 then map[1 := Done(HELLO), 2 := Named(|other|)] else map[1 := Done(HELLO), 2 := Done(other)],
           if n == 0 then {} else if n <= 3 then {1} else {1, 2})
  }

  lemma SceneFollows(other: Bytes, n: nat)
    requires 1 <= |other| <= 5 && n < 5
    ensures Next(Scene(other, n), Story(other)[n], Scene(other, n + 1))
  {
    var s, t := Scene(other, n), Scene(other, n + 1);
    assert [] + HELLO == HELLO && [] + other == other;
    match n {
      case 0 => assert t.uploads == s.uploads[1 := Named(5)];
      case 1 => assert t == Complete(s, 1, s.uploads[1], "x", HELLO);
      case 2 => assert t.files == s.files - {(1, "x")};
      case 3 => assert t.uploads == s.uploads[2 := Named(|other|)];
      case _ => assert t == Complete(s, 2, s.uploads[2], "x", other);
    }
  }

  lemma StoryRuns(other: Bytes)
    requires 1 <= |other| <= 5
    ensures Run(seq(6, n requires 0 <= n < 6 => Scene(other, n)), Story(other))
  {
    hide Next, Scene;
    var states := seq(6, n requires 0 <= n < 6 => Scene(other, n));
    forall n | 0 <= n < 5 ensures Next(states[n], Story(other)[n], states[n + 1]) { SceneFollows(other, n); }
    SceneStarts(other);
  }

  lemma SceneStarts(other: Bytes)
    ensures Scene(other, 0).files == map[] && Scene(other, 0).uploads == map[] && Scene(other, 0).used == {}
  {
  }

  /** After its file was deleted and its name taken, the finished upload "hello" answers a retry of "world" with success
      and refuses "hello". If the new file is shorter, retrying "hello" stops the request. The new file's creation time
      need not differ from the upload's completion time. */
  lemma RetryMatchesAnotherFile()
    ensures exists states: seq<Tables>, steps, shorter: seq<Tables>, others ::
              && Run(states, steps) && Run(shorter, others) && |states| == |shorter| == 6
              && 1 in states[5].uploads && states[5].uploads[1].status == Completed("x", 0, HELLO)
              && (1, "x") in states[5].files && states[5].files[(1, "x")].createdAt == 0
              && Chunked(states[5], 1, Whole(WORLD), FINE).1 == Final(WORLD)
              && Chunked(states[5], 1, Whole(HELLO), FINE).1 == Mismatch
              && Chunked(shorter[5], 1, Whole(HELLO), FINE).1 == Panicked
  {
    hide Run, Take;
    StoryRuns(WORLD);
    StoryRuns(HI);
    var states, shorter := seq(6, n requires 0 <= n < 6 => Scene(WORLD, n)), seq(6, n requires 0 <= n < 6 => Scene(HI, n));
    assert WORLD[0..5] == WORLD && WORLD[0] != HELLO[0];
    assert states[5] == Scene(WORLD, 5) && shorter[5] == Scene(HI, 5);
  }

  // ------------------------------------------------------- a file purged alive

  /** The file "x" of key 2 expires; key 1 then uploads its own "x"; the next purge deletes both. */
  const LOSS: seq<Step> :=
    [Begin(2, NamedBy(2, 0)), Chunk(2, Whole(WORLD), FINE), Tick(FILE_LIFETIME),
     Begin(1, NamedBy(1, FILE_LIFETIME)), Chunk(1, Whole(HELLO), FINE), PurgeFiles({"x"})]

  function NamedBy(key: Key, now: int): Row { Row(key, 5, "x", 0, None, now, now + UPLOAD_LIFETIME, Pending) }

  function DoneBy(key: Key, now: int, content: Bytes): Row {
    Row(key, 5, "x", 5, None, now, now + UPLOAD_LIFETIME, Completed("x", now, content))
  }

  function LossScene(n: nat): Tables {
    var theirs, mine := File(WORLD, 0, FILE_LIFETIME, 2), File(HELLO, FILE_LIFETIME, 2 * FILE_LIFETIME, 1);
    Tables(if n <= 2 then 0 else FILE_LIFETIME,
           if n <= 1 || n == 6 then map[] else if n <= 4 then map[(2, "x") := theirs] else map[(2, "x") := theirs, (1, "x") := mine],
           if n == 0 then map[] else if n == 1 then map[2 := NamedBy(2, 0)] else if n <= 3 then map[2 := DoneBy(2, 0, WORLD)]
           else if n == 4 then map[2 := DoneBy(2, 0, WORLD), 1 := NamedBy(1, FILE_LIFETIME)]
           else map[2 := DoneBy(2, 0, WORLD), 1 := DoneBy(1, FILE_LIFETIME, HELLO)],
           if n == 0 then {} else if n <= 3 then {2} else {1, 2})
  }

  lemma LossFollows(n: nat)
    requires n < 6
    ensures Next(LossScene(n), LOSS[n], LossScene(n + 1))
  {
    var s, t := LossScene(n), LossScene(n + 1);
    assert [] + HELLO == HELLO && [] + WORLD == WORLD;
    match n {
      case 0 => assert t.uploads == s.uploads[2 := NamedBy(2, 0)];
      case 1 => assert t == Complete(s, 2, s.uploads[2], "x", WORLD);
      case 2 =>
      case 3 => assert t.uploads == s.uploads[1 := NamedBy(1, FILE_LIFETIME)] && t.used == s.used + {1};
      case 4 => assert t == Complete(s, 1, s.uploads[1], "x", HELLO);
      case _ =>
        assert (2 as Key, "x") in s.files && !Live(s, (2, "x"));
        assert Purged(s, {"x"}).files == map[];
    }
  }

  /** The purge deletes a file that was completed a moment ago and has 48 hours to live. */
  lemma PurgeTakesLiveFile()
    ensures exists states: seq<Tables> :: Run(states, LOSS) && Own(states[5], 1) && Live(states[5], (1, "x")) && states[6].files == map[]
  {
    hide Next;
    var states := seq(7, n requires 0 <= n < 7 => LossScene(n));
    forall n | 0 <= n < 6 ensures Next(states[n], LOSS[n], states[n + 1]) { LossFollows(n); }
    assert Run(states, LOSS);
  }

  /** A request that completes an upload puts exactly the declared number of bytes, those sent before and with it, under the
      id the client asked for, or under the generated one if it asked for none, for 48 hours. */
  lemma CompletionTakesId(s: Tables, u: UploadId, r: Request, fate: Fate)
    requires u in s.uploads && s.uploads[u].status.Pending? && Chunked(s, u, r, fate).1.Final? && fate.Possible()
    ensures var t := Chunked(s, u, r, fate).0;
            var row := s.uploads[u];
            var id := if row.requestedId == "" then fate.generated else row.requestedId;
            && u in t.uploads && t.uploads[u].status.Completed? && t.uploads[u].status.fileId == id
            && (row.key, id) !in s.files && (row.key, id) in t.files
            && t.files[(row.key, id)] == File(Chunked(s, u, r, fate).1.file, s.now, s.now + 172800000, u)
            && |t.files[(row.key, id)].content| == row.expected
  {
  }
}
