/** Resumable Gemini uploads: chunks addressed by offset, retries before and after completion, commits that take effect
    but report failure, and a table of files whose ids can be freed and taken again. */
module GeminiUpload {
  import opened Common
  import opened Sse

  const MAX_GEMINI_FILE_BYTES: nat := 8388608

  /** `geminiUploadLifetime` and `geminiFileLifetime`, in ms. */
  const UPLOAD_LIFETIME: nat := 3600000
  const FILE_LIFETIME: nat := 172800000

  type Key = nat
  type FileId = string
  type FileKey = (Key, FileId)
  type UploadId = nat

  /** Authenticated encryption: what was sealed opens only under the same key and size. */
  datatype Sealed = Sealed(plaintext: Bytes, key: Key, size: nat)

  function Seal(plaintext: Bytes, key: Key): Sealed { Sealed(plaintext, key, |plaintext|) }

  function Unseal(s: Sealed, key: Key, size: nat): Option<Bytes> {
    if s.key == key && s.size == size then Some(s.plaintext) else None
  }

  /** One row of `gemini_files`, opened. `maker` is history, not a column: the upload that created it. */
  datatype File = File(content: Bytes, createdAt: int, expiresAt: int, maker: UploadId)

  /** A completed upload keeps the id of its file and not the bytes; `finished` is history: the bytes it completed with. */
  datatype Status = Pending | Completed(fileId: FileId, completedAt: int, finished: Bytes)

  /** One row of `gemini_uploads`. An empty `requestedId` leaves the choice of the file's id to the gateway. */
  datatype Row = Row(key: Key, expected: nat, requestedId: FileId, received: nat, sealed: Option<Sealed>, createdAt: int,
                     expiresAt: int, status: Status)

  datatype Tables = Tables(now: int, files: map<FileKey, File>, uploads: map<UploadId, Row>, used: set<UploadId>)

  datatype Command = Upload | UploadFinalize | Finalize

  datatype Request = Request(command: Command, offset: int, chunk: Bytes)

  /** What a request depends on besides the tables: whether the upload slot is busy, whether the row and the file of a
      finished upload can be read, the id generated for a new file, and what happens to the transaction. */
  datatype Fate = Fate(busy: bool, opens: bool, readable: bool, generated: FileId, applied: bool, reported: bool)
  {
    predicate Possible() { reported ==> applied }
  }

  datatype Reply =
    | Active
    | Final(file: Bytes)
    | Panicked    // slicing beyond the end of a shorter file stops the request without an answer
    | InvalidOffset | InvalidChunk | TooLarge | Busy | NotFound | BeyondSize | Mismatch | Incomplete | NameTaken | FileGone | Unavailable
  {
    predicate Accepted() { Active? || Final? }
  }

  /** The bytes that an upload stands for. */
  function Content(row: Row): Bytes {
    if row.status.Completed? then row.status.finished else if row.sealed.Some? then row.sealed.value.plaintext else []
  }

  function FileOf(row: Row): FileKey
    requires row.status.Completed?
  {
    (row.key, row.status.fileId)
  }

  predicate Live(s: Tables, k: FileKey) { k in s.files && s.now < s.files[k].expiresAt }

  predicate Open(s: Tables, u: UploadId) { u in s.uploads && s.now < s.uploads[u].expiresAt }

  // ------------------------------------------------------------ one request

  /** The answer to a request for a finished upload: the chunk is compared with the file that has the id now. */
  function Late(s: Tables, row: Row, r: Request, fate: Fate): Reply
    requires row.status.Completed? && 0 <= r.offset
  {
    var k, end := FileOf(row), r.offset + |r.chunk|;
    if !fate.readable || !Live(s, k) then FileGone
    else
      var content := s.files[k].content;
      if end > |content| then Panicked
      else if content[r.offset..end] != r.chunk then Mismatch
      else if r.command.Upload? && end < row.expected then Active
      else Final(content)
  }

  function Stored(row: Row, content: Bytes): Row { row.(received := |content|, sealed := Some(Seal(content, row.key))) }

  /** The completing transaction: the new file, and the row that now only knows its id. */
  function Complete(s: Tables, u: UploadId, row: Row, id: FileId, content: Bytes): Tables {
    s.(files := s.files[(row.key, id) := File(content, s.now, s.now + FILE_LIFETIME, u)],
       uploads := s.uploads[u := row.(received := row.expected, sealed := None, status := Completed(id, s.now, content))])
  }

  /** Opening the bytes stored so far. */
  function Opening(row: Row): Option<Bytes> {
    if row.received == 0 then Some([]) else if row.sealed.Some? then Unseal(row.sealed.value, row.key, row.received) else None
  }

  function NewId(row: Row, fate: Fate): FileId { if row.requestedId != "" then row.requestedId else fate.generated }

  /** A request for an upload that is still open. */
  function Take(s: Tables, u: UploadId, row: Row, r: Request, fate: Fate): (Tables, Reply)
    requires 0 <= r.offset <= row.received
  {
    var opening, end := Opening(row), r.offset + |r.chunk|;
    if opening.None? then (s, Unavailable)
    else if r.offset < row.received && (end > |opening.value| || opening.value[r.offset..end] != r.chunk) then (s, Mismatch)
    else if r.offset < row.received && r.command.Upload? then (s, Active)
    else
      var content := if r.offset < row.received then opening.value else opening.value + r.chunk;
      var id := NewId(row, fate);
      if r.command.Upload? then
        (if fate.applied then s.(uploads := s.uploads[u := Stored(row, content)]) else s, if fate.reported then Active else Unavailable)
      else if |content| != row.expected then (s, Incomplete)
      else if (row.key, id) in s.files then (s, NameTaken)
      else (if fate.applied then Complete(s, u, row, id, content) else s, if fate.reported then Final(content) else Unavailable)
  }

  /** `uploadGeminiFileChunk`. */
  function Chunked(s: Tables, u: UploadId, r: Request, fate: Fate): (Tables, Reply) {
    if r.offset < 0 || r.offset > MAX_GEMINI_FILE_BYTES then (s, InvalidOffset)
    else if |r.chunk| > MAX_GEMINI_FILE_BYTES then (s, TooLarge)
    else if r.command.Finalize? != (r.chunk == []) then (s, InvalidChunk)
    else if fate.busy then (s, Busy)
    else if !fate.opens then (s, Unavailable)
    else if !Open(s, u) then (s, NotFound)
    else
      var row := s.uploads[u];
      if r.offset > row.received || |r.chunk| > row.expected - r.offset then (s, BeyondSize)
      else if row.status.Completed? then (s, Late(s, row, r, fate))
      else Take(s, u, row, r, fate)
  }

  // -------------------------------------------------------------------- steps

  datatype Step =
    | Begin(id: UploadId, row: Row)
    | Chunk(id: UploadId, request: Request, fate: Fate)
    | Delete(key: FileKey)
    | PurgeUploads(ids: set<UploadId>)
    | PurgeFiles(picked: set<FileId>)     // before an upload starts: by id, whatever the key
    | DropExpired(keys: set<FileKey>)     // the housekeeping of the whole gateway
    | Tick(elapsed: nat)

  predicate NewRow(row: Row, now: int) {
    && row.status.Pending? && row.received == 0 && row.sealed.None? && 1 <= row.expected <= MAX_GEMINI_FILE_BYTES
    && row.createdAt == now && row.expiresAt == now + UPLOAD_LIFETIME
  }

  /** `deleteGeminiFile`. */
  function Deleted(s: Tables, k: FileKey): Tables { if Live(s, k) then s.(files := s.files - {k}) else s }

  /** Some key has an expired file with that id. */
  ghost predicate Expired(s: Tables, id: FileId) { exists key: Key :: (key, id) in s.files && !Live(s, (key, id)) }

  /** The purge selects the ids of expired files and deletes every file with such an id. */
  function Purged(s: Tables, ids: set<FileId>): Tables { s.(files := map k | k in s.files && k.1 !in ids :: s.files[k]) }

  ghost predicate Next(s: Tables, step: Step, t: Tables) {
    match step
    case Begin(id, row) => id !in s.used && NewRow(row, s.now) && t == s.(uploads := s.uploads[id := row], used := s.used + {id})
    case Chunk(id, r, fate) => fate.Possible() && t == Chunked(s, id, r, fate).0
    case Delete(k) => t == Deleted(s, k)
    case PurgeUploads(ids) => (forall u :: u in ids ==> !Open(s, u)) && t == s.(uploads := s.uploads - ids)
    case PurgeFiles(ids) => (forall id :: id in ids ==> Expired(s, id)) && t == Purged(s, ids)
    case DropExpired(keys) => (forall k :: k in keys ==> !Live(s, k)) && t == s.(files := s.files - keys)
    case Tick(elapsed) => t == s.(now := s.now + elapsed)
  }

  ghost predicate Run(states: seq<Tables>, steps: seq<Step>) {
    |states| == |steps| + 1 && states[0].files == map[] && states[0].uploads == map[] && states[0].used == {}
    && forall i :: 0 <= i < |steps| ==> Next(states[i], steps[i], states[i + 1])
  }

  // ----------------------------------------------------------- the handlers

  /** The two tables and the handlers that change them in place. */
  class GeminiStore {
    var now: int
    var files: map<FileKey, File>
    var uploads: map<UploadId, Row>
    ghost var used: set<UploadId>

    ghost function Value(): Tables
      reads this
    {
      Tables(now, files, uploads, used)
    }

    constructor (now: int)
      ensures Value() == Tables(now, map[], map[], {})
    {
      this.now, files, uploads, used := now, map[], map[], {};
    }

    method DeleteFile(k: FileKey) returns (found: bool)
      modifies this`files
      ensures Value() == Deleted(old(Value()), k)
      ensures found <==> Live(old(Value()), k)
    {
      if k !in files || files[k].expiresAt <= now { return false; }
      files := files - {k};
      return true;
    }

    /** What a late retry is answered from the files table. */
    method AnswerCompleted(row: Row, r: Request, fate: Fate) returns (reply: Reply)
      requires row.status.Completed? && 0 <= r.offset
      ensures reply == Late(Value(), row, r, fate)
    {
      var k, end := (row.key, row.status.fileId), r.offset + |r.chunk|;
      if !fate.readable || k !in files || files[k].expiresAt <= now { return FileGone; }
      var finalized := files[k].content;
      if end > |finalized| { return Panicked; }
      if finalized[r.offset..end] != r.chunk { return Mismatch; }
      if r.command.Upload? && end < row.expected { return Active; }
      return Final(finalized);
    }

    method UploadChunk(u: UploadId, r: Request, fate: Fate) returns (reply: Reply)
      modifies this`files, this`uploads
      ensures (Value(), reply) == Chunked(old(Value()), u, r, fate)
    {
      if r.offset < 0 || r.offset > MAX_GEMINI_FILE_BYTES { return InvalidOffset; }
      if |r.chunk| > MAX_GEMINI_FILE_BYTES { return TooLarge; }
      if (r.command.Finalize? && |r.chunk| != 0) || (!r.command.Finalize? && |r.chunk| == 0) { return InvalidChunk; }
      if fate.busy { return Busy; }
      if !fate.opens { return Unavailable; }
      if u !in uploads || uploads[u].expiresAt <= now { return NotFound; }
      var row := uploads[u];
      if r.offset > row.received || |r.chunk| > row.expected - r.offset { return BeyondSize; }
      var content, end := [], r.offset + |r.chunk|;
      if row.status.Completed? {
        reply := AnswerCompleted(row, r, fate);
        return reply;
      }
      if row.received > 0 {
        if row.sealed.None? { return Unavailable; }
        var opening := Unseal(row.sealed.value, row.key, row.received);
        if opening.None? { return Unavailable; }
        content := opening.value;
      }
      if r.offset < row.received {
        if end > |content| || content[r.offset..end] != r.chunk { return Mismatch; }
        if r.command.Upload? { return Active; }
      } else {
        content := content + r.chunk;
      }
      if !r.command.Upload? && |content| != row.expected { return Incomplete; }
      if r.command.Upload? {
        if fate.applied { uploads := uploads[u := Stored(row, content)]; }
        return if fate.reported then Active else Unavailable;
      }
      var id := NewId(row, fate);
      if (row.key, id) in files { return NameTaken; }
      if fate.applied {
        files := files[(row.key, id) := File(content, now, now + FILE_LIFETIME, u)];
        uploads := uploads[u := row.(received := row.expected, sealed := None, status := Completed(id, now, content))];
      }
      return if fate.reported then Final(content) else Unavailable;
    }
  }
}
