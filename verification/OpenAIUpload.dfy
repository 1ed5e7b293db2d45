/** Multi-part OpenAI uploads: parts are added within the declared size, and completion concatenates them. */
module OpenAIUpload {
  import opened Common
  import opened Sse

  const MAX_FILE_BYTES: nat := 16777216
  const MAX_PARTS: nat := 16

  type PartId = nat

  datatype Status = Pending | Completed | Cancelled

  datatype Reply = Ok | NotAccepting | TooManyParts | BadPart | BadPartIds | UnknownPart | SizeMismatch | Unavailable

  /** The bytes of all parts with the given ids. */
  ghost function SumOf(parts: map<PartId, Bytes>, ids: set<PartId>): nat
    requires ids <= parts.Keys
  {
    if ids == {} then 0
    else
      var k :| k in ids;
      |parts[k]| + SumOf(parts, ids - {k})
  }

  lemma {:induction false} SumRemove(parts: map<PartId, Bytes>, ids: set<PartId>, k: PartId)
    requires k in ids && ids <= parts.Keys
    ensures SumOf(parts, ids) == |parts[k]| + SumOf(parts, ids - {k})
    decreases |ids|
  {
    var c :| c in ids && SumOf(parts, ids) == |parts[c]| + SumOf(parts, ids - {c});
    if c != k {
      SumRemove(parts, ids - {c}, k);
      SumRemove(parts, ids - {k}, c);
      assert ids - {c} - {k} == ids - {k} - {c};
    }
  }

  lemma {:induction false} SumFrame(a: map<PartId, Bytes>, b: map<PartId, Bytes>, ids: set<PartId>)
    requires ids <= a.Keys && ids <= b.Keys && forall k :: k in ids ==> a[k] == b[k]
    ensures SumOf(a, ids) == SumOf(b, ids)
    decreases |ids|
  {
    if ids != {} {
      var k :| k in ids;
      SumRemove(a, ids, k);
      SumRemove(b, ids, k);
      SumFrame(a, b, ids - {k});
    }
  }

  /** When no part is empty, leaving one out makes the sum smaller. */
  lemma {:induction false} SumOfSubset(parts: map<PartId, Bytes>, some: set<PartId>, ids: set<PartId>)
    requires some <= ids <= parts.Keys && forall k :: k in ids ==> parts[k] != []
    ensures SumOf(parts, some) <= SumOf(parts, ids)
    ensures SumOf(parts, some) == SumOf(parts, ids) ==> some == ids
    decreases |ids|
  {
    if ids == {} {
    } else {
      var k :| k in ids;
      SumRemove(parts, ids, k);
      if k in some {
        SumRemove(parts, some, k);
        SumOfSubset(parts, some - {k}, ids - {k});
        assert some == (some - {k}) + {k} && ids == (ids - {k}) + {k};
      } else {
        SumOfSubset(parts, some, ids - {k});
      }
    }
  }

  ghost function Elements(ids: seq<PartId>): set<PartId> { set k | k in ids }

  predicate NoRepeat(ids: seq<PartId>) { forall i, j :: 0 <= i < j < |ids| ==> ids[i] != ids[j] }

  lemma EmptySum(parts: map<PartId, Bytes>)
    ensures SumOf(parts, {}) == 0 && Elements([]) == {}
  {
  }

  /** The parts in the requested order. */
  function Concatenation(parts: map<PartId, Bytes>, ids: seq<PartId>): Bytes
    requires forall k :: k in ids ==> k in parts
  {
    if ids == [] then [] else Concatenation(parts, ids[..|ids| - 1]) + parts[ids[|ids| - 1]]
  }

  lemma {:induction false} ConcatenationSize(parts: map<PartId, Bytes>, ids: seq<PartId>)
    requires NoRepeat(ids) && forall k :: k in ids ==> k in parts
    ensures |Concatenation(parts, ids)| == SumOf(parts, Elements(ids))
  {
    hide SumOf;
    if ids == [] {
      EmptySum(parts);
    } else {
      var last, init := ids[|ids| - 1], ids[..|ids| - 1];
      ConcatenationSize(parts, init);
      SumRemove(parts, Elements(ids), last);
      assert ids == init + [last];
      assert Elements(ids) - {last} == Elements(init);
    }
  }

  /** One row of `openai_uploads` with its part rows. */
  class Upload {
    const expected: nat
    const expiresAt: int
    var status: Status
    var parts: map<PartId, Bytes>
    var file: Option<Bytes>
    ghost var used: set<PartId>    // ids ever given to a part

    ghost predicate Valid()
      reads this
    {
      && 1 <= expected <= MAX_FILE_BYTES && parts.Keys <= used && |parts| <= MAX_PARTS
      && (forall k :: k in parts ==> parts[k] != [])
      && SumOf(parts, parts.Keys) <= expected
      && (status.Completed? <==> file.Some?) && (file.Some? ==> |file.value| == expected)
      && (!status.Pending? ==> parts == map[])
    }

    constructor (expected: nat, expiresAt: int)
      requires 1 <= expected <= MAX_FILE_BYTES
      ensures Valid() && status.Pending? && parts == map[] && this.expected == expected && this.expiresAt == expiresAt
    {
      this.expected, this.expiresAt := expected, expiresAt;
      status, parts, file, used := Pending, map[], None, {};
    }

    /** SELECT SUM(bytes). */
    method PartBytes() returns (sum: nat)
      requires Valid()
      ensures sum == SumOf(parts, parts.Keys)
    {
      sum := 0;
      var left := parts.Keys;
      while left != {}
        invariant left <= parts.Keys && sum + SumOf(parts, left) == SumOf(parts, parts.Keys)
        decreases |left|
      {
        var k :| k in left;
        SumRemove(parts, left, k);
        sum := sum + |parts[k]|;
        left := left - {k};
      }
    }

    /** `addOpenAIUploadPart` under a fresh id; `committed` is false when the transaction is lost. */
    method AddPart(id: PartId, content: Bytes, now: int, committed: bool) returns (reply: Reply)
      requires Valid() && id !in used
      modifies this
      ensures Valid() && status == old(status) && file == old(file)
      ensures reply.Ok? ==> parts == old(parts)[id := content] && content != [] && status.Pending? && now < expiresAt
      ensures !reply.Ok? ==> parts == old(parts)
    {
      if |content| == 0 || |content| > MAX_FILE_BYTES { return BadPart; }
      if !status.Pending? || expiresAt <= now { return NotAccepting; }
      var partBytes := PartBytes();
      if |parts| >= MAX_PARTS || |content| > expected - partBytes { return TooManyParts; }
      if !committed { return Unavailable; }
      ghost var before := parts;
      parts := parts[id := content];
      used := used + {id};
      SumRemove(parts, parts.Keys, id);
      assert parts.Keys - {id} == before.Keys;
      SumFrame(before, parts, before.Keys);
      return Ok;
    }

    /** `completeOpenAIUpload`. Because parts are not empty and never exceed the declared size together, the listed
        parts can only add up to it when the list names every stored part exactly once. */
    method Complete(ids: seq<PartId>, now: int, committed: bool) returns (reply: Reply)
      requires Valid()
      modifies this
      ensures Valid()
      ensures reply.Ok? <==> old(status).Pending? && now < expiresAt && committed
                             && 1 <= |ids| <= MAX_PARTS && NoRepeat(ids) && Elements(ids) == old(parts).Keys
                             && SumOf(old(parts), old(parts).Keys) == expected
      ensures reply.Ok? ==> file == Some(Concatenation(old(parts), ids)) && status.Completed?
      ensures !reply.Ok? ==> parts == old(parts) && status == old(status) && file == old(file)
    {
      hide SumOf, Elements, NoRepeat, Concatenation;
      if |ids| < 1 || |ids| > MAX_PARTS { return BadPartIds; }
      var unique := Unique(ids);
      if !unique { return BadPartIds; }
      if !status.Pending? || expiresAt <= now { return NotAccepting; }
      var content := Gather(parts, ids, expected);
      if content.None? { return UnknownPart; }
      ConcatenationSize(parts, ids);
      SumOfSubset(parts, Elements(ids), parts.Keys);
      if |content.value| != expected { return SizeMismatch; }
      if !committed { return Unavailable; }
      status, file, parts := Completed, content, map[];
      NoParts();
      assert parts.Keys == {};
      return Ok;
    }

    /** `cancelOpenAIUpload`. */
    method Cancel(now: int, committed: bool) returns (reply: Reply)
      requires Valid()
      modifies this
      ensures Valid() && file == old(file)
      ensures reply.Ok? <==> old(status).Pending? && now < expiresAt && committed
      ensures if reply.Ok? then status.Cancelled? && parts == map[] else status == old(status) && parts == old(parts)
    {
      if !status.Pending? || expiresAt <= now { return NotAccepting; }
      if !committed { return Unavailable; }
      status, parts := Cancelled, map[];
      return Ok;
    }
  }

  lemma NoParts()
    ensures SumOf(map[], {}) == 0
  {
  }

  /** The check for repeated ids. */
  method Unique(ids: seq<PartId>) returns (ok: bool)
    ensures ok <==> NoRepeat(ids)
  {
    var seen: set<PartId> := {};
    var n := 0;
    while n < |ids|
      invariant 0 <= n <= |ids| && seen == Elements(ids[..n]) && NoRepeat(ids[..n])
    {
      assert ids[..n + 1] == ids[..n] + [ids[n]];
      if ids[n] in seen {
        RepeatSeen(ids, n);
        return false;
      }
      seen := seen + {ids[n]};
      n := n + 1;
    }
    assert ids[..n] == ids;
    return true;
  }

  /** The loop that opens the listed parts and joins them, within the declared size. */
  method Gather(parts: map<PartId, Bytes>, ids: seq<PartId>, expected: nat) returns (content: Option<Bytes>)
    requires NoRepeat(ids) && (forall k :: k in parts ==> parts[k] != []) && SumOf(parts, parts.Keys) <= expected
    ensures content.Some? <==> Elements(ids) <= parts.Keys
    ensures content.Some? ==> (forall k :: k in ids ==> k in parts) && content.value == Concatenation(parts, ids)
  {
    hide SumOf, NoRepeat;
    var joined: Bytes := [];
    var n := 0;
    assert ids[..0] == [];
    while n < |ids|
      invariant 0 <= n <= |ids| && (forall k :: k in ids[..n] ==> k in parts)
      invariant joined == Concatenation(parts, ids[..n])
    {
      assert ids[..n + 1] == ids[..n] + [ids[n]];
      if ids[n] !in parts {
        assert ids[n] in Elements(ids);
        return None;
      }
      PrefixFits(parts, ids, n + 1, expected);
      if |parts[ids[n]]| > expected - |joined| { return None; }
      joined := joined + parts[ids[n]];
      n := n + 1;
    }
    assert ids[..n] == ids;
    return Some(joined);
  }

  lemma RepeatSeen(ids: seq<PartId>, n: nat)
    requires n < |ids| && ids[n] in Elements(ids[..n])
    ensures !NoRepeat(ids)
  {
    var i :| 0 <= i < n && ids[..n][i] == ids[n];
    assert ids[i] == ids[n];
  }

  /** The listed parts so far never exceed the declared size. */
  lemma PrefixFits(parts: map<PartId, Bytes>, ids: seq<PartId>, n: nat, expected: nat)
    requires n <= |ids| && NoRepeat(ids) && (forall k :: k in ids[..n] ==> k in parts)
    requires (forall k :: k in parts ==> parts[k] != []) && SumOf(parts, parts.Keys) <= expected
    ensures |Concatenation(parts, ids[..n])| <= expected
  {
    ConcatenationSize(parts, ids[..n]);
    SumOfSubset(parts, Elements(ids[..n]), parts.Keys);
  }
}
