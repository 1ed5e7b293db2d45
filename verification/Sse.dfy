/** Server-sent event framing with the two blank-line terminators, and the filter that drops usage-only chunks. */
module Sse {
  import opened Common

  type Bytes = seq<bv8>

  const LF: bv8 := 10
  const CR: bv8 := 13
  const LF_LF: Bytes := [LF, LF]
  const CRLF_CRLF: Bytes := [CR, LF, CR, LF]

  predicate OccursAt(b: Bytes, pattern: Bytes, k: int) { 0 <= k && k + |pattern| <= |b| && b[k..k + |pattern|] == pattern }

  /** bytes.Index. */
  function Index(b: Bytes, pattern: Bytes, from: nat): (k: int)
    requires from <= |b|
    ensures k >= -1
    ensures k >= 0 ==> from <= k && OccursAt(b, pattern, k) && forall j :: from <= j < k ==> !OccursAt(b, pattern, j)
    ensures k < 0 ==> forall j :: from <= j ==> !OccursAt(b, pattern, j)
    decreases |b| - from
  {
    if OccursAt(b, pattern, from) then from else if from == |b| then -1 else Index(b, pattern, from + 1)
  }

  /** bytes.LastIndex among the starts up to `to`. */
  function LastIndex(b: Bytes, pattern: Bytes, to: nat): (k: int)
    ensures k >= -1
    ensures k >= 0 ==> k <= to && OccursAt(b, pattern, k) && forall j :: k < j <= to ==> !OccursAt(b, pattern, j)
    ensures k < 0 ==> forall j :: 0 <= j <= to ==> !OccursAt(b, pattern, j)
  {
    if OccursAt(b, pattern, to) then to else if to == 0 then -1 else LastIndex(b, pattern, to - 1)
  }

  /** A frame may end after position `e`: a blank line stands right before it. */
  predicate EndsFrame(b: Bytes, e: int) { OccursAt(b, LF_LF, e - 2) || OccursAt(b, CRLF_CRLF, e - 4) }

  /** `sseFrameEnd`: comparing where the two terminators start finds the earliest place where a frame ends, for any
      mixture of the two line endings. */
  function FrameEnd(b: Bytes): (end: int)
    ensures end >= 0 ==> 2 <= end <= |b| && EndsFrame(b, end) && forall e :: e < end ==> !EndsFrame(b, e)
    ensures end < 0 ==> forall e :: !EndsFrame(b, e)
  {
    var lf, crlf := Index(b, LF_LF, 0), Index(b, CRLF_CRLF, 0);
    if lf >= 0 && (crlf < 0 || lf < crlf) then lf + 2
    else if crlf >= 0 then (EarliestIsCrlf(b, crlf, lf); crlf + 4)
    else -1
  }

  lemma EarliestIsCrlf(b: Bytes, crlf: int, lf: int)
    requires OccursAt(b, CRLF_CRLF, crlf) && (lf < 0 || crlf <= lf)
    requires forall j :: 0 <= j && (lf < 0 || j < lf) ==> !OccursAt(b, LF_LF, j)
    ensures forall j :: j < crlf + 2 ==> !OccursAt(b, LF_LF, j)
  {
    forall j | j < crlf + 2 ensures !OccursAt(b, LF_LF, j) {
      if OccursAt(b, LF_LF, j) { TerminatorsDoNotOverlap(b, crlf, j); }
    }
  }

  /** No pair of line feeds starts inside a carriage-return terminator, except at its last byte. */
  lemma TerminatorsDoNotOverlap(b: Bytes, crlf: int, lf: int)
    requires OccursAt(b, CRLF_CRLF, crlf) && OccursAt(b, LF_LF, lf)
    ensures lf < crlf || lf >= crlf + 3
  {
    var c, l := b[crlf..crlf + 4], b[lf..lf + 2];
    assert c[0] == b[crlf] == CR && c[1] == b[crlf + 1] == LF && c[2] == b[crlf + 2] == CR;
    assert l[0] == b[lf] == LF && l[1] == b[lf + 1] == LF;
  }

  lemma OccursAtFrame(a: Bytes, b: Bytes, pattern: Bytes, k: int)
    requires k + |pattern| <= |a|
    ensures OccursAt(a + b, pattern, k) <==> OccursAt(a, pattern, k)
  {
    if 0 <= k { assert (a + b)[k..k + |pattern|] == a[k..k + |pattern|]; }
  }

  lemma EndsFrameFrame(a: Bytes, b: Bytes, e: int)
    requires e <= |a|
    ensures EndsFrame(a + b, e) <==> EndsFrame(a, e)
  {
    hide OccursAt;
    OccursAtFrame(a, b, LF_LF, e - 2);
    OccursAtFrame(a, b, CRLF_CRLF, e - 4);
  }

  /** A frame end that was found stays the first one however the buffer grows. */
  lemma FrameEndIsStable(a: Bytes, b: Bytes)
    requires FrameEnd(a) >= 0
    ensures FrameEnd(a + b) == FrameEnd(a)
  {
    var e := FrameEnd(a);
    EndsFrameFrame(a, b, e);
    var f := FrameEnd(a + b);
    if f < e { EndsFrameFrame(a, b, f); }
  }

  // ------------------------------------------------------------------ filter

  /** The frames of a stream and the bytes after the last of them. */
  function Frames(b: Bytes): (r: (seq<Bytes>, Bytes))
    ensures FrameEnd(r.1) < 0
    decreases |b|
  {
    if FrameEnd(b) < 0 then ([], b)
    else
      var (more, rest) := Frames(b[FrameEnd(b)..]);
      ([b[..FrameEnd(b)]] + more, rest)
  }

  function Concat(frames: seq<Bytes>): Bytes {
    if frames == [] then [] else frames[0] + Concat(frames[1..])
  }

  /** The frames that are not usage-only. */
  function Visible(frames: seq<Bytes>, usageOnly: Bytes -> bool): seq<Bytes> {
    if frames == [] then [] else (if usageOnly(frames[0]) then [] else [frames[0]]) + Visible(frames[1..], usageOnly)
  }

  /** What the client gets of a whole stream: the visible frames and the unterminated remainder. */
  function Filtered(b: Bytes, usageOnly: Bytes -> bool): Bytes { Concat(Visible(Frames(b).0, usageOnly)) }

  /** Cutting a stream loses nothing. */
  lemma {:induction false} FramesRebuild(b: Bytes)
    ensures Concat(Frames(b).0) + Frames(b).1 == b
    decreases |b|
  {
    if FrameEnd(b) >= 0 {
      var e := FrameEnd(b);
      FramesRebuild(b[e..]);
      var (more, rest) := Frames(b[e..]);
      assert ([b[..e]] + more)[1..] == more;
      assert b == b[..e] + b[e..];
    }
  }

  /** Cutting a longer stream only adds frames: those of the remainder continued. */
  lemma {:induction false} FramesAppend(a: Bytes, b: Bytes)
    ensures Frames(a + b).0 == Frames(a).0 + Frames(Frames(a).1 + b).0
    ensures Frames(a + b).1 == Frames(Frames(a).1 + b).1
    decreases |a|
  {
    hide FrameEnd;
    if FrameEnd(a) >= 0 {
      FrameEndIsStable(a, b);
      var e := FrameEnd(a);
      FramesAppend(a[e..], b);
      assert (a + b)[e..] == a[e..] + b && (a + b)[..e] == a[..e];
    }
  }

  lemma {:induction false} VisibleAppend(a: seq<Bytes>, b: seq<Bytes>, usageOnly: Bytes -> bool)
    ensures Visible(a + b, usageOnly) == Visible(a, usageOnly) + Visible(b, usageOnly)
  {
    if a == [] {
      assert a + b == b;
    } else {
      VisibleAppend(a[1..], b, usageOnly);
      assert (a + b)[1..] == a[1..] + b && (a + b)[0] == a[0];
      var head := if usageOnly(a[0]) then [] else [a[0]];
      assert Visible(a + b, usageOnly) == head + (Visible(a[1..], usageOnly) + Visible(b, usageOnly));
    }
  }

  lemma {:induction false} ConcatAppend(a: seq<Bytes>, b: seq<Bytes>)
    ensures Concat(a + b) == Concat(a) + Concat(b)
  {
    if a == [] {
      assert a + b == b;
    } else {
      ConcatAppend(a[1..], b);
      assert (a + b)[1..] == a[1..] + b && (a + b)[0] == a[0];
      assert Concat(a + b) == a[0] + (Concat(a[1..]) + Concat(b));
    }
  }

  lemma FilteredAppend(a: Bytes, b: Bytes, usageOnly: Bytes -> bool)
    ensures Filtered(a + b, usageOnly) == Filtered(a, usageOnly) + Filtered(Frames(a).1 + b, usageOnly)
  {
    hide FrameEnd;
    FramesAppend(a, b);
    VisibleAppend(Frames(a).0, Frames(Frames(a).1 + b).0, usageOnly);
    ConcatAppend(Visible(Frames(a).0, usageOnly), Visible(Frames(Frames(a).1 + b).0, usageOnly));
  }

  /** `usageChunkFilter` in front of a writer that may refuse a chunk. */
  class UsageFilter {
    const usageOnly: Bytes -> bool
    var pending: Bytes
    var forwarded: Bytes      // what the wrapped writer has accepted
    ghost var input: Bytes    // all bytes of the writes that reported no error

    ghost predicate Valid()
      reads this
    {
      pending == Frames(input).1 && forwarded == Filtered(input, usageOnly)
    }

    constructor (usageOnly: Bytes -> bool)
      ensures Valid() && input == [] && this.usageOnly == usageOnly
    {
      this.usageOnly, pending, forwarded, input := usageOnly, [], [], [];
    }

    /** A write without error forwards every frame it completes, except usage-only ones, and keeps the remainder; a
        stream event that would outgrow 16 MiB is refused with nothing changed. */
    method Write(value: Bytes, accepts: Bytes -> bool) returns (ok: bool)
      requires Valid()
      modifies this
      ensures ok ==> Valid() && input == old(input) + value
      ensures |old(pending)| + |value| > MAX_INFERENCE_BODY ==> !ok && pending == old(pending) && forwarded == old(forwarded)
      ensures |old(pending)| + |value| <= MAX_INFERENCE_BODY && (forall chunk :: accepts(chunk)) ==> ok
    {
      hide FrameEnd, Filtered, Frames;
      if |pending| + |value| > MAX_INFERENCE_BODY { return false; }
      ghost var whole := pending + value;
      pending := pending + value;
      while true
        invariant forwarded + Filtered(pending, usageOnly) == old(forwarded) + Filtered(whole, usageOnly)
        invariant Frames(pending).1 == Frames(whole).1 && input == old(input)
        decreases |pending|
      {
        var end := FrameEnd(pending);
        if end < 0 {
          NoFrame(pending, usageOnly);
          FilteredAppend(input, value, usageOnly);
          FramesAppend(input, value);
          input := input + value;
          return true;
        }
        OneFrame(pending, usageOnly);
        if !usageOnly(pending[..end]) {
          if !accepts(pending[..end]) { return false; }
          forwarded := forwarded + pending[..end];
        }
        pending := pending[end..];
      }
    }

    /** `Finish`: the unterminated remainder goes out as it is. */
    method Finish()
      requires Valid()
      modifies this
      ensures input == old(input) && pending == []
      ensures forwarded == Filtered(input, usageOnly) + Frames(input).1
    {
      if |pending| == 0 { return; }
      forwarded := forwarded + pending;
      pending := [];
    }
  }

  lemma NoFrame(b: Bytes, usageOnly: Bytes -> bool)
    requires FrameEnd(b) < 0
    ensures Frames(b) == ([], b) && Filtered(b, usageOnly) == []
  {
  }

  lemma OneFrame(b: Bytes, usageOnly: Bytes -> bool)
    requires FrameEnd(b) >= 0
    ensures var e := FrameEnd(b);
            2 <= e <= |b| && Frames(b).1 == Frames(b[e..]).1
            && Filtered(b, usageOnly) == (if usageOnly(b[..e]) then [] else b[..e]) + Filtered(b[e..], usageOnly)
  {
    hide FrameEnd, Concat, Visible;
    var e := FrameEnd(b);
    OneVisible(b[..e], Frames(b[e..]).0, usageOnly);
  }

  lemma OneVisible(frame: Bytes, more: seq<Bytes>, usageOnly: Bytes -> bool)
    ensures Concat(Visible([frame] + more, usageOnly)) == (if usageOnly(frame) then [] else frame) + Concat(Visible(more, usageOnly))
  {
    var visible := Visible(more, usageOnly);
    assert ([frame] + more)[1..] == more;
    if usageOnly(frame) { assert [] + visible == visible; } else { assert ([frame] + visible)[1..] == visible; }
  }

  /** At each write, the remainder of what came before and the new bytes together fit the pending buffer. */
  predicate Fits(writes: seq<Bytes>) {
    forall n :: 0 <= n < |writes| ==> |Frames(Concat(writes[..n])).1| + |writes[n]| <= MAX_INFERENCE_BODY
  }

  /** However a stream is cut into writes, none of them fails if and only if each fits the pending buffer, and then the
      client gets the same bytes: the frames that are not usage-only and the unterminated remainder of the
      concatenation. */
  method FilterWrites(filter: UsageFilter, writes: seq<Bytes>) returns (ok: bool)
    requires filter.Valid() && filter.input == []
    modifies filter
    ensures ok <==> Fits(writes)
    ensures ok ==> filter.input == Concat(writes)
                   && filter.forwarded == Filtered(Concat(writes), filter.usageOnly) + Frames(Concat(writes)).1
  {
    hide FrameEnd, Filtered, Frames;
    var n := 0;
    assert writes[..0] == [];
    while n < |writes|
      invariant 0 <= n <= |writes| && filter.Valid() && filter.input == Concat(writes[..n])
      invariant forall i :: 0 <= i < n ==> |Frames(Concat(writes[..i])).1| + |writes[i]| <= MAX_INFERENCE_BODY
    {
      ConcatAppend(writes[..n], [writes[n]]);
      assert writes[..n + 1] == writes[..n] + [writes[n]];
      assert Concat([writes[n]]) == writes[n] by { OneChunk(writes[n]); }
      var written := filter.Write(writes[n], _ => true);
      if !written { return false; }
      n := n + 1;
    }
    assert writes[..n] == writes;
    filter.Finish();
    return true;
  }

  lemma OneChunk(b: Bytes)
    ensures Concat([b]) == b
  {
    assert [b][1..] == [];
  }
}
