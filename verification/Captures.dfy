/** Bounded captures of a stream: a ring buffer that keeps the tail, a buffer that keeps the head, and the window that
    combines them at event boundaries. */
module Captures {
  import opened Sse

  function Min(a: int, b: int): int { if a < b then a else b }

  /** The last `n` bytes, or all of them. */
  function Last(b: Bytes, n: nat): Bytes { b[|b| - Min(n, |b|)..] }

  /** The first `n` bytes, or all of them. */
  function First(b: Bytes, n: nat): Bytes { b[..Min(n, |b|)] }

  lemma LastOfSuffix(a: Bytes, b: Bytes, n: nat)
    ensures Last(a + b, n) == Last(Last(a, n) + b, n)
  {
    var s := Last(a, n);
    assert a + b == a[..|a| - |s|] + (s + b);
  }

  /** `tailCapture`: a ring buffer over an array of `limit` bytes. */
  class TailCapture {
    const limit: nat
    const data: array<bv8>
    var size: nat
    var next: nat
    ghost var input: Bytes    // everything written so far

    ghost predicate Valid()
      reads this, data
    {
      data.Length == limit && size == Min(limit, |input|)
      && (size < limit ==> next == size && data[..size] == input)
      && (size == limit && limit > 0 ==> next < limit && data[next..] + data[..next] == Last(input, limit))
    }

    constructor (limit: nat)
      ensures Valid() && input == [] && this.limit == limit && fresh(data)
    {
      this.limit := limit;
      data := new bv8[limit];
      size, next, input := 0, 0, [];
    }

    /** copy(data[at:], value): as many bytes as fit before the end of the buffer. */
    method CopyIn(at: nat, value: Bytes) returns (written: nat)
      requires at <= data.Length
      modifies data
      ensures written == Min(data.Length - at, |value|)
      ensures data[..] == old(data[..at]) + value[..written] + old(data[at + written..])
    {
      written := if data.Length - at < |value| then data.Length - at else |value|;
      forall i | 0 <= i < written { data[at + i] := value[i]; }
      assert forall i :: at <= i < at + written ==> data[i] == value[i - at];
    }

    /** The growing phase of a write: fill the buffer up to its limit. */
    method Grow(value: Bytes) returns (growth: nat)
      requires Valid() && size < limit && 0 < |value| < limit
      modifies this, data
      ensures Valid() && growth <= |value| && input == old(input) + value[..growth]
      ensures growth < |value| ==> size == limit
    {
      growth := if |value| < limit - size then |value| else limit - size;
      ghost var whole := input + value[..growth];
      var copied := CopyIn(size, value[..growth]);
      size := size + growth;
      assert data[..size] == whole;
      GrownIndex(size, limit);
      next := size % limit;
      input := whole;
      if size == limit { FullRing(data[..], whole); }
    }

    /** One copy of the wrapping phase: overwrite the oldest bytes up to the end of the buffer. */
    method Wrap(value: Bytes) returns (written: nat)
      requires Valid() && size == limit && 0 < |value| < limit
      modifies this, data
      ensures Valid() && size == limit && 0 < written <= |value| && input == old(input) + value[..written]
    {
      hide Last;
      ghost var was, at, before := data[..], next, input;
      assert data[at..] == was[at..] && data[..at] == was[..at];
      written := CopyIn(next, value);
      ghost var v, now := value[..written], data[..];
      RingAdvance(was, now, at, v, before, limit);
      next := (next + written) % limit;
      assert data[next..] == now[next..] && data[..next] == now[..next];
      size := Min(limit, size + written);
      input := input + v;
      StaysFull(before, v, limit, written);
    }

    /** A write of at least `limit` bytes replaces the whole buffer. */
    method Replace(value: Bytes)
      requires Valid() && 0 < limit <= |value|
      modifies this, data
      ensures Valid() && input == old(input) + value
    {
      hide Last;
      var kept := CopyIn(0, value[|value| - limit..]);
      LastOfLong(input, value, limit);
      size, next, input := limit, 0, input + value;
      assert data[..] == value[|value| - limit..];
      assert data[next..] + data[..next] == data[..];
    }

    /** Writing in pieces of any size keeps exactly the last `limit` bytes of everything written. */
    method Write(value: Bytes)
      requires Valid()
      modifies this, data
      ensures Valid() && input == old(input) + value
    {
      hide Last;
      ghost var whole := input + value;
      if limit == 0 {
        input := whole;
        return;
      }
      if |value| >= limit {
        Replace(value);
        return;
      }
      var rest := value;
      if size < limit && rest != [] {
        var growth := Grow(rest);
        assert value == value[..growth] + value[growth..];
        rest := rest[growth..];
      }
      while |rest| > 0
        invariant Valid() && whole == input + rest && (|rest| > 0 ==> size == limit) && |rest| < limit
        decreases |rest|
      {
        var written := Wrap(rest);
        assert rest == rest[..written] + rest[written..];
        rest := rest[written..];
      }
    }

    /** `Bytes`: the last min(limit, total) bytes, in order. */
    method Contents() returns (value: Bytes)
      requires Valid()
      ensures value == Last(input, limit)
    {
      if size < limit { return data[..size]; }
      if limit == 0 { return []; }
      return data[next..] + data[..next];
    }
  }

  /** Overwriting a run of the buffer at the read position moves the ring forward by that run. */
  lemma Rotate(was: Bytes, now: Bytes, at: nat, v: Bytes)
    requires at < |was| && at + |v| <= |was| && now == was[..at] + v + was[at + |v|..]
    ensures var next := if at + |v| == |was| then 0 else at + |v|;
            now[next..] + now[..next] == (was[at..] + was[..at])[|v|..] + v
  {
    var end := at + |v|;
    assert (was[at..] + was[..at])[|v|..] == was[end..] + was[..at];
    if end == |was| {
      assert now == was[..at] + v;
      assert now[0..] + now[..0] == now;
    } else {
      assert now[end..] == was[end..];
      assert now[..end] == was[..at] + v;
      assert now[end..] + now[..end] == was[end..] + was[..at] + v;
    }
  }

  lemma RingAdvance(was: Bytes, now: Bytes, at: nat, v: Bytes, before: Bytes, limit: nat)
    requires |was| == limit && at < limit && at + |v| <= limit && now == was[..at] + v + was[at + |v|..]
    requires was[at..] + was[..at] == Last(before, limit)
    ensures var next := (at + |v|) % limit;
            next < limit && |now| == limit && now[next..] + now[..next] == Last(before + v, limit)
  {
    hide Last;
    Rotate(was, now, at, v);
    NextIndex(at, |v|, limit);
    LastOfSuffix(before, v, limit);
    RingTail(was[at..] + was[..at], v, limit);
  }

  lemma StaysFull(before: Bytes, v: Bytes, limit: nat, written: nat)
    requires limit == Min(limit, |before|)
    ensures Min(limit, limit + written) == limit == Min(limit, |before + v|)
  {
  }

  lemma GrownIndex(size: nat, limit: nat)
    requires 0 < size <= limit
    ensures size % limit == if size == limit then 0 else size
  {
  }

  lemma FullRing(data: Bytes, input: Bytes)
    requires data == input
    ensures data[0..] + data[..0] == Last(input, |data|)
  {
  }

  lemma NextIndex(at: nat, written: nat, limit: nat)
    requires at < limit && at + written <= limit
    ensures (at + written) % limit == if at + written == limit then 0 else at + written
  {
  }

  lemma LastOfLong(before: Bytes, value: Bytes, limit: nat)
    requires limit <= |value|
    ensures Last(before + value, limit) == value[|value| - limit..]
  {
  }

  lemma RingTail(ring: Bytes, v: Bytes, limit: nat)
    requires |ring| == limit && |v| <= limit
    ensures Last(ring + v, limit) == ring[|v|..] + v
  {
  }

  /** `limitedCapture`: the first `limit` bytes. */
  class LimitedCapture {
    const limit: nat
    var buffer: Bytes
    var overflow: bool
    ghost var input: Bytes

    ghost predicate Valid()
      reads this
    {
      buffer == First(input, limit) && (overflow ==> |input| >= limit) && (|input| > limit ==> overflow)
    }

    constructor (limit: nat)
      ensures Valid() && input == [] && this.limit == limit
    {
      this.limit, buffer, overflow, input := limit, [], false, [];
    }

    method Write(value: Bytes)
      requires Valid()
      modifies this
      ensures Valid() && input == old(input) + value
    {
      var remaining := limit - |buffer|;
      ghost var whole := input + value;
      if remaining <= 0 {
        overflow := true;
      } else if |value| > remaining {
        overflow := true;
        buffer := buffer + value[..remaining];
      } else {
        buffer := buffer + value;
      }
      input := whole;
    }
  }

  // ------------------------------------------------------------------ window

  /** `completeSSEPrefix`. */
  function CompletePrefix(b: Bytes): (r: Bytes)
    ensures r <= b && (r == [] || EndsFrame(b, |r|))
    ensures forall e :: EndsFrame(b, e) ==> e <= |r|
  {
    var lf, crlf := LastIndex(b, LF_LF, |b|), LastIndex(b, CRLF_CRLF, |b|);
    if crlf > lf then b[..crlf + 4] else if lf >= 0 then (LatestIsLf(b, crlf, lf); b[..lf + 2]) else []
  }

  lemma LatestIsLf(b: Bytes, crlf: int, lf: int)
    requires OccursAt(b, LF_LF, lf) && crlf <= lf
    requires forall j :: crlf < j <= |b| && 0 <= j ==> !OccursAt(b, CRLF_CRLF, j)
    ensures forall j :: j > lf - 2 ==> !OccursAt(b, CRLF_CRLF, j)
  {
    forall j | j > lf - 2 ensures !OccursAt(b, CRLF_CRLF, j) {
      if OccursAt(b, CRLF_CRLF, j) { TerminatorsDoNotOverlap(b, j, lf); }
    }
  }

  /** `completeSSETail`. */
  function CompleteTail(b: Bytes): (r: Bytes)
    ensures r == if FrameEnd(b) >= 0 then b[FrameEnd(b)..] else b
  {
    var lf, crlf := Index(b, LF_LF, 0), Index(b, CRLF_CRLF, 0);
    if crlf >= 0 && (lf < 0 || crlf < lf) then b[crlf + 4..]
    else if lf >= 0 then
      assert crlf != lf by { if crlf == lf { TerminatorsDoNotOverlap(b, crlf, lf); } }
      b[lf + 2..]
    else b
  }

  /** What the window shows of everything written. */
  function Window(input: Bytes, headLimit: nat, tailLimit: nat): Bytes {
    if |input| <= tailLimit then input
    else CompletePrefix(First(input, headLimit)) + CompleteTail(Last(input, tailLimit))
  }

  /** `headTailCapture`. */
  class HeadTailCapture {
    const head: LimitedCapture
    const tail: TailCapture
    var total: nat

    ghost predicate Valid()
      reads this, head, tail, tail.data
    {
      head.Valid() && tail.Valid() && head.input == tail.input && total == |tail.input|
    }

    constructor (headLimit: nat, tailLimit: nat)
      ensures Valid() && tail.input == [] && head.limit == headLimit && tail.limit == tailLimit
      ensures fresh(head) && fresh(tail) && fresh(tail.data)
    {
      head := new LimitedCapture(headLimit);
      tail := new TailCapture(tailLimit);
      total := 0;
    }

    method Write(value: Bytes)
      requires Valid()
      modifies this, head, tail, tail.data
      ensures Valid() && tail.input == old(tail.input) + value
    {
      total := total + |value|;
      head.Write(value);
      tail.Write(value);
    }

    /** `Bytes`: up to the limit everything; past it, the longest terminator-ended prefix of the head followed by the
        tail after its first terminator. Only the concatenated input matters. */
    method Contents() returns (value: Bytes)
      requires Valid()
      ensures value == Window(tail.input, head.limit, tail.limit)
    {
      var tailBytes := tail.Contents();
      if total <= tail.limit {
        assert Last(tail.input, tail.limit) == tail.input;
        return tailBytes;
      }
      return CompletePrefix(head.buffer) + CompleteTail(tailBytes);
    }
  }

  /** Past the limit the window is a prefix and a suffix of the input. */
  lemma WindowIsPrefixAndSuffix(input: Bytes, headLimit: nat, tailLimit: nat)
    requires |input| > tailLimit
    ensures var h, t := |CompletePrefix(First(input, headLimit))|, |CompleteTail(Last(input, tailLimit))|;
            h <= headLimit && t <= tailLimit && h <= |input| && t <= |input|
            && Window(input, headLimit, tailLimit) == input[..h] + input[|input| - t..]
  {
    var head, tail := First(input, headLimit), Last(input, tailLimit);
    assert CompletePrefix(head) == input[..|CompletePrefix(head)|];
    assert CompleteTail(tail) == input[|input| - |CompleteTail(tail)|..];
  }

  /** The prefix and the suffix overlap, so that the bytes in between come out twice. */
  predicate Repeats(input: Bytes, headLimit: nat, tailLimit: nat) {
    && |input| > tailLimit
    && |CompletePrefix(First(input, headLimit))| + |CompleteTail(Last(input, tailLimit))| > |input|
  }

  /** An input whose only blank line ends right behind the start of the last `t` bytes. */
  function Straddling(n: nat, t: nat): Bytes
    requires 0 < t < n
  {
    seq(n, i => if i == n - t - 1 || i == n - t then LF else 65)
  }

  lemma StraddlingHead(n: nat, headLimit: nat, t: nat)
    requires 0 < t < n < headLimit + t
    ensures |CompletePrefix(First(Straddling(n, t), headLimit))| >= n - t + 1
  {
    hide CompletePrefix;
    var at, head := n - t - 1, First(Straddling(n, t), headLimit);
    assert head[at] == LF && head[at + 1] == LF;
    assert head[at..at + 2] == LF_LF;
    assert OccursAt(head, LF_LF, at);
    assert EndsFrame(head, at + 2);
  }

  lemma StraddlingTail(n: nat, t: nat)
    requires 0 < t < n
    ensures CompleteTail(Last(Straddling(n, t), t)) == Last(Straddling(n, t), t)
  {
    hide CompleteTail;
    var tail := Last(Straddling(n, t), t);
    assert |tail| == t && forall i :: 0 < i < t ==> tail[i] == 65;
    assert tail[0] == LF;
    forall e ensures !EndsFrame(tail, e) {
      if 2 <= e <= t { NoMatch(tail, LF_LF, e - 2, 1); }
      if 4 <= e <= t { NoMatch(tail, CRLF_CRLF, e - 4, 0); }
    }
  }

  lemma NoMatch(b: Bytes, pattern: Bytes, k: nat, i: nat)
    requires k + |pattern| <= |b| && i < |pattern| && b[k + i] != pattern[i]
    ensures !OccursAt(b, pattern, k)
  {
    assert b[k..k + |pattern|][i] == b[k + i];
  }

  lemma StraddlingRepeats(n: nat, headLimit: nat, t: nat)
    requires 0 < t < n < headLimit + t
    ensures Repeats(Straddling(n, t), headLimit, t)
  {
    hide CompletePrefix, CompleteTail;
    StraddlingHead(n, headLimit, t);
    StraddlingTail(n, t);
  }

  /** Some input of length `n` is shown with repeated bytes if and only if `n` exceeds the tail limit, which is not zero,
      and falls short of both limits together. Any other length is always shown without. */
  lemma RepeatsIffLimitsOverlap(n: nat, headLimit: nat, tailLimit: nat)
    ensures (exists input: Bytes :: |input| == n && Repeats(input, headLimit, tailLimit)) <==> 0 < tailLimit < n < headLimit + tailLimit
  {
    if 0 < tailLimit < n < headLimit + tailLimit {
      StraddlingRepeats(n, headLimit, tailLimit);
      assert |Straddling(n, tailLimit)| == n;
    } else {
      forall input: Bytes | |input| == n ensures !Repeats(input, headLimit, tailLimit) {
        if n > tailLimit { WindowIsPrefixAndSuffix(input, headLimit, tailLimit); }
      }
    }
  }

  /** Twice the limits of 6 bytes show four of seven bytes again. */
  lemma WindowCanRepeat()
    ensures var input: Bytes := [LF, LF, LF, LF, LF, LF, 65];
            Window(input, 6, 6) == [LF, LF, LF, LF, LF, LF] + [LF, LF, LF, 65]
  {
    var input: Bytes := [LF, LF, LF, LF, LF, LF, 65];
    var head: Bytes := [LF, LF, LF, LF, LF, LF];
    var tail: Bytes := [LF, LF, LF, LF, LF, 65];
    assert First(input, 6) == head && Last(input, 6) == tail;
    assert head[4..6] == LF_LF && OccursAt(head, LF_LF, 4) && EndsFrame(head, 6);
    assert CompletePrefix(head) == head;
    assert tail[0..2] == LF_LF && OccursAt(tail, LF_LF, 0) && EndsFrame(tail, 2);
    assert FrameEnd(tail) == 2;
  }
}
