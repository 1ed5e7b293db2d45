/** Stored text files: normalised to UTF-8 and cut into chunks of at most 64 KiB. */
module TextChunks {
  import opened Common
  import opened Utf

  const MAX_CHUNK_BYTES: nat := 65536
  const MAX_PARSED_BYTES: nat := 16777216

  datatype TextError = IncompleteUnit | InvalidSurrogate | NulCharacter | TooLong | NotText
  datatype Result<T> = Ok(value: T) | Err(error: TextError)

  const UTF8_MARK: Bytes := [0xEF, 0xBB, 0xBF]

  // ------------------------------------------------------------ normalisation

  function Trimmed(content: Bytes): Bytes { if UTF8_MARK <= content then content[3..] else content }

  predicate Marked(content: Bytes) { Mark(LittleEndian) <= content || Mark(BigEndian) <= content }

  function OrderOf(content: Bytes): Order
    requires Marked(content)
  {
    if content[0] == 0xFF then LittleEndian else BigEndian
  }

  /** The text that a file holds, if it is BOM-marked UTF-16 or UTF-8. */
  function TextOf(content: Bytes): Option<Text> {
    if Marked(content) then (if |content| % 2 != 0 then None else ScalarsFrom(content, 2, OrderOf(content)))
    else if ValidUtf8(Trimmed(content)) then Some(Decode(Trimmed(content))) else None
  }

  /** What is accepted: text without NUL characters, and no more than 16 MiB when it had to be re-encoded. */
  predicate Acceptable(content: Bytes) {
    TextOf(content).Some? && 0 !in TextOf(content).value
    && (Marked(content) ==> |Encode(TextOf(content).value)| <= MAX_PARSED_BYTES)
  }

  lemma {:induction false} NulBytes(s: Text)
    ensures 0 in Encode(s) <==> 0 in s
  {
    if s != [] {
      NulBytes(s[1..]);
      assert 0 in EncodeOne(s[0]) <==> s[0] == 0 by { OnlyNulHasZero(s[0]); }
      assert 0 in s <==> s[0] == 0 || 0 in s[1..];
    }
  }

  lemma OnlyNulHasZero(c: Scalar)
    ensures 0 in EncodeOne(c) <==> c == 0
  {
    if c == 0 { assert EncodeOne(c)[0] == 0; }
  }

  /** The UTF-16 branch of `vectorStoreUTF8Text`. */
  method FromUtf16(content: Bytes) returns (r: Result<Bytes>)
    requires Marked(content)
    ensures r.Ok? <==> Acceptable(content)
    ensures r.Ok? ==> r.value == Encode(TextOf(content).value)
  {
    hide ScalarAt, EncodeOne, Encode;
    if |content| % 2 != 0 { return Err(IncompleteUnit); }
    var order := BigEndian;
    if content[0] == 0xFF { order := LittleEndian; }
    var text: Bytes := [];
    ghost var seen: Text := [];
    var offset := 2;
    assert Encode([]) == [] by { EncodeNothing(); }
    NoPrefix(ScalarsFrom(content, 2, order));
    while offset < |content|
      invariant 2 <= offset <= |content| && offset % 2 == 0 && order == OrderOf(content)
      invariant text == Encode(seen) && |text| <= MAX_PARSED_BYTES && 0 !in seen
      invariant TextOf(content) == Prefixed(seen, ScalarsFrom(content, offset, order))
      decreases |content| - offset
    {
      var scalar := ScalarAt(content, offset, order);
      if scalar.None? { return Err(InvalidSurrogate); }
      var (character, width) := scalar.value;
      WidthFits(content, offset, order);
      ghost var rest := ScalarsFrom(content, offset + width, order);
      PrefixedStep(seen, character, rest);
      Refused(seen + [character], rest);
      EncodeAppend(seen, [character]);
      OneScalar(character);
      if character == 0 { return Err(NulCharacter); }
      if |text| + |EncodeOne(character)| > MAX_PARSED_BYTES { return Err(TooLong); }
      text := text + EncodeOne(character);
      seen := seen + [character];
      offset := offset + width;
    }
    assert seen + [] == seen;
    return Ok(text);
  }

  function Prefixed(seen: Text, rest: Option<Text>): Option<Text> {
    match rest case None => None case Some(s) => Some(seen + s)
  }

  lemma NoPrefix(rest: Option<Text>)
    ensures Prefixed([], rest) == rest
  {
    if rest.Some? { assert [] + rest.value == rest.value; }
  }

  lemma EncodeNothing()
    ensures Encode([]) == []
  {
  }

  lemma WidthFits(content: Bytes, offset: nat, order: Order)
    requires offset + 1 < |content| && ScalarAt(content, offset, order).Some? && |content| % 2 == 0 && offset % 2 == 0
    ensures var w := ScalarAt(content, offset, order).value.1; w in {2, 4} && offset + w <= |content|
  {
  }

  lemma PrefixedStep(seen: Text, c: Scalar, rest: Option<Text>)
    ensures Prefixed(seen, match rest case None => None case Some(s) => Some([c] + s)) == Prefixed(seen + [c], rest)
  {
    if rest.Some? { assert seen + ([c] + rest.value) == seen + [c] + rest.value; }
  }

  /** What is wrong with the scalars so far is wrong with the whole text. */
  lemma Refused(seen: Text, rest: Option<Text>)
    ensures Prefixed(seen, rest).Some? && 0 in seen ==> 0 in Prefixed(seen, rest).value
    ensures Prefixed(seen, rest).Some? ==> |Encode(seen)| <= |Encode(Prefixed(seen, rest).value)|
  {
    if rest.Some? { EncodeAppend(seen, rest.value); }
  }

  /** `vectorStoreUTF8Text`: exactly the acceptable files, as the UTF-8 encoding of the text they hold. */
  method Utf8Text(content: Bytes) returns (r: Result<Bytes>)
    ensures r.Ok? <==> Acceptable(content)
    ensures r.Ok? ==> r.value == Encode(TextOf(content).value)
  {
    if Mark(LittleEndian) <= content || Mark(BigEndian) <= content {
      r := FromUtf16(content);
      return r;
    }
    var trimmed := Trimmed(content);
    if !ValidUtf8(trimmed) { return Err(NotText); }
    NulBytes(Decode(trimmed));
    if 0 in trimmed { return Err(NulCharacter); }
    return Ok(trimmed);
  }

  // -------------------------------------------------- what the files stand for

  /** UTF-16 in either byte order stands for exactly what was written. */
  lemma Utf16IsKept(s: Text, order: Order)
    ensures TextOf(Mark(order) + Utf16(s, order)) == Some(s)
  {
    hide Utf16, ScalarsFrom, ValidUtf8, Decode, Trimmed;
    Utf16RoundTrip(Mark(order), s, order);
    var content := Mark(order) + Utf16(s, order);
    assert content[0] == Mark(order)[0] && content[1] == Mark(order)[1];
    assert Mark(order) <= content;
    assert OrderOf(content) == order && |Mark(order)| == 2;
  }

  /** UTF-8 text is kept as it is if and only if it does not begin with U+FEFF: the encoding of that character is taken
      for a byte-order mark and dropped. */
  lemma Utf8IsKept(s: Text)
    ensures TextOf(Encode(s)).Some?
    ensures TextOf(Encode(s)) == Some(s) <==> s == [] || s[0] != 0xFEFF
    ensures s != [] && s[0] == 0xFEFF ==> TextOf(Encode(s)) == Some(s[1..])
  {
    var b := Encode(s);
    EncodeIsValid(s);
    NotMarked(s);
    if s != [] {
      MarkIsFeff(s[0], Encode(s[1..]));
      if s[0] == 0xFEFF {
        EncodeIsValid(s[1..]);
        assert b[3..] == Encode(s[1..]);
        assert |s[1..]| != |s|;
      }
    }
  }

  lemma NotMarked(s: Text)
    ensures !Marked(Encode(s))
  {
    if s != [] {
      LeadByte(s[0]);
      assert Encode(s)[0] == EncodeOne(s[0])[0];
      assert Mark(LittleEndian)[0] == 0xFF && Mark(BigEndian)[0] == 0xFE;
    }
  }

  lemma LeadByte(c: Scalar)
    ensures EncodeOne(c)[0] < 0xF8
  {
  }

  lemma MarkIsFeff(c: Scalar, rest: Bytes)
    ensures UTF8_MARK <= EncodeOne(c) + rest <==> c == 0xFEFF
  {
    var b := EncodeOne(c) + rest;
    EncodeOneDecodes(c, rest);
    if UTF8_MARK <= b {
      assert b[0] == UTF8_MARK[0] && b[1] == UTF8_MARK[1] && b[2] == UTF8_MARK[2];
      assert FirstOfThree(b) == Some(0xFEFF);
    }
    if c == 0xFEFF { assert EncodeOne(c) == UTF8_MARK; }
  }

  // ------------------------------------------------------------------ chunks

  function Joined(chunks: seq<Bytes>): Bytes {
    if chunks == [] then [] else Joined(chunks[..|chunks| - 1]) + chunks[|chunks| - 1]
  }

  /** Where the loop cuts a valid text that is longer than a chunk: at the last newline of the first 64 KiB if that is
      in their second half, otherwise before the scalar that would cross the limit. */
  method CutPoint(content: Bytes) returns (end: nat)
    requires ValidUtf8(content) && content != []
    ensures 0 < end <= |content| && end <= MAX_CHUNK_BYTES
    ensures end < |content| ==> RuneStart(content[end]) && end >= 32767
  {
    end := if |content| < MAX_CHUNK_BYTES then |content| else MAX_CHUNK_BYTES;
    if end < |content| {
      ghost var q := StartIsNear(content, end);
      while end < |content| && !RuneStart(content[end])
        invariant q <= end <= MAX_CHUNK_BYTES < |content|
        decreases end
      {
        end := end - 1;
      }
    }
    if end < |content| {
      var newline: int := end - 1;
      while newline >= 0 && content[newline] != 10
        invariant -1 <= newline < end
      {
        newline := newline - 1;
      }
      if newline >= end / 2 {
        AfterAscii(content, newline);
        end := newline + 1;
      }
    }
  }

  lemma NoChunks()
    ensures Joined([]) == []
  {
  }

  lemma JoinedSnoc(chunks: seq<Bytes>, chunk: Bytes)
    ensures Joined(chunks + [chunk]) == Joined(chunks) + chunk
  {
    assert (chunks + [chunk])[..|chunks|] == chunks;
  }

  /** The loop of `vectorStoreTextChunks` on normalised text. */
  method Split(text: Bytes) returns (chunks: seq<Bytes>)
    requires ValidUtf8(text)
    ensures Joined(chunks) == text
    ensures forall i :: 0 <= i < |chunks| ==> ValidUtf8(chunks[i]) && 0 < |chunks[i]| <= MAX_CHUNK_BYTES
    ensures forall i :: 0 <= i < |chunks| - 1 ==> |chunks[i]| >= 32767
  {
    hide ValidUtf8, Joined;
    NoChunks();
    chunks := [];
    var content := text;
    while |content| > 0
      invariant ValidUtf8(content) && Joined(chunks) + content == text
      invariant forall i :: 0 <= i < |chunks| ==> ValidUtf8(chunks[i]) && 0 < |chunks[i]| <= MAX_CHUNK_BYTES
      invariant forall i :: 0 <= i < |chunks| && (i < |chunks| - 1 || content != []) ==> |chunks[i]| >= 32767
      decreases |content|
    {
      var end := CutPoint(content);
      CutIsValid(content, end);
      assert content == content[..end] + content[end..];
      JoinedSnoc(chunks, content[..end]);
      chunks := chunks + [content[..end]];
      content := content[end..];
    }
  }

  /** `vectorStoreTextChunks`: the chunks of an acceptable file concatenate to the UTF-8 encoding of its text; each is
      valid UTF-8, not empty and at most 64 KiB, and each but the last has at least 32767 bytes. */
  method TextChunks(content: Bytes) returns (r: Result<seq<Bytes>>)
    ensures r.Ok? <==> Acceptable(content)
    ensures r.Ok? ==> Joined(r.value) == Encode(TextOf(content).value)
    ensures r.Ok? ==> forall i :: 0 <= i < |r.value| ==> ValidUtf8(r.value[i]) && 0 < |r.value[i]| <= MAX_CHUNK_BYTES
    ensures r.Ok? ==> forall i :: 0 <= i < |r.value| - 1 ==> |r.value[i]| >= 32767
  {
    var text := Utf8Text(content);
    if text.Err? { return Err(text.error); }
    EncodeIsValid(TextOf(content).value);
    var chunks := Split(text.value);
    return Ok(chunks);
  }

  /** The promise for written text: whatever NUL-free text is stored as UTF-8 without a leading U+FEFF, or as marked
      UTF-16 within the size limit, its chunks are its UTF-8 encoding. */
  lemma WrittenTextIsAcceptable(s: Text, order: Order)
    requires 0 !in s
    ensures s == [] || s[0] != 0xFEFF ==> Acceptable(Encode(s)) && TextOf(Encode(s)) == Some(s)
    ensures Acceptable(Mark(order) + Utf16(s, order)) <==> |Encode(s)| <= MAX_PARSED_BYTES
    ensures TextOf(Mark(order) + Utf16(s, order)) == Some(s)
  {
    Utf8IsKept(s);
    NotMarked(s);
    Utf16IsKept(s, order);
    assert Mark(order) <= Mark(order) + Utf16(s, order);
  }
}
