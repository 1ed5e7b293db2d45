/** UTF-8 (RFC 3629) and UTF-16 (RFC 2781) as the text of stored files is read. */
module Utf {
  import opened Common

  type Byte = x: int | 0 <= x < 256
  type Bytes = seq<Byte>

  /** A Unicode scalar value. */
  type Scalar = x: int | 0 <= x < 0xD800 || 0xE000 <= x <= 0x10FFFF

  type Text = seq<Scalar>

  // -------------------------------------------------------------------- UTF-8

  /** Section 3 of RFC 3629. */
  function EncodeOne(c: Scalar): (r: Bytes)
    ensures 1 <= |r| <= 4
  {
    if c < 0x80 then [c]
    else if c < 0x800 then [0xC0 + c / 64, 0x80 + c % 64]
    else if c < 0x10000 then [0xE0 + c / 4096, 0x80 + c / 64 % 64, 0x80 + c % 64]
    else [0xF0 + c / 262144, 0x80 + c / 4096 % 64, 0x80 + c / 64 % 64, 0x80 + c % 64]
  }

  function Encode(s: Text): Bytes {
    if s == [] then [] else EncodeOne(s[0]) + Encode(s[1..])
  }

  predicate Continues(b: Byte) { 0x80 <= b < 0xC0 }

  /** utf8.RuneStart. */
  predicate RuneStart(b: Byte) { !Continues(b) }

  function At(b: Bytes, i: nat): int
    requires i < |b|
  {
    b[i]
  }

  /** The scalar that a byte sequence begins with, by the syntax of section 4 of RFC 3629. */
  function FirstScalar(b: Bytes): Option<Scalar> {
    if |b| == 0 then None
    else if b[0] < 0x80 then Some(b[0])
    else if b[0] < 0xE0 then FirstOfTwo(b)
    else if b[0] < 0xF0 then FirstOfThree(b)
    else FirstOfFour(b)
  }

  function FirstOfTwo(b: Bytes): Option<Scalar> {
    if |b| >= 2 && 0xC2 <= b[0] < 0xE0 && Continues(b[1]) then Some((At(b, 0) - 0xC0) * 64 + (At(b, 1) - 0x80)) else None
  }

  function FirstOfThree(b: Bytes): Option<Scalar> {
    if |b| >= 3 && 0xE0 <= b[0] < 0xF0 && Continues(b[1]) && Continues(b[2])
       && (b[0] == 0xE0 ==> b[1] >= 0xA0) && (b[0] == 0xED ==> b[1] < 0xA0)
    then Some((At(b, 0) - 0xE0) * 4096 + (At(b, 1) - 0x80) * 64 + (At(b, 2) - 0x80)) else None
  }

  function FirstOfFour(b: Bytes): Option<Scalar> {
    if |b| >= 4 && 0xF0 <= b[0] < 0xF5 && Continues(b[1]) && Continues(b[2]) && Continues(b[3])
       && (b[0] == 0xF0 ==> b[1] >= 0x90) && (b[0] == 0xF4 ==> b[1] < 0x90)
    then Some((At(b, 0) - 0xF0) * 262144 + (At(b, 1) - 0x80) * 4096 + (At(b, 2) - 0x80) * 64 + (At(b, 3) - 0x80)) else None
  }

  lemma Digits2(h: nat, l: nat)
    requires l < 64
    ensures (h * 64 + l) / 64 == h && (h * 64 + l) % 64 == l
  {
  }

  lemma Digits3(h: nat, m: nat, l: nat)
    requires m < 64 && l < 64
    ensures var c := h * 4096 + m * 64 + l; c / 4096 == h && c / 64 % 64 == m && c % 64 == l
  {
    var c := h * 4096 + m * 64 + l;
    Digits2(h * 64 + m, l);
    assert c == (h * 64 + m) * 64 + l;
    Digits2(h, m);
  }

  lemma Digits4(h: nat, k: nat, m: nat, l: nat)
    requires k < 64 && m < 64 && l < 64
    ensures var c := h * 262144 + k * 4096 + m * 64 + l; c / 262144 == h && c / 4096 % 64 == k && c / 64 % 64 == m && c % 64 == l
  {
    var c := h * 262144 + k * 4096 + m * 64 + l;
    assert c == (h * 64 + k) * 4096 + m * 64 + l;
    Digits3(h * 64 + k, m, l);
    Digits2(h, k);
  }

  /** The syntax and the encoding agree on the first scalar. */
  lemma FirstScalarEncodes(b: Bytes)
    requires FirstScalar(b).Some?
    ensures EncodeOne(FirstScalar(b).value) <= b
  {
    hide FirstOfTwo, FirstOfThree, FirstOfFour, EncodeOne;
    if b[0] < 0x80 { OneEncodes(b); }
    else if b[0] < 0xE0 { TwoEncodes(b); }
    else if b[0] < 0xF0 { ThreeEncodes(b); }
    else { FourEncodes(b); }
  }

  lemma OneEncodes(b: Bytes)
    requires |b| >= 1 && b[0] < 0x80
    ensures EncodeOne(b[0]) <= b
  {
  }

  lemma TwoEncodes(b: Bytes)
    requires FirstOfTwo(b).Some?
    ensures EncodeOne(FirstOfTwo(b).value) <= b
  {
    Digits2(At(b, 0) - 0xC0, At(b, 1) - 0x80);
  }

  lemma ThreeEncodes(b: Bytes)
    requires FirstOfThree(b).Some?
    ensures EncodeOne(FirstOfThree(b).value) <= b
  {
    Digits3(At(b, 0) - 0xE0, At(b, 1) - 0x80, At(b, 2) - 0x80);
  }

  lemma FourEncodes(b: Bytes)
    requires FirstOfFour(b).Some?
    ensures EncodeOne(FirstOfFour(b).value) <= b
  {
    Digits4(At(b, 0) - 0xF0, At(b, 1) - 0x80, At(b, 2) - 0x80, At(b, 3) - 0x80);
  }

  lemma EncodeOneDecodes(c: Scalar, rest: Bytes)
    ensures FirstScalar(EncodeOne(c) + rest) == Some(c)
  {
    hide FirstOfTwo, FirstOfThree, FirstOfFour;
    if c < 0x80 { assert (EncodeOne(c) + rest)[0] == c; }
    else if c < 0x800 { TwoDecodes(c, rest); }
    else if c < 0x10000 { ThreeDecodes(c, rest); }
    else { FourDecodes(c, rest); }
  }

  lemma TwoDecodes(c: Scalar, rest: Bytes)
    requires 0x80 <= c < 0x800
    ensures var b := EncodeOne(c) + rest; 0x80 <= b[0] < 0xE0 && FirstOfTwo(b) == Some(c)
  {
    var b := EncodeOne(c) + rest;
    assert b[0] == 0xC0 + c / 64 && b[1] == 0x80 + c % 64;
  }

  lemma ThreeDecodes(c: Scalar, rest: Bytes)
    requires 0x800 <= c < 0x10000
    ensures var b := EncodeOne(c) + rest; 0xE0 <= b[0] < 0xF0 && FirstOfThree(b) == Some(c)
  {
    var b := EncodeOne(c) + rest;
    var h, m, l := c / 4096, c / 64 % 64, c % 64;
    Weigh3(c);
    assert b[0] == 0xE0 + h && b[1] == 0x80 + m && b[2] == 0x80 + l;
  }

  lemma FourDecodes(c: Scalar, rest: Bytes)
    requires 0x10000 <= c
    ensures var b := EncodeOne(c) + rest; 0xF0 <= b[0] && FirstOfFour(b) == Some(c)
  {
    var b := EncodeOne(c) + rest;
    var h, k, m, l := c / 262144, c / 4096 % 64, c / 64 % 64, c % 64;
    Weigh4(c);
    assert b[0] == 0xF0 + h && b[1] == 0x80 + k && b[2] == 0x80 + m && b[3] == 0x80 + l;
  }

  lemma Weigh3(c: nat)
    ensures c == c / 4096 * 4096 + c / 64 % 64 * 64 + c % 64
  {
    assert c / 64 / 64 == c / 4096;
  }

  lemma Weigh4(c: nat)
    ensures c == c / 262144 * 262144 + c / 4096 % 64 * 4096 + c / 64 % 64 * 64 + c % 64
  {
    Weigh3(c);
    assert c / 4096 / 64 == c / 262144;
  }

  /** utf8.Valid. */
  predicate ValidUtf8(b: Bytes)
    decreases |b|
  {
    b == [] || (FirstScalar(b).Some? && |EncodeOne(FirstScalar(b).value)| <= |b| && ValidUtf8(b[|EncodeOne(FirstScalar(b).value)|..]))
  }

  function Decode(b: Bytes): (s: Text)
    requires ValidUtf8(b)
    ensures Encode(s) == b
    decreases |b|
  {
    if b == [] then []
    else
      var c := FirstScalar(b).value;
      FirstScalarEncodes(b);
      var rest := Decode(b[|EncodeOne(c)|..]);
      assert ([c] + rest)[1..] == rest;
      [c] + rest
  }

  /** What is encoded is valid, and nothing else is. */
  lemma {:induction false} EncodeIsValid(s: Text)
    ensures ValidUtf8(Encode(s)) && Decode(Encode(s)) == s
  {
    hide FirstScalar, EncodeOne;
    if s != [] {
      EncodeIsValid(s[1..]);
      EncodeOneDecodes(s[0], Encode(s[1..]));
      var e := EncodeOne(s[0]);
      assert Encode(s)[|e|..] == Encode(s[1..]);
      assert Decode(Encode(s)) == [s[0]] + Decode(Encode(s[1..]));
    }
  }

  lemma {:induction false} EncodeAppend(a: Text, b: Text)
    ensures Encode(a + b) == Encode(a) + Encode(b)
  {
    hide EncodeOne;
    if a == [] {
      assert a + b == b;
    } else {
      EncodeAppend(a[1..], b);
      assert (a + b)[1..] == a[1..] + b;
    }
  }

  lemma OneScalar(c: Scalar)
    ensures Encode([c]) == EncodeOne(c)
  {
    assert [c][1..] == [];
  }

  /** The bytes of one scalar: a start followed by continuations. */
  lemma ScalarShape(c: Scalar)
    ensures var e := EncodeOne(c); RuneStart(e[0]) && forall i :: 1 <= i < |e| ==> Continues(e[i])
  {
  }

  /** A valid text may be cut before any byte that starts a scalar. */
  lemma {:induction false} CutIsValid(b: Bytes, end: nat)
    requires ValidUtf8(b) && end <= |b| && (end < |b| ==> RuneStart(b[end]))
    ensures ValidUtf8(b[..end]) && ValidUtf8(b[end..])
    decreases |b|
  {
    hide FirstScalar, EncodeOne, Continues;
    if end == 0 {
      assert b[0..] == b;
    } else {
      var c := FirstScalar(b).value;
      var w := |EncodeOne(c)|;
      FirstScalarEncodes(b);
      ScalarShape(c);
      assert forall i :: 0 <= i < w ==> b[i] == EncodeOne(c)[i];
      CutIsValid(b[w..], end - w);
      assert b[..end][w..] == b[w..][..end - w] && b[w..][end - w..] == b[end..];
      EncodeOneDecodes(c, b[..end][w..]);
      assert b[..end] == EncodeOne(c) + b[..end][w..];
    }
  }

  /** A start is never more than three bytes back. */
  lemma {:induction false} StartIsNear(b: Bytes, p: nat) returns (q: nat)
    requires ValidUtf8(b) && p < |b|
    ensures q <= p <= q + 3 && RuneStart(b[q])
    decreases |b|
  {
    hide FirstScalar;
    var c := FirstScalar(b).value;
    var w := |EncodeOne(c)|;
    FirstScalarEncodes(b);
    ScalarShape(c);
    assert b[0] == EncodeOne(c)[0];
    if p < w {
      q := 0;
    } else {
      q := StartIsNear(b[w..], p - w);
      q := q + w;
    }
  }

  lemma ValidBeginsWithStart(b: Bytes)
    requires ValidUtf8(b) && b != []
    ensures RuneStart(b[0])
  {
  }

  /** What follows an ASCII byte starts a scalar. */
  lemma AfterAscii(b: Bytes, k: nat)
    requires ValidUtf8(b) && k < |b| && b[k] < 0x80
    ensures k + 1 < |b| ==> RuneStart(b[k + 1])
  {
    CutIsValid(b, k);
    var rest := b[k..];
    assert rest[0] == b[k];
    assert FirstScalar(rest) == Some(b[k]) && |EncodeOne(b[k])| == 1;
    if k + 1 < |b| { ValidBeginsWithStart(rest[1..]); }
  }

  // ------------------------------------------------------------------- UTF-16

  datatype Order = LittleEndian | BigEndian

  type Unit = x: int | 0 <= x < 0x10000

  function Mark(order: Order): Bytes { if order.LittleEndian? then [0xFF, 0xFE] else [0xFE, 0xFF] }

  function UnitBytes(u: Unit, order: Order): Bytes { if order.LittleEndian? then [u % 256, u / 256] else [u / 256, u % 256] }

  function UnitAt(b: Bytes, offset: nat, order: Order): Unit
    requires offset + 1 < |b|
  {
    if order.LittleEndian? then At(b, offset) + 256 * At(b, offset + 1) else 256 * At(b, offset) + At(b, offset + 1)
  }

  /** Section 2.1 of RFC 2781. */
  function ScalarUnits(c: Scalar): (r: seq<Unit>)
    ensures 1 <= |r| <= 2
  {
    if c < 0x10000 then [c] else [0xD800 + (c - 0x10000) / 1024, 0xDC00 + (c - 0x10000) % 1024]
  }

  function Utf16(s: Text, order: Order): Bytes {
    if s == [] then []
    else
      var u := ScalarUnits(s[0]);
      UnitBytes(u[0], order) + (if |u| == 2 then UnitBytes(u[1], order) else []) + Utf16(s[1..], order)
  }

  predicate Surrogate(u: Unit) { 0xD800 <= u < 0xE000 }

  /** The scalar at an offset and the bytes it takes (section 2.2 of RFC 2781), or nothing when a surrogate is not
      half of a pair. */
  function ScalarAt(b: Bytes, offset: nat, order: Order): Option<(Scalar, nat)>
    requires offset + 1 < |b|
  {
    var unit := UnitAt(b, offset, order);
    if !Surrogate(unit) then Some((unit, 2))
    else if unit > 0xDBFF || offset + 3 >= |b| then None
    else
      var next := UnitAt(b, offset + 2, order);
      if next < 0xDC00 || next > 0xDFFF then None
      else Some((0x10000 + (unit - 0xD800) * 1024 + (next - 0xDC00), 4))
  }

  /** All scalars from an offset on. */
  function ScalarsFrom(b: Bytes, offset: nat, order: Order): Option<Text>
    requires |b| % 2 == 0 && offset % 2 == 0 && offset <= |b|
    decreases |b| - offset
  {
    if offset == |b| then Some([])
    else
      match ScalarAt(b, offset, order)
      case None => None
      case Some((c, width)) =>
        match ScalarsFrom(b, offset + width, order)
        case None => None
        case Some(rest) => Some([c] + rest)
  }

  lemma ScalarAtReads(before: Bytes, c: Scalar, after: Bytes, order: Order)
    ensures var u := ScalarUnits(c);
            var middle := UnitBytes(u[0], order) + if |u| == 2 then UnitBytes(u[1], order) else [];
            ScalarAt(before + middle + after, |before|, order) == Some((c, |middle|))
  {
    var u := ScalarUnits(c);
    var middle := UnitBytes(u[0], order) + if |u| == 2 then UnitBytes(u[1], order) else [];
    var all := before + middle + after;
    assert forall i :: 0 <= i < |middle| ==> all[|before| + i] == middle[i];
    assert UnitAt(all, |before|, order) == u[0];
    if |u| == 2 { assert UnitAt(all, |before| + 2, order) == u[1]; }
  }

  /** Reading what was written in either byte order gives the scalars back. */
  lemma {:induction false} Utf16RoundTrip(before: Bytes, s: Text, order: Order)
    requires |before| % 2 == 0
    ensures |Utf16(s, order)| % 2 == 0
    ensures ScalarsFrom(before + Utf16(s, order), |before|, order) == Some(s)
    decreases |s|
  {
    hide ScalarUnits, UnitBytes, ScalarAt;
    if s == [] {
      assert before + [] == before;
    } else {
      var u := ScalarUnits(s[0]);
      var middle := UnitBytes(u[0], order) + if |u| == 2 then UnitBytes(u[1], order) else [];
      MiddleSize(s[0], order);
      Utf16RoundTrip(before + middle, s[1..], order);
      assert before + Utf16(s, order) == before + middle + Utf16(s[1..], order);
      ScalarAtReads(before, s[0], Utf16(s[1..], order), order);
      assert [s[0]] + s[1..] == s;
    }
  }

  lemma MiddleSize(c: Scalar, order: Order)
    ensures var u := ScalarUnits(c);
            (|UnitBytes(u[0], order) + if |u| == 2 then UnitBytes(u[1], order) else []|) in {2, 4}
  {
  }
}
