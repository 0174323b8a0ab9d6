/** UTF-16 text and its UTF-8 encoding (section 3 of RFC 3629), lone surrogates included. */
module Utf8 {
  import opened EventJournal

  newtype Unit = i: int | 0 <= i < 0x1_0000
  newtype Byte = i: int | 0 <= i < 0x100

  type Text = seq<Unit>
  type Bytes = seq<Byte>

  predicate IsHighSurrogate(u: Unit) { 0xd800 <= u <= 0xdbff }
  predicate IsLowSurrogate(u: Unit) { 0xdc00 <= u <= 0xdfff }

  /** A surrogate pair straddles the boundary between `a` and `b`. */
  predicate Straddles(a: Text, b: Text) {
    |a| > 0 && |b| > 0 && IsHighSurrogate(a[|a| - 1]) && IsLowSurrogate(b[0])
  }

  /** The code point of a surrogate pair. */
  function PairPoint(high: Unit, low: Unit): (point: int)
    requires IsHighSurrogate(high) && IsLowSurrogate(low)
    ensures 0x1_0000 <= point < 0x11_0000
  {
    0x1_0000 + (high as int - 0xd800) * 0x400 + (low as int - 0xdc00)
  }

  /** One to four bytes for one scalar value. */
  function EncodePoint(point: int): (bytes: Bytes)
    requires 0 <= point < 0x11_0000
    ensures 1 <= |bytes| <= 4
  {
    if point < 0x80 then [point as Byte]
    else if point < 0x800 then [(0xc0 + point / 0x40) as Byte, (0x80 + point % 0x40) as Byte]
    else if point < 0x1_0000 then
      [(0xe0 + point / 0x1000) as Byte, (0x80 + point / 0x40 % 0x40) as Byte, (0x80 + point % 0x40) as Byte]
    else
      [(0xf0 + point / 0x4_0000) as Byte, (0x80 + point / 0x1000 % 0x40) as Byte,
       (0x80 + point / 0x40 % 0x40) as Byte, (0x80 + point % 0x40) as Byte]
  }

  const REPLACEMENT := 0xfffd

  /** The encoder: pairs become one scalar value, a lone surrogate the replacement character. */
  function Encode(text: Text): Bytes {
    if text == [] then []
    else if |text| > 1 && IsHighSurrogate(text[0]) && IsLowSurrogate(text[1]) then
      EncodePoint(PairPoint(text[0], text[1])) + Encode(text[2..])
    else if IsHighSurrogate(text[0]) || IsLowSurrogate(text[0]) then EncodePoint(REPLACEMENT) + Encode(text[1..])
    else EncodePoint(text[0] as int) + Encode(text[1..])
  }

  // ---------- The decoder of section 4 of RFC 3629 ----------

  predicate IsScalar(point: int) {
    0 <= point < 0xd800 || 0xe000 <= point < 0x11_0000
  }

  predicate InRange(bytes: Bytes, i: nat, low: int, high: int) {
    i < |bytes| && low <= bytes[i] as int <= high
  }

  predicate IsTail(bytes: Bytes, i: nat) {
    InRange(bytes, i, 0x80, 0xbf)
  }

  /** How many bytes the sequence at the front takes by the table of byte ranges; zero where it is none. */
  function SequenceLength(bytes: Bytes): (n: nat)
    ensures n <= |bytes| && n <= 4
  {
    if InRange(bytes, 0, 0x00, 0x7f) then 1
    else if InRange(bytes, 0, 0xc2, 0xdf) && IsTail(bytes, 1) then 2
    else if && IsTail(bytes, 2)
            && (|| (InRange(bytes, 0, 0xe0, 0xe0) && InRange(bytes, 1, 0xa0, 0xbf))
                || (InRange(bytes, 0, 0xe1, 0xec) && IsTail(bytes, 1))
                || (InRange(bytes, 0, 0xed, 0xed) && InRange(bytes, 1, 0x80, 0x9f))
                || (InRange(bytes, 0, 0xee, 0xef) && IsTail(bytes, 1))) then 3
    else if && IsTail(bytes, 2) && IsTail(bytes, 3)
            && (|| (InRange(bytes, 0, 0xf0, 0xf0) && InRange(bytes, 1, 0x90, 0xbf))
                || (InRange(bytes, 0, 0xf1, 0xf3) && IsTail(bytes, 1))
                || (InRange(bytes, 0, 0xf4, 0xf4) && InRange(bytes, 1, 0x80, 0x8f))) then 4
    else 0
  }

  /** The bits of the lead byte, then six of each continuation byte. */
  function SequencePoint(bytes: Bytes): int
    requires SequenceLength(bytes) > 0
  {
    match SequenceLength(bytes)
    case 1 => bytes[0] as int
    case 2 => bytes[0] as int % 0x20 * 0x40 + bytes[1] as int % 0x40
    case 3 => (bytes[0] as int % 0x10 * 0x40 + bytes[1] as int % 0x40) * 0x40 + bytes[2] as int % 0x40
    case _ =>
      ((bytes[0] as int % 0x08 * 0x40 + bytes[1] as int % 0x40) * 0x40 + bytes[2] as int % 0x40) * 0x40
      + bytes[3] as int % 0x40
  }

  /** The scalar values of well-formed bytes; `None` where no sequence starts. */
  function Decode(bytes: Bytes): Option<seq<int>> {
    if bytes == [] then Some([])
    else if SequenceLength(bytes) == 0 then None
    else
      var rest := Decode(bytes[SequenceLength(bytes)..]);
      if rest.None? then None else Some([SequencePoint(bytes)] + rest.value)
  }

  /** The units of one scalar value (section 2.1 of RFC 2781). */
  function UnitsOf(point: int): Text
    requires IsScalar(point)
  {
    if point < 0x1_0000 then [point as Unit]
    else [(0xd800 + (point - 0x1_0000) / 0x400) as Unit, (0xdc00 + (point - 0x1_0000) % 0x400) as Unit]
  }

  function TextOf(points: seq<int>): Text
    requires forall p :: p in points ==> IsScalar(p)
  {
    if points == [] then [] else UnitsOf(points[0]) + TextOf(points[1..])
  }

  /** What the reader of the bytes sees: every lone surrogate as the replacement character. */
  function Repaired(text: Text): Text {
    if text == [] then []
    else if |text| > 1 && IsHighSurrogate(text[0]) && IsLowSurrogate(text[1]) then text[..2] + Repaired(text[2..])
    else [if IsHighSurrogate(text[0]) || IsLowSurrogate(text[0]) then 0xfffd else text[0]] + Repaired(text[1..])
  }

  /** A sequence stands for a scalar value exactly when it is what the encoder writes for it: no overlong form, no
    * surrogate. */
  lemma SequenceExactly(bytes: Bytes, point: int)
    ensures SequenceLength(bytes) > 0 && SequencePoint(bytes) == point <==>
            IsScalar(point) && EncodePoint(point) <= bytes
    ensures IsScalar(point) && EncodePoint(point) <= bytes ==> SequenceLength(bytes) == |EncodePoint(point)|
  {
    hide SequenceLength, SequencePoint, EncodePoint;
    if SequenceLength(bytes) > 0 && SequencePoint(bytes) == point {
      ReadIsWritten(bytes);
    }
    if IsScalar(point) && EncodePoint(point) <= bytes {
      WrittenIsRead(bytes, point);
    }
  }

  /** Base-64 digits: dividing by a power of 64 is dividing by 64 again and again. */
  lemma Digits(point: nat)
    ensures point / 0x1000 == point / 0x40 / 0x40 && point / 0x4_0000 == point / 0x40 / 0x40 / 0x40
  {
  }

  lemma Digit(high: nat, low: nat)
    requires low < 0x40
    ensures (high * 0x40 + low) / 0x40 == high && (high * 0x40 + low) % 0x40 == low
  {
  }

  lemma ReadIsWritten(bytes: Bytes)
    requires SequenceLength(bytes) > 0
    ensures IsScalar(SequencePoint(bytes)) && EncodePoint(SequencePoint(bytes)) == bytes[..SequenceLength(bytes)]
  {
    match SequenceLength(bytes)
    case 1 =>
    case 2 => ReadTwo(bytes);
    case 3 => ReadThree(bytes);
    case _ => ReadFour(bytes);
  }

  lemma ReadTwo(bytes: Bytes)
    requires SequenceLength(bytes) == 2
    ensures IsScalar(SequencePoint(bytes)) && EncodePoint(SequencePoint(bytes)) == bytes[..2]
  {
    Digit(bytes[0] as int % 0x20, bytes[1] as int % 0x40);
  }

  lemma ReadThree(bytes: Bytes)
    requires SequenceLength(bytes) == 3
    ensures IsScalar(SequencePoint(bytes)) && EncodePoint(SequencePoint(bytes)) == bytes[..3]
  {
    var a, b, c := bytes[0] as int % 0x10, bytes[1] as int % 0x40, bytes[2] as int % 0x40;
    Digit(a, b);
    Digit(a * 0x40 + b, c);
    Digits(SequencePoint(bytes));
  }

  lemma ReadFour(bytes: Bytes)
    requires SequenceLength(bytes) == 4
    ensures IsScalar(SequencePoint(bytes)) && EncodePoint(SequencePoint(bytes)) == bytes[..4]
  {
    var a, b, c := bytes[0] as int % 0x08, bytes[1] as int % 0x40, bytes[2] as int % 0x40;
    Digit(a, b);
    Digit(a * 0x40 + b, c);
    Digit((a * 0x40 + b) * 0x40 + c, bytes[3] as int % 0x40);
    Digits(SequencePoint(bytes));
  }

  lemma WrittenIsRead(bytes: Bytes, point: int)
    requires IsScalar(point) && EncodePoint(point) <= bytes
    ensures SequenceLength(bytes) == |EncodePoint(point)| && SequencePoint(bytes) == point
  {
    Digits(point);
    if point < 0x80 {
    } else if point < 0x800 {
    } else if point < 0x1_0000 {
      WrittenThree(bytes, point);
    } else {
      WrittenFour(bytes, point);
    }
  }

  lemma WrittenThree(bytes: Bytes, point: int)
    requires 0x800 <= point < 0x1_0000 && IsScalar(point) && EncodePoint(point) <= bytes
    ensures SequenceLength(bytes) == 3 && SequencePoint(bytes) == point
  {
    Digits(point);
  }

  lemma WrittenFour(bytes: Bytes, point: int)
    requires 0x1_0000 <= point < 0x11_0000 && EncodePoint(point) <= bytes
    ensures SequenceLength(bytes) == 4 && SequencePoint(bytes) == point
  {
    Digits(point);
  }

  lemma PairBack(high: Unit, low: Unit)
    requires IsHighSurrogate(high) && IsLowSurrogate(low)
    ensures UnitsOf(PairPoint(high, low)) == [high, low]
  {
  }

  /** What is written can be read: the decoder finds in the bytes of a text that text, its lone surrogates
    * replaced. */
  lemma {:induction false} DecodeEncode(text: Text)
    ensures Decode(Encode(text)).Some?
    ensures forall p :: p in Decode(Encode(text)).value ==> IsScalar(p)
    ensures TextOf(Decode(Encode(text)).value) == Repaired(text)
  {
    if text != [] {
      var pair := |text| > 1 && IsHighSurrogate(text[0]) && IsLowSurrogate(text[1]);
      var rest := if pair then text[2..] else text[1..];
      var point := if pair then PairPoint(text[0], text[1])
                   else if IsHighSurrogate(text[0]) || IsLowSurrogate(text[0]) then REPLACEMENT else text[0] as int;
      if pair {
        PairBack(text[0], text[1]);
      }
      PointFirst(point, Encode(rest));
      DecodeEncode(rest);
      var points := Decode(Encode(rest)).value;
      assert ([point] + points)[1..] == points;
    }
  }

  lemma PointFirst(point: int, rest: Bytes)
    requires IsScalar(point)
    ensures Decode(EncodePoint(point) + rest) ==
            if Decode(rest).None? then None else Some([point] + Decode(rest).value)
  {
    var bytes := EncodePoint(point) + rest;
    SequenceExactly(bytes, point);
    assert bytes[|EncodePoint(point)|..] == rest;
  }

  /** Encoding is compositional wherever no surrogate pair is cut. */
  lemma {:induction false} EncodeConcat(a: Text, b: Text)
    requires !Straddles(a, b)
    ensures Encode(a + b) == Encode(a) + Encode(b)
  {
    if a == [] {
      assert a + b == b;
    } else {
      var pair := |a| > 1 && IsHighSurrogate(a[0]) && IsLowSurrogate(a[1]);
      var n := if pair then 2 else 1;
      assert (a + b)[n..] == a[n..] + b;
      assert (a + b)[0] == a[0];
      if |a| > 1 {
        assert (a + b)[1] == a[1];
      }
      EncodeConcat(a[n..], b);
    }
  }

  /** Cutting a pair is not harmless: both halves would be replaced. */
  lemma StraddlingDiffers(high: Unit, low: Unit)
    requires IsHighSurrogate(high) && IsLowSurrogate(low)
    ensures Encode([high] + [low]) != Encode([high]) + Encode([low])
  {
    assert Encode([high]) == EncodePoint(REPLACEMENT) + [];
    assert Encode([low]) == EncodePoint(REPLACEMENT) + [];
    assert |Encode([high, low])| == 4 by {
      assert [high, low][2..] == [];
    }
    assert [high] + [low] == [high, low];
  }
}
