/** Which internet addresses a capsule may read from: textual addresses, their numeric values and the verdict. */
module EgressAddresses {
  import opened EventJournal
  import opened Cost
  import opened CostRender
  import opened TextSplit

  // ---------- Digits ----------

  predicate IsLowerHex(c: char) { IsDigit(c) || 'a' <= c <= 'f' }

  predicate IsHex(c: char) { IsLowerHex(c) || 'A' <= c <= 'F' }

  function Lower(c: char): char {
    if 'A' <= c <= 'Z' then 'a' + (c - 'A') else c
  }

  function ToLower(s: string): (r: string)
    ensures |r| == |s|
  {
    seq(|s|, i requires 0 <= i < |s| => Lower(s[i]))
  }

  function HexDigit(c: char): (d: nat)
    requires IsHex(c)
    ensures d < 16
  {
    if IsDigit(c) then (c - '0') as int
    else if IsLowerHex(c) then 10 + (c - 'a') as int
    else 10 + (c - 'A') as int
  }

  predicate IsHexText(s: string) {
    forall i :: 0 <= i < |s| ==> IsHex(s[i])
  }

  function HexValue(s: string): nat
    requires IsHexText(s)
  {
    if s == "" then 0 else HexValue(s[..|s| - 1]) * 16 + HexDigit(s[|s| - 1])
  }

  function Pow2(n: nat): (p: nat)
    ensures p >= 1
  {
    if n == 0 then 1 else 2 * Pow2(n - 1)
  }

  // ---------- Dotted quads ----------

  /** The base-`b` number whose digits are `digits`: the left fold that shifts and adds. */
  function Positional(digits: seq<nat>, b: nat): nat {
    if digits == [] then 0 else Positional(digits[..|digits| - 1], b) * b + digits[|digits| - 1]
  }

  /** A decimal octet: no sign, no leading zero, below 256. */
  predicate IsOctet(s: string) {
    s != "" && IsDigits(s) && (s[0] == '0' ==> |s| == 1) && NatOf(s) < 256
  }

  predicate IsIpv4(text: string) {
    var parts := SplitOn(text, '.');
    |parts| == 4 && forall k :: 0 <= k < |parts| ==> IsOctet(parts[k])
  }

  /** The value of a dotted text; `None` where a part is no number. */
  function Ipv4Value(text: string): Option<nat> {
    var parts := SplitOn(text, '.');
    if forall k :: 0 <= k < |parts| ==> IsOctet(parts[k]) then
      Some(Positional(seq(|parts|, k requires 0 <= k < |parts| => NatOf(parts[k])), 256))
    else None
  }

  function Octets(value: nat): (octets: seq<nat>)
    ensures |octets| == 4 && forall k :: 0 <= k < 4 ==> octets[k] < 256
  {
    [value / 0x1000000 % 256, value / 0x10000 % 256, value / 0x100 % 256, value % 256]
  }

  function QuadText(octets: seq<nat>): string {
    Join(seq(|octets|, k requires 0 <= k < |octets| => Digits(octets[k])), '.')
  }

  function Ipv4FromValue(value: nat): string {
    QuadText(Octets(value))
  }

  lemma OctetsOfValue(value: nat)
    requires value < 0x1_0000_0000
    ensures Positional(Octets(value), 256) == value
  {
    var a, b, c := value / 0x100, value / 0x1_0000, value / 0x100_0000;
    assert b == a / 256 && c == b / 256 && c < 256;
    assert value == a * 256 + value % 256 && a == b * 256 + a % 256 && b == c * 256 + b % 256;
    Unfold4(Octets(value), 256);
  }

  lemma Unfold4(d: seq<nat>, b: nat)
    requires |d| == 4
    ensures Positional(d, b) == ((d[0] * b + d[1]) * b + d[2]) * b + d[3]
  {
    assert d[..4] == d && d[..4][..3] == d[..3] && d[..3][..2] == d[..2] && d[..2][..1] == d[..1] && d[..1][..0] == [];
    assert Positional(d[..1], b) == d[0];
    assert Positional(d[..2], b) == d[0] * b + d[1];
    assert Positional(d[..3], b) == (d[0] * b + d[1]) * b + d[2];
  }

  lemma ValueOfOctets(octets: seq<nat>)
    requires |octets| == 4 && forall k :: 0 <= k < 4 ==> octets[k] < 256
    ensures Positional(octets, 256) < 0x1_0000_0000 && Octets(Positional(octets, 256)) == octets
  {
    Unfold4(octets, 256);
    FourOctets(octets[0], octets[1], octets[2], octets[3]);
  }

  lemma FourOctets(a: nat, b: nat, c: nat, d: nat)
    requires a < 256 && b < 256 && c < 256 && d < 256
    ensures var v := ((a * 256 + b) * 256 + c) * 256 + d;
      v / 0x1000000 % 256 == a && v / 0x10000 % 256 == b && v / 0x100 % 256 == c && v % 256 == d
  {
    var v := ((a * 256 + b) * 256 + c) * 256 + d;
    assert v / 0x100 == (a * 256 + b) * 256 + c;
    assert v / 0x10000 == a * 256 + b;
    assert v / 0x1000000 == a;
  }

  /** Printing a number gives no leading zero, and reading digits without one gives them back. */
  lemma {:induction false} DigitsCanonical(m: nat)
    ensures m > 0 ==> Digits(m)[0] != '0'
    ensures m == 0 ==> Digits(m) == "0"
  {
    if m >= 10 {
      DigitsCanonical(m / 10);
    }
  }

  lemma {:induction false} DigitsOfValue(s: string)
    requires s != "" && IsDigits(s) && (s[0] == '0' ==> |s| == 1)
    ensures Digits(NatOf(s)) == s
    ensures s[0] != '0' ==> NatOf(s) > 0
  {
    var front := s[..|s| - 1];
    if |s| == 1 {
      assert NatOf(front) == 0;
    } else {
      DigitsOfValue(front);
      assert front[0] == s[0];
      assert front + [s[|s| - 1]] == s;
    }
  }

  lemma DigitsOctet(octet: nat)
    requires octet < 256
    ensures IsOctet(Digits(octet)) && NatOf(Digits(octet)) == octet && Without(Digits(octet), '.')
    ensures Without(Digits(octet), ':')
  {
    DigitsValue(octet);
    DigitsCanonical(octet);
    assert forall i :: 0 <= i < |Digits(octet)| ==> IsDigit(Digits(octet)[i]);
  }

  /** Splitting the text of four octets. */
  lemma QuadTextSplits(octets: seq<nat>)
    requires |octets| == 4 && forall k :: 0 <= k < 4 ==> octets[k] < 256
    ensures IsIpv4(QuadText(octets)) && Ipv4Value(QuadText(octets)) == Some(Positional(octets, 256))
  {
    var texts := seq(4, k requires 0 <= k < 4 => Digits(octets[k]));
    forall k | 0 <= k < 4
      ensures Without(texts[k], '.') && IsOctet(texts[k]) && NatOf(texts[k]) == octets[k]
    {
      DigitsOctet(octets[k]);
    }
    SplitJoin(texts, '.');
    assert QuadText(octets) == Join(texts, '.');
    assert seq(4, k requires 0 <= k < 4 => NatOf(texts[k])) == octets;
  }

  /** Text to value to text, on every address text; value to text to value, on every 32-bit value. */
  lemma Ipv4Inverse(text: string, value: nat)
    ensures IsIpv4(text) ==>
              && Ipv4Value(text).Some? && Ipv4Value(text).value < 0x1_0000_0000
              && Ipv4FromValue(Ipv4Value(text).value) == text
    ensures value < 0x1_0000_0000 ==> IsIpv4(Ipv4FromValue(value)) && Ipv4Value(Ipv4FromValue(value)) == Some(value)
  {
    if value < 0x1_0000_0000 {
      QuadTextSplits(Octets(value));
      OctetsOfValue(value);
    }
    if IsIpv4(text) {
      var parts := SplitOn(text, '.');
      var octets: seq<nat> := seq(4, k requires 0 <= k < 4 => NatOf(parts[k]));
      ValueOfOctets(octets);
      assert seq(|parts|, k requires 0 <= k < |parts| => NatOf(parts[k])) == octets;
      forall k | 0 <= k < 4 ensures Digits(octets[k]) == parts[k] {
        DigitsOfValue(parts[k]);
      }
      JoinSplit(text, '.');
      assert seq(4, k requires 0 <= k < 4 => Digits(octets[k])) == parts;
    }
  }

  // ---------- The textual forms of section 2.2 of RFC 4291 ----------

  /** One piece between colons: up to four hexadecimal digits in either case, or an embedded dotted quad. */
  datatype Piece = Hex(digits: string) | Quad(octets: seq<nat>)

  /** A form: pieces on the left, and possibly a gap of zero groups with pieces on the right. */
  datatype Form = Form(before: seq<Piece>, gap: bool, after: seq<Piece>)

  predicate PieceOk(p: Piece) {
    match p
    case Hex(digits) => 1 <= |digits| <= 4 && IsHexText(digits)
    case Quad(octets) => |octets| == 4 && forall k :: 0 <= k < 4 ==> octets[k] < 256
  }

  /** Every piece is written properly, and only the last one may be a quad. */
  predicate SideOk(side: seq<Piece>, quadLast: bool) {
    && (forall k :: 0 <= k < |side| ==> PieceOk(side[k]))
    && (forall k :: 0 <= k < |side| && side[k].Quad? ==> quadLast && k == |side| - 1)
  }

  function PieceGroups(p: Piece): (groups: seq<nat>)
    requires PieceOk(p)
  {
    match p
    case Hex(digits) => [HexValue(digits)]
    case Quad(octets) => [octets[0] * 256 + octets[1], octets[2] * 256 + octets[3]]
  }

  function SideGroups(side: seq<Piece>): seq<nat>
    requires forall k :: 0 <= k < |side| ==> PieceOk(side[k])
  {
    if side == [] then [] else SideGroups(side[..|side| - 1]) + PieceGroups(side[|side| - 1])
  }

  predicate FormOk(f: Form) {
    && SideOk(f.before, !f.gap) && SideOk(f.after, true)
    && (if f.gap then |SideGroups(f.before)| + |SideGroups(f.after)| < 8
        else f.after == [] && |SideGroups(f.before)| == 8)
  }

  function ZeroGroups(n: nat): seq<nat> {
    seq(n, _ => 0)
  }

  /** The eight groups a form stands for: the gap is as many zero groups as are missing. */
  function FormGroups(f: Form): (groups: seq<nat>)
    requires FormOk(f)
    ensures |groups| == 8
  {
    var before, after := SideGroups(f.before), SideGroups(f.after);
    before + ZeroGroups(8 - |before| - |after|) + after
  }

  function PieceText(p: Piece): string {
    match p
    case Hex(digits) => digits
    case Quad(octets) => QuadText(octets)
  }

  function SideText(side: seq<Piece>): string {
    Join(seq(|side|, k requires 0 <= k < |side| => PieceText(side[k])), ':')
  }

  function FormText(f: Form): string {
    if f.gap then SideText(f.before) + "::" + SideText(f.after) else SideText(f.before)
  }

  ghost predicate IsIpv6(text: string) {
    exists f :: FormOk(f) && FormText(f) == text
  }

  // ---------- The value of an IPv6 text ----------

  /** The groups one piece contributes; `None` where it is no number. */
  function ParsePart(part: string): Option<seq<nat>> {
    if Without(part, '.') then
      if part != "" && IsHexText(part) then Some([HexValue(part)]) else None
    else
      var value := Ipv4Value(part);
      if value.None? then None else Some([value.value / 0x10000 % 0x10000, value.value % 0x10000])
  }

  function ParseParts(parts: seq<string>): Option<seq<nat>> {
    if parts == [] then Some([])
    else
      var front, last := ParseParts(parts[..|parts| - 1]), ParsePart(parts[|parts| - 1]);
      if front.None? || last.None? then None else Some(front.value + last.value)
  }

  function ParseSide(side: string): Option<seq<nat>> {
    if side == "" then Some([]) else ParseParts(SplitOn(side, ':'))
  }

  /** The part before the first double colon, and the part after it up to the next one. */
  function SplitGap(text: string): (string, string) {
    var i := Doubled(text, ':');
    if i == |text| then (text, "")
    else
      var rest := text[i + 2..];
      (text[..i], rest[..Doubled(rest, ':')])
  }

  /** The 128-bit value; `None` where the code throws. */
  function Ipv6Value(text: string): Option<nat> {
    var sides := SplitGap(ToLower(text));
    var before, after := ParseSide(sides.0), ParseSide(sides.1);
    if before.None? || after.None? then None
    else if Doubled(text, ':') < |text| then
      if |before.value| + |after.value| > 8 then None
      else Some(Positional(before.value + ZeroGroups(8 - |before.value| - |after.value|) + after.value, 0x10000))
    else if |before.value| == 8 then Some(Positional(before.value, 0x10000))
    else None
  }

  // ---------- Reading a form back ----------

  lemma {:induction false} HexLower(s: string)
    requires IsHexText(s)
    ensures IsHexText(ToLower(s)) && HexValue(ToLower(s)) == HexValue(s)
  {
    if s != "" {
      HexLower(s[..|s| - 1]);
      assert ToLower(s)[..|s| - 1] == ToLower(s[..|s| - 1]);
    }
  }

  lemma {:induction false} HexBound(s: string)
    requires IsHexText(s)
    ensures HexValue(s) < Pow2(4 * |s|)
  {
    if s != "" {
      HexBound(s[..|s| - 1]);
      Sixteenfold(4 * |s| - 4);
    }
  }

  lemma Sixteenfold(n: nat)
    ensures Pow2(n + 4) == 16 * Pow2(n)
  {
    assert Pow2(n + 4) == 2 * Pow2(n + 3) && Pow2(n + 3) == 2 * Pow2(n + 2);
    assert Pow2(n + 2) == 2 * Pow2(n + 1) && Pow2(n + 1) == 2 * Pow2(n);
  }

  lemma GroupBound(s: string)
    requires IsHexText(s) && |s| <= 4
    ensures HexValue(s) < 0x10000
  {
    HexBound(s);
    Sixteenfold(0);
    Sixteenfold(4);
    Sixteenfold(8);
    Sixteenfold(12);
  }

  lemma PieceGroupsBounded(p: Piece)
    requires PieceOk(p)
    ensures |PieceGroups(p)| >= 1 && forall k :: 0 <= k < |PieceGroups(p)| ==> PieceGroups(p)[k] < 0x10000
  {
    if p.Hex? {
      GroupBound(p.digits);
    }
  }

  lemma {:induction false} SideGroupsBounded(side: seq<Piece>)
    requires forall k :: 0 <= k < |side| ==> PieceOk(side[k])
    ensures forall k :: 0 <= k < |SideGroups(side)| ==> SideGroups(side)[k] < 0x10000
  {
    if side != [] {
      SideGroupsBounded(side[..|side| - 1]);
      PieceGroupsBounded(side[|side| - 1]);
    }
  }

  lemma FormGroupsBounded(f: Form)
    requires FormOk(f)
    ensures forall k :: 0 <= k < 8 ==> FormGroups(f)[k] < 0x10000
  {
    SideGroupsBounded(f.before);
    SideGroupsBounded(f.after);
  }

  function LowerPiece(p: Piece): Piece {
    match p
    case Hex(digits) => Hex(ToLower(digits))
    case Quad(_) => p
  }

  /** The text of one piece has no colon, is not empty, and reads back as its groups. */
  lemma PieceReads(p: Piece)
    requires PieceOk(p)
    ensures PieceText(p) != "" && Without(PieceText(p), ':')
    ensures ToLower(PieceText(p)) == PieceText(LowerPiece(p)) && PieceOk(LowerPiece(p))
    ensures ParsePart(PieceText(p)) == Some(PieceGroups(p))
    ensures PieceGroups(LowerPiece(p)) == PieceGroups(p)
  {
    match p
    case Hex(digits) =>
      HexLower(digits);
      assert forall i :: 0 <= i < |digits| ==> IsHex(digits[i]);
    case Quad(octets) =>
      QuadTextShape(octets);
      QuadTextSplits(octets);
      Unfold4(octets, 256);
  }

  lemma QuadTextShape(octets: seq<nat>)
    requires |octets| == 4 && forall k :: 0 <= k < 4 ==> octets[k] < 256
    ensures QuadText(octets) != "" && Without(QuadText(octets), ':') && !Without(QuadText(octets), '.')
    ensures ToLower(QuadText(octets)) == QuadText(octets)
  {
    var a, b, c, d := Digits(octets[0]), Digits(octets[1]), Digits(octets[2]), Digits(octets[3]);
    var texts := seq(4, k requires 0 <= k < 4 => Digits(octets[k]));
    assert texts == [a, b, c, d];
    assert seq(|octets|, k requires 0 <= k < |octets| => Digits(octets[k])) == texts;
    assert [c, d][1..] == [d] && Join([c, d], '.') == c + ['.'] + d;
    assert [b, c, d][1..] == [c, d] && Join([b, c, d], '.') == b + ['.'] + Join([c, d], '.');
    assert texts[1..] == [b, c, d] && Join(texts, '.') == a + ['.'] + Join([b, c, d], '.');
    var text := a + ['.'] + (b + ['.'] + (c + ['.'] + d));
    assert QuadText(octets) == text;
    assert text[|a|] == '.';
    assert forall i :: 0 <= i < |text| ==> IsDigit(text[i]) || text[i] == '.';
    assert forall i :: 0 <= i < |text| ==> Lower(text[i]) == text[i];
  }

  function Texts(side: seq<Piece>): (texts: seq<string>)
    ensures |texts| == |side|
  {
    seq(|side|, k requires 0 <= k < |side| => PieceText(side[k]))
  }

  lemma {:induction false} PartsRead(side: seq<Piece>)
    requires forall k :: 0 <= k < |side| ==> PieceOk(side[k])
    ensures ParseParts(Texts(side)) == Some(SideGroups(side))
  {
    if side != [] {
      var n := |side| - 1;
      PartsRead(side[..n]);
      PieceReads(side[n]);
      assert Texts(side)[..n] == Texts(side[..n]);
    }
  }

  lemma SideReads(side: seq<Piece>)
    requires forall k :: 0 <= k < |side| ==> PieceOk(side[k])
    ensures Smooth(SideText(side), ':') && (side == [] <==> SideText(side) == "")
    ensures side != [] ==> SideText(side)[0] != ':'
    ensures ParseSide(SideText(side)) == Some(SideGroups(side))
  {
    var texts := Texts(side);
    forall k | 0 <= k < |texts| ensures texts[k] != "" && Without(texts[k], ':') {
      PieceReads(side[k]);
    }
    JoinIsSmooth(texts, ':');
    PartsRead(side);
    if side != [] {
      SplitJoin(texts, ':');
    }
  }

  function LowerSide(side: seq<Piece>): (lower: seq<Piece>)
    ensures |lower| == |side|
  {
    seq(|side|, k requires 0 <= k < |side| => LowerPiece(side[k]))
  }

  lemma LowerConcat(a: string, b: string)
    ensures ToLower(a + b) == ToLower(a) + ToLower(b)
  {
  }

  lemma {:induction false} LowerJoin(side: seq<Piece>)
    requires forall k :: 0 <= k < |side| ==> PieceOk(side[k])
    ensures ToLower(SideText(side)) == SideText(LowerSide(side))
    ensures forall k :: 0 <= k < |side| ==> PieceOk(LowerSide(side)[k])
  {
    forall k | 0 <= k < |side| ensures PieceOk(LowerSide(side)[k]) {
      PieceReads(side[k]);
    }
    if side == [] {
    } else {
      PieceReads(side[0]);
      var rest := side[1..];
      LowerJoin(rest);
      assert Texts(side)[1..] == Texts(rest) && LowerSide(side)[1..] == LowerSide(rest);
      assert Texts(LowerSide(side))[1..] == Texts(LowerSide(rest));
      if |side| > 1 {
        LowerConcat(PieceText(side[0]) + [':'], SideText(rest));
        LowerConcat(PieceText(side[0]), [':']);
        assert ToLower([':']) == [':'];
      }
    }
  }

  lemma {:induction false} LowerKeepsGroups(side: seq<Piece>)
    requires forall k :: 0 <= k < |side| ==> PieceOk(side[k])
    ensures forall k :: 0 <= k < |side| ==> PieceOk(LowerSide(side)[k])
    ensures SideGroups(LowerSide(side)) == SideGroups(side)
  {
    forall k | 0 <= k < |side| ensures PieceOk(LowerSide(side)[k]) {
      PieceReads(side[k]);
    }
    if side != [] {
      var n := |side| - 1;
      LowerKeepsGroups(side[..n]);
      PieceReads(side[n]);
      assert LowerSide(side)[..n] == LowerSide(side[..n]);
    }
  }

  lemma SplitGapOf(a: string, b: string)
    requires Smooth(a, ':') && Smooth(b, ':')
    ensures SplitGap(a + "::" + b) == (a, b) && Doubled(a + "::" + b, ':') == |a|
    ensures SplitGap(a) == (a, "") && Doubled(a, ':') == |a|
  {
    DoubledBetween(a, b, ':');
    var text := a + [':', ':'] + b;
    assert text == a + "::" + b;
    assert text[..|a|] == a && text[|a| + 2..] == b;
    assert b[..Doubled(b, ':')] == b;
  }

  /** The two sides of a form, lower-cased, read back as the groups of the form. */
  lemma LowerSideReads(side: seq<Piece>)
    requires forall k :: 0 <= k < |side| ==> PieceOk(side[k])
    ensures Smooth(SideText(side), ':') && Smooth(ToLower(SideText(side)), ':')
    ensures ParseSide(ToLower(SideText(side))) == Some(SideGroups(side))
  {
    LowerJoin(side);
    LowerKeepsGroups(side);
    SideReads(LowerSide(side));
    SideReads(side);
  }

  lemma LowerGap(a: string, b: string)
    ensures ToLower(a + "::" + b) == ToLower(a) + "::" + ToLower(b)
  {
    assert ToLower("::") == "::";
    LowerConcat(a + "::", b);
    LowerConcat(a, "::");
  }

  /** Reading any textual form of an address gives the number its eight groups make up. */
  lemma FormReads(f: Form)
    requires FormOk(f)
    ensures Ipv6Value(FormText(f)) == Some(Positional(FormGroups(f), 0x10000))
  {
    hide SideText, SideGroups, ToLower, ParseSide, Smooth, SplitGap, Positional;
    var a, b := SideText(f.before), SideText(f.after);
    LowerSideReads(f.before);
    LowerSideReads(f.after);
    SplitGapOf(ToLower(a), ToLower(b));
    SplitGapOf(a, b);
    if f.gap {
      LowerGap(a, b);
    } else {
      NothingReads();
      assert FormGroups(f) == SideGroups(f.before) by { WholeForm(f); }
    }
  }

  lemma NothingReads()
    ensures ParseSide("") == Some([])
  {
  }

  lemma WholeForm(f: Form)
    requires FormOk(f) && !f.gap
    ensures FormGroups(f) == SideGroups(f.before)
  {
    assert FormGroups(f) == SideGroups(f.before) + ZeroGroups(0) + [];
  }

  // ---------- One address, one value ----------

  lemma {:induction false} PositionalBound(groups: seq<nat>)
    requires forall k :: 0 <= k < |groups| ==> groups[k] < 0x10000
    ensures Positional(groups, 0x10000) < Pow2(16 * |groups|)
  {
    if groups != [] {
      PositionalBound(groups[..|groups| - 1]);
      Groupfold(16 * |groups| - 16);
    }
  }

  lemma Groupfold(n: nat)
    ensures Pow2(n + 16) == 0x10000 * Pow2(n)
  {
    Sixteenfold(n);
    Sixteenfold(n + 4);
    Sixteenfold(n + 8);
    Sixteenfold(n + 12);
  }

  lemma {:induction false} PositionalInjective(g: seq<nat>, h: seq<nat>)
    requires |g| == |h| && Positional(g, 0x10000) == Positional(h, 0x10000)
    requires forall k :: 0 <= k < |g| ==> g[k] < 0x10000 && h[k] < 0x10000
    ensures g == h
  {
    if g != [] {
      var n := |g| - 1;
      PositionalInjective(g[..n], h[..n]);
      assert g == g[..n] + [g[n]] && h == h[..n] + [h[n]];
    }
  }

  /** Two textual forms, in whatever case, with whatever leading zeros, gaps and embedded quads, have the same
    * value exactly when they name the same address; and every value is below two to the 128th. */
  lemma OneAddressOneValue(f: Form, g: Form)
    requires FormOk(f) && FormOk(g)
    ensures Ipv6Value(FormText(f)).Some? && Ipv6Value(FormText(f)).value < Pow2(128)
    ensures Ipv6Value(FormText(f)) == Ipv6Value(FormText(g)) <==> FormGroups(f) == FormGroups(g)
  {
    hide Positional, FormText, FormGroups, Ipv6Value;
    FormReads(f);
    FormReads(g);
    FormGroupsBounded(f);
    FormGroupsBounded(g);
    PositionalBound(FormGroups(f));
    if Ipv6Value(FormText(f)) == Ipv6Value(FormText(g)) {
      PositionalInjective(FormGroups(f), FormGroups(g));
    }
  }

  // ---------- Subnets ----------

  /** Shifting right: division by a power of two. */
  function Shifted(value: nat, d: nat): nat
    requires d > 0
  {
    value / d
  }

  predicate InSubnet(value: nat, network: nat, prefix: nat, bits: nat)
    requires prefix <= bits
  {
    Shifted(value, Pow2(bits - prefix)) == Shifted(network, Pow2(bits - prefix))
  }

  /** The first address of a subnet: the network with its host bits cleared. */
  function First(network: nat, prefix: nat, bits: nat): int
    requires prefix <= bits
  {
    network - network % Pow2(bits - prefix)
  }

  lemma SameQuotient(value: nat, network: nat, d: nat)
    requires d > 0
    ensures value / d == network / d <==> network - network % d <= value < network - network % d + d
  {
    var q := network / d;
    assert network - network % d == q * d;
    if value / d == q {
      assert value == q * d + value % d;
    }
    if q * d <= value < q * d + d {
      QuotientIs(value, q, d);
    }
  }

  lemma QuotientIs(value: nat, q: nat, d: nat)
    requires d > 0 && q * d <= value < q * d + d
    ensures value / d == q
  {
    var r := value / d;
    assert value == r * d + value % d;
    if r < q {
      MulMono(r + 1, q, d);
    } else if r > q {
      MulMono(q + 1, r, d);
    }
  }

  /** A subnet is the numeric range of its prefix: as many addresses as there are host bits, from the first on. */
  lemma SubnetIsRange(value: nat, network: nat, prefix: nat, bits: nat)
    requires prefix <= bits
    ensures InSubnet(value, network, prefix, bits) <==>
            First(network, prefix, bits) <= value < First(network, prefix, bits) + Pow2(bits - prefix)
  {
    SameQuotient(value, network, Pow2(bits - prefix));
  }

  // ---------- The verdict ----------

  function Quadrant(a: nat, b: nat, c: nat, d: nat): nat {
    ((a * 256 + b) * 256 + c) * 256 + d
  }

  /** A network of the IPv4 table: its first three octets (the fourth is zero) and its prefix length. */
  datatype Network = Network(x: nat, y: nat, z: nat, prefix: nat)

  const IPV4_SPECIAL: seq<Network> := [
    Network(0, 0, 0, 8), Network(10, 0, 0, 8), Network(100, 64, 0, 10),
    Network(127, 0, 0, 8), Network(169, 254, 0, 16), Network(172, 16, 0, 12),
    Network(192, 0, 0, 24), Network(192, 0, 2, 24), Network(192, 31, 196, 24),
    Network(192, 52, 193, 24), Network(192, 88, 99, 24), Network(192, 168, 0, 16),
    Network(192, 175, 48, 24), Network(198, 18, 0, 15), Network(198, 51, 100, 24),
    Network(203, 0, 113, 24), Network(224, 0, 0, 4), Network(240, 0, 0, 4)]

  const MAPPED_NETWORK: nat := 0xffff_0000_0000

  /** A network of the IPv6 table: its first three groups (the others are zero) and its prefix length. */
  datatype Network6 = Network6(g0: nat, g1: nat, g2: nat, prefix: nat)

  const IPV6_SPECIAL: seq<Network6> := [
    Network6(0x64, 0xff9b, 0, 96), Network6(0x64, 0xff9b, 1, 48), Network6(0x100, 0, 0, 64),
    Network6(0x2001, 0, 0, 23), Network6(0x2001, 2, 0, 48), Network6(0x2001, 0xdb8, 0, 32),
    Network6(0x2002, 0, 0, 16), Network6(0x3fff, 0, 0, 20), Network6(0x5f00, 0, 0, 16),
    Network6(0xfc00, 0, 0, 7), Network6(0xfec0, 0, 0, 10), Network6(0xfe80, 0, 0, 10), Network6(0xff00, 0, 0, 8)]

  const GLOBAL_UNICAST := Network6(0x2000, 0, 0, 3)

  function NetworkValue(n: Network6): nat {
    Positional([n.g0, n.g1, n.g2, 0, 0, 0, 0, 0], 0x10000)
  }

  predicate InNetwork6(value: nat, n: Network6)
    requires n.prefix <= 128
  {
    InSubnet(value, NetworkValue(n), n.prefix, 128)
  }

  predicate InNetwork(value: nat, n: Network)
    requires n.prefix <= 32
  {
    InSubnet(value, Quadrant(n.x, n.y, n.z, 0), n.prefix, 32)
  }

  predicate Ipv4IsSpecial(value: nat) {
    exists k :: 0 <= k < |IPV4_SPECIAL| && InNetwork(value, IPV4_SPECIAL[k])
  }

  predicate Ipv6IsSpecial(value: nat) {
    exists k :: 0 <= k < |IPV6_SPECIAL| && InNetwork6(value, IPV6_SPECIAL[k])
  }

  predicate IsMapped(value: nat) {
    InSubnet(value, MAPPED_NETWORK, 96, 128)
  }

  predicate IsGlobalUnicast(value: nat) {
    InNetwork6(value, GLOBAL_UNICAST)
  }

  /** The verdict on a text: an address that is neither special nor, if it is an IPv6 one, outside global
    * unicast; an IPv4-mapped address is judged by the IPv4 address printed from its low half. */
  ghost predicate IsPublicAddress(text: string)
    decreases if IsIpv4(text) then 0 else 1
  {
    if IsIpv4(text) then
      Ipv4Inverse(text, 0);
      !Ipv4IsSpecial(Ipv4Value(text).value)
    else if IsIpv6(text) then
      ReadsSomething(text);
      var value := Ipv6Value(text).value;
      if IsMapped(value) then
        Ipv4Inverse("", value % 0x1_0000_0000);
        IsPublicAddress(Ipv4FromValue(value % 0x1_0000_0000))
      else IsGlobalUnicast(value) && !Ipv6IsSpecial(value)
    else false
  }

  lemma ReadsSomething(text: string)
    requires IsIpv6(text)
    ensures Ipv6Value(text).Some?
  {
    var f :| FormOk(f) && FormText(f) == text;
    FormReads(f);
  }

  lemma PowersOfTwo()
    ensures Pow2(0) == 1 && Pow2(8) == 0x100 && Pow2(9) == 0x200 && Pow2(12) == 0x1000 && Pow2(16) == 0x1_0000
    ensures Pow2(17) == 0x2_0000 && Pow2(20) == 0x10_0000 && Pow2(22) == 0x40_0000 && Pow2(24) == 0x100_0000
    ensures Pow2(25) == 0x200_0000
    ensures Pow2(28) == 0x1000_0000 && Pow2(29) == 0x2000_0000 && Pow2(32) == 0x1_0000_0000
  {
    Sixteenfold(0);
    Sixteenfold(4);
    Sixteenfold(8);
    Sixteenfold(12);
    Sixteenfold(16);
    Sixteenfold(20);
    Sixteenfold(24);
    Sixteenfold(28);
    assert Pow2(22) == 2 * Pow2(21) && Pow2(21) == 2 * Pow2(20);
  }

  /** The IPv4 addresses that are not public, as ranges of octets. */
  predicate SpecialQuad(a: nat, b: nat, c: nat) {
    || a in {0, 10, 127} || a >= 224
    || (a == 100 && 64 <= b < 128) || (a == 169 && b == 254) || (a == 172 && 16 <= b < 32)
    || (a == 192 && (b == 168 || (b == 0 && c in {0, 2}) || (b == 31 && c == 196) || (b == 52 && c == 193)
                     || (b == 88 && c == 99) || (b == 175 && c == 48)))
    || (a == 198 && (b in {18, 19} || (b == 51 && c == 100))) || (a == 203 && b == 0 && c == 113)
  }

  predicate SpecialRange(k: nat, a: nat, b: nat, c: nat) {
    match k
    case 0 => a == 0
    case 1 => a == 10
    case 2 => a == 100 && 64 <= b < 128
    case 3 => a == 127
    case 4 => a == 169 && b == 254
    case 5 => a == 172 && 16 <= b < 32
    case 6 => a == 192 && b == 0 && c == 0
    case 7 => a == 192 && b == 0 && c == 2
    case 8 => a == 192 && b == 31 && c == 196
    case 9 => a == 192 && b == 52 && c == 193
    case 10 => a == 192 && b == 88 && c == 99
    case 11 => a == 192 && b == 168
    case 12 => a == 192 && b == 175 && c == 48
    case 13 => a == 198 && 18 <= b < 20
    case 14 => a == 198 && b == 51 && c == 100
    case 15 => a == 203 && b == 0 && c == 113
    case 16 => 224 <= a < 240
    case _ => a >= 240
  }

  lemma PairsEqual(a: nat, b: nat, x: nat, y: nat, n: nat)
    requires b < n && y < n
    ensures a * n + b == x * n + y <==> a == x && b == y
  {
    if a < x {
      MulMono(a + 1, x, n);
    } else if x < a {
      MulMono(x + 1, a, n);
    }
  }

  /** A network of one of the listed prefix lengths, in octets. */
  lemma NetworkOctets(n: Network, a: nat, b: nat, c: nat, d: nat)
    requires n.x < 256 && n.y < 256 && n.z < 256 && a < 256 && b < 256 && c < 256 && d < 256
    requires n.prefix in {4, 8, 10, 12, 15, 16, 24}
    ensures InNetwork(Quadrant(a, b, c, d), n) <==>
            if n.prefix == 4 then a / 16 == n.x / 16
            else
              && a == n.x
              && (n.prefix == 10 ==> b / 64 == n.y / 64) && (n.prefix == 12 ==> b / 16 == n.y / 16)
              && (n.prefix == 15 ==> b / 2 == n.y / 2) && (n.prefix >= 16 ==> b == n.y)
              && (n.prefix == 24 ==> c == n.z)
  {
    PowersOfTwo();
    Quotients(a, b, c, d);
    Quotients(n.x, n.y, n.z, 0);
    hide Pow2, Quadrant, Shifted;
    if n.prefix == 10 {
      PairsEqual(a, b / 64, n.x, n.y / 64, 4);
    } else if n.prefix == 12 {
      PairsEqual(a, b / 16, n.x, n.y / 16, 16);
    } else if n.prefix == 15 {
      PairsEqual(a, b / 2, n.x, n.y / 2, 128);
    } else if n.prefix == 16 {
      PairsEqual(a, b, n.x, n.y, 256);
    } else if n.prefix == 24 {
      PairsEqual(a, b, n.x, n.y, 256);
      PairsEqual(a * 256 + b, c, n.x * 256 + n.y, n.z, 256);
    }
  }

  lemma OneSpecialRange(k: nat, a: nat, b: nat, c: nat, d: nat)
    requires k < 18 && a < 256 && b < 256 && c < 256 && d < 256
    ensures InNetwork(Quadrant(a, b, c, d), IPV4_SPECIAL[k]) <==> SpecialRange(k, a, b, c)
  {
    hide InNetwork, Quadrant;
    if k < 9 {
      LowSpecialRange(k, a, b, c, d);
    } else {
      HighSpecialRange(k, a, b, c, d);
    }
  }

  lemma LowSpecialRange(k: nat, a: nat, b: nat, c: nat, d: nat)
    requires k < 9 && a < 256 && b < 256 && c < 256 && d < 256
    ensures InNetwork(Quadrant(a, b, c, d), IPV4_SPECIAL[k]) <==> SpecialRange(k, a, b, c)
  {
    hide InNetwork, Quadrant;
    NetworkOctets(IPV4_SPECIAL[k], a, b, c, d);
  }

  lemma HighSpecialRange(k: nat, a: nat, b: nat, c: nat, d: nat)
    requires 9 <= k < 18 && a < 256 && b < 256 && c < 256 && d < 256
    ensures InNetwork(Quadrant(a, b, c, d), IPV4_SPECIAL[k]) <==> SpecialRange(k, a, b, c)
  {
    hide InNetwork, Quadrant;
    NetworkOctets(IPV4_SPECIAL[k], a, b, c, d);
  }

  lemma Quotients(a: nat, b: nat, c: nat, d: nat)
    requires a < 256 && b < 256 && c < 256 && d < 256
    ensures var v := Quadrant(a, b, c, d);
      && Shifted(v, 0x100_0000) == a && Shifted(v, 0x1_0000) == a * 256 + b
      && Shifted(v, 0x100) == (a * 256 + b) * 256 + c
      && Shifted(v, 0x40_0000) == a * 4 + b / 64 && Shifted(v, 0x10_0000) == a * 16 + b / 16
      && Shifted(v, 0x2_0000) == a * 128 + b / 2 && Shifted(v, 0x1000_0000) == a / 16
  {
    var v := Quadrant(a, b, c, d);
    assert Shifted(v, 0x100) == (a * 256 + b) * 256 + c;
    assert Shifted(v, 0x1_0000) == a * 256 + b;
    assert Shifted(v, 0x40_0000) == a * 4 + b / 64;
  }

  /** The verdict on an IPv4 address, octet by octet. */
  lemma PublicIpv4Exactly(a: nat, b: nat, c: nat, d: nat)
    requires a < 256 && b < 256 && c < 256 && d < 256
    ensures IsPublicAddress(QuadText([a, b, c, d])) <==> !SpecialQuad(a, b, c)
  {
    var octets := [a, b, c, d];
    QuadTextSplits(octets);
    Unfold4(octets, 256);
    SpecialExactly(a, b, c, d);
    hide QuadText, Positional, Ipv4IsSpecial, SpecialQuad;
  }

  lemma SpecialExactly(a: nat, b: nat, c: nat, d: nat)
    requires a < 256 && b < 256 && c < 256 && d < 256
    ensures Ipv4IsSpecial(Quadrant(a, b, c, d)) <==> SpecialQuad(a, b, c)
  {
    hide InNetwork, Quadrant;
    var value := Quadrant(a, b, c, d);
    forall k | 0 <= k < 18
      ensures InNetwork(value, IPV4_SPECIAL[k]) <==> SpecialRange(k, a, b, c)
    {
      OneSpecialRange(k, a, b, c, d);
    }
    assert Ipv4IsSpecial(value) <==> exists k :: 0 <= k < 18 && SpecialRange(k, a, b, c);
    QuadIsInSomeRange(a, b, c);
  }

  lemma QuadIsInSomeRange(a: nat, b: nat, c: nat)
    requires a < 256 && b < 256 && c < 256
    ensures SpecialQuad(a, b, c) <==> exists k :: 0 <= k < 18 && SpecialRange(k, a, b, c)
  {
    if SpecialQuad(a, b, c) {
      var k := if a == 0 then 0 else if a == 10 then 1 else if a == 100 then 2 else if a == 127 then 3
               else if a == 169 then 4 else if a == 172 then 5
               else if a == 192 then
                 (if b == 0 then (if c == 0 then 6 else 7) else if b == 31 then 8 else if b == 52 then 9
                  else if b == 88 then 10 else if b == 168 then 11 else 12)
               else if a == 198 then (if b == 51 then 14 else 13) else if a == 203 then 15
               else if a < 240 then 16 else 17;
      assert SpecialRange(k, a, b, c);
    }
  }

  // ---------- IPv6 ----------

  lemma DivDiv(v: nat, a: nat, b: nat)
    requires a > 0 && b > 0
    ensures a * b > 0 && Shifted(v, a * b) == Shifted(Shifted(v, a), b)
  {
    var q, r := v / a, v % a;
    var p, t := q / b, q % b;
    Divided(v, a);
    Divided(q, b);
    Grouped(v, p, a, b, t, r, q);
    QuotientIs(v, p, a * b);
  }

  lemma Divided(v: nat, a: nat)
    requires a > 0
    ensures v / a >= 0 && 0 <= v % a < a && v == (v / a) * a + v % a
  {
  }

  lemma Grouped(v: nat, p: nat, a: nat, b: nat, t: nat, r: nat, q: nat)
    requires a > 0 && b > 0 && t < b && r < a && v == q * a + r && q == p * b + t
    ensures a * b > 0 && p * (a * b) <= v < p * (a * b) + a * b
  {
    Regroup(p, a, b, t, r);
    Fits(t, a, b, r);
  }

  lemma Regroup(p: nat, a: nat, b: nat, t: nat, r: nat)
    ensures (p * b + t) * a + r == p * (a * b) + (t * a + r)
  {
  }

  lemma Fits(t: nat, a: nat, b: nat, r: nat)
    requires t < b && r < a
    ensures 0 <= t * a + r < a * b
  {
    MulMono(t + 1, b, a);
  }

  lemma {:induction false} Pow2Add(m: nat, n: nat)
    ensures Pow2(m + n) == Pow2(m) * Pow2(n)
  {
    if m > 0 {
      Pow2Add(m - 1, n);
    }
  }

  /** Membership in a subnet only looks at leading bits, and a longer prefix is a smaller subnet. */
  lemma LeadingBits(value: nat, network: nat, prefix: nat, leading: nat, bits: nat)
    requires prefix <= leading <= bits
    ensures var d := Pow2(bits - leading);
      InSubnet(value, network, prefix, bits) <==> InSubnet(Shifted(value, d), Shifted(network, d), prefix, leading)
    ensures InSubnet(value, network, leading, bits) ==> InSubnet(value, network, prefix, bits)
  {
    Pow2Add(bits - leading, leading - prefix);
    DivDiv(value, Pow2(bits - leading), Pow2(leading - prefix));
    DivDiv(network, Pow2(bits - leading), Pow2(leading - prefix));
  }

  lemma DropGroup(groups: seq<nat>)
    requires groups != [] && groups[|groups| - 1] < 0x10000
    ensures Shifted(Positional(groups, 0x10000), 0x10000) == Positional(groups[..|groups| - 1], 0x10000)
  {
  }

  /** Shifting whole groups away leaves the number of the leading groups. */
  lemma {:induction false} LeadingGroups(groups: seq<nat>, n: nat)
    requires n <= |groups| && forall k :: 0 <= k < |groups| ==> groups[k] < 0x10000
    ensures Shifted(Positional(groups, 0x10000), Pow2(16 * n)) == Positional(groups[..|groups| - n], 0x10000)
  {
    if n == 0 {
      assert groups[..|groups|] == groups;
    } else {
      var front := groups[..|groups| - 1];
      LeadingGroups(front, n - 1);
      DropGroup(groups);
      Groupfold(16 * n - 16);
      DivDiv(Positional(groups, 0x10000), 0x10000, Pow2(16 * n - 16));
      assert front[..|front| - (n - 1)] == groups[..|groups| - n];
    }
  }

  predicate GroupsOk(g: seq<nat>) {
    |g| == 8 && forall k :: 0 <= k < 8 ==> g[k] < 0x10000
  }

  predicate MappedGroups(g: seq<nat>)
    requires |g| == 8
  {
    g[..6] == [0, 0, 0, 0, 0, 0xffff]
  }

  lemma MappedExactly(g: seq<nat>)
    requires GroupsOk(g)
    ensures IsMapped(Positional(g, 0x10000)) <==> MappedGroups(g)
    ensures Positional(g, 0x10000) % 0x1_0000_0000 == g[6] * 0x10000 + g[7]
  {
    var mapped := [0, 0, 0, 0, 0, 0xffff];
    LeadingGroups(g, 2);
    MappedNetwork();
    if IsMapped(Positional(g, 0x10000)) {
      PositionalInjective(g[..6], mapped);
    }
    TwoGroups(g);
  }

  lemma TwoGroups(g: seq<nat>)
    requires GroupsOk(g)
    ensures Positional(g, 0x10000) % 0x1_0000_0000 == g[6] * 0x10000 + g[7]
  {
    assert g[..7][..6] == g[..6];
    var high := Positional(g[..6], 0x10000);
    assert Positional(g, 0x10000) == high * 0x1_0000_0000 + (g[6] * 0x10000 + g[7]);
  }

  lemma MappedNetwork()
    ensures Shifted(MAPPED_NETWORK, Pow2(32)) == Positional([0, 0, 0, 0, 0, 0xffff], 0x10000)
  {
    PowersOfTwo();
    hide Pow2;
    var mapped := [0, 0, 0, 0, 0, 0xffff];
    assert mapped[..5] == ZeroGroups(5);
    ZeroPositional(5);
  }

  lemma {:induction false} ZeroPositional(n: nat)
    ensures Positional(ZeroGroups(n), 0x10000) == 0
  {
    if n > 0 {
      ZeroPositional(n - 1);
      assert ZeroGroups(n)[..n - 1] == ZeroGroups(n - 1);
    }
  }

  /** The first group decides membership in a network of at most 16 bits. */
  lemma ShortNetwork6(n: Network6, g: seq<nat>)
    requires GroupsOk(g) && n.g0 < 0x10000 && n.g1 < 0x10000 && n.g2 < 0x10000
    requires n.prefix in {3, 7, 8, 10, 16}
    ensures InNetwork6(Positional(g, 0x10000), n) <==>
            && (n.prefix == 3 ==> g[0] / 0x2000 == n.g0 / 0x2000) && (n.prefix == 7 ==> g[0] / 0x200 == n.g0 / 0x200)
            && (n.prefix == 8 ==> g[0] / 0x100 == n.g0 / 0x100) && (n.prefix == 10 ==> g[0] / 0x40 == n.g0 / 0x40)
            && (n.prefix == 16 ==> g[0] == n.g0)
  {
    Network6Top(n, g);
    hide InNetwork6, Positional, InSubnet;
    ShortTop(g[0], g[1], n.g0, n.g1, n.prefix);
  }

  lemma ShortTop(a: nat, b: nat, x: nat, y: nat, prefix: nat)
    requires a < 0x10000 && b < 0x10000 && x < 0x10000 && y < 0x10000 && prefix in {3, 7, 8, 10, 16}
    ensures InSubnet(a * 0x10000 + b, x * 0x10000 + y, prefix, 32) <==>
            && (prefix == 3 ==> a / 0x2000 == x / 0x2000) && (prefix == 7 ==> a / 0x200 == x / 0x200)
            && (prefix == 8 ==> a / 0x100 == x / 0x100) && (prefix == 10 ==> a / 0x40 == x / 0x40)
            && (prefix == 16 ==> a == x)
  {
    Quotients6(a, b);
    Quotients6(x, y);
    PowersOfTwo();
    hide Pow2, Shifted;
  }

  /** The first two groups decide membership in a network of up to 32 bits. */
  lemma LongNetwork6(n: Network6, g: seq<nat>)
    requires GroupsOk(g) && n.g0 < 0x10000 && n.g1 < 0x10000 && n.g2 < 0x10000
    requires n.prefix in {20, 23, 32}
    ensures InNetwork6(Positional(g, 0x10000), n) <==>
            && g[0] == n.g0
            && (n.prefix == 20 ==> g[1] / 0x1000 == n.g1 / 0x1000)
            && (n.prefix == 23 ==> g[1] / 0x200 == n.g1 / 0x200) && (n.prefix == 32 ==> g[1] == n.g1)
  {
    Network6Top(n, g);
    hide InNetwork6, Positional, InSubnet;
    LongTop(g[0], g[1], n.g0, n.g1, n.prefix);
  }

  lemma LongTop(a: nat, b: nat, x: nat, y: nat, prefix: nat)
    requires a < 0x10000 && b < 0x10000 && x < 0x10000 && y < 0x10000 && prefix in {20, 23, 32}
    ensures InSubnet(a * 0x10000 + b, x * 0x10000 + y, prefix, 32) <==>
            && a == x
            && (prefix == 20 ==> b / 0x1000 == y / 0x1000) && (prefix == 23 ==> b / 0x200 == y / 0x200)
            && (prefix == 32 ==> b == y)
  {
    Quotients6(a, b);
    Quotients6(x, y);
    PowersOfTwo();
    hide Pow2, Shifted;
    if prefix == 20 {
      PairsEqual(a, b / 0x1000, x, y / 0x1000, 16);
    } else if prefix == 23 {
      PairsEqual(a, b / 0x200, x, y / 0x200, 128);
    } else {
      PairsEqual(a, b, x, y, 0x10000);
    }
  }

  lemma Network6Top(n: Network6, g: seq<nat>)
    requires GroupsOk(g) && n.g0 < 0x10000 && n.g1 < 0x10000 && n.g2 < 0x10000 && n.prefix <= 32
    ensures InNetwork6(Positional(g, 0x10000), n) <==>
            InSubnet(g[0] * 0x10000 + g[1], n.g0 * 0x10000 + n.g1, n.prefix, 32)
  {
    hide Positional, InSubnet, Shifted, Pow2;
    var h := [n.g0, n.g1, n.g2, 0, 0, 0, 0, 0];
    TopGroups(g);
    TopGroups(h);
    LeadingBits(Positional(g, 0x10000), Positional(h, 0x10000), n.prefix, 32, 128);
  }

  lemma TopGroups(g: seq<nat>)
    requires GroupsOk(g)
    ensures Shifted(Positional(g, 0x10000), Pow2(96)) == g[0] * 0x10000 + g[1]
  {
    LeadingGroups(g, 6);
    assert g[..2][..1] == g[..1] && g[..1][..0] == [];
    assert Positional(g[..1], 0x10000) == g[0];
  }

  lemma Quotients6(a: nat, b: nat)
    requires a < 0x10000 && b < 0x10000
    ensures var v := a * 0x10000 + b;
      && Shifted(v, 1) == v && Shifted(v, 0x200) == a * 128 + b / 0x200 && Shifted(v, 0x1000) == a * 16 + b / 0x1000
      && Shifted(v, 0x1_0000) == a && Shifted(v, 0x40_0000) == a / 0x40 && Shifted(v, 0x100_0000) == a / 0x100
      && Shifted(v, 0x200_0000) == a / 0x200 && Shifted(v, 0x2000_0000) == a / 0x2000
  {
    var v := a * 0x10000 + b;
    assert Shifted(v, 0x1_0000) == a;
  }

  /** Global unicast without the special networks, by the first two groups. */
  predicate PublicGroups(g0: nat, g1: nat) {
    && 0x2000 <= g0 < 0x4000 && g0 != 0x2002
    && !(g0 == 0x2001 && (g1 < 0x200 || g1 == 0xdb8)) && !(g0 == 0x3fff && g1 < 0x1000)
  }

  lemma UnicastExactly(g: seq<nat>)
    requires GroupsOk(g)
    ensures IsGlobalUnicast(Positional(g, 0x10000)) <==> 0x2000 <= g[0] < 0x4000
  {
    ShortNetwork6(GLOBAL_UNICAST, g);
  }

  /** The entries with longer prefixes lie outside global unicast or inside a shorter entry. */
  lemma LongPrefix(k: nat, g: seq<nat>)
    requires GroupsOk(g) && k in {0, 1, 2, 4} && InNetwork6(Positional(g, 0x10000), IPV6_SPECIAL[k])
    ensures g[0] == IPV6_SPECIAL[k].g0 && g[1] == IPV6_SPECIAL[k].g1
  {
    var n := IPV6_SPECIAL[k];
    var shorter := n.(prefix := 32);
    LeadingBits(Positional(g, 0x10000), NetworkValue(n), 32, n.prefix, 128);
    LongNetwork6(shorter, g);
  }

  lemma SpecialEntry(k: nat, g: seq<nat>)
    requires GroupsOk(g) && 0x2000 <= g[0] < 0x4000 && k < 13
    requires InNetwork6(Positional(g, 0x10000), IPV6_SPECIAL[k])
    ensures !PublicGroups(g[0], g[1])
  {
    hide Positional, InNetwork6;
    if k in {0, 1, 2, 4} {
      LongPrefix(k, g);
    } else if k in {3, 5, 7} {
      LongNetwork6(IPV6_SPECIAL[k], g);
    } else {
      ShortNetwork6(IPV6_SPECIAL[k], g);
    }
  }

  lemma Special6Exactly(g: seq<nat>)
    requires GroupsOk(g) && 0x2000 <= g[0] < 0x4000
    ensures Ipv6IsSpecial(Positional(g, 0x10000)) <==> !PublicGroups(g[0], g[1])
  {
    var value := Positional(g, 0x10000);
    hide Positional, InNetwork6;
    forall k | 0 <= k < 13 && InNetwork6(value, IPV6_SPECIAL[k]) ensures !PublicGroups(g[0], g[1]) {
      SpecialEntry(k, g);
    }
    if !PublicGroups(g[0], g[1]) {
      SomeEntry(g);
    }
  }

  lemma SomeEntry(g: seq<nat>)
    requires GroupsOk(g) && 0x2000 <= g[0] < 0x4000 && !PublicGroups(g[0], g[1])
    ensures Ipv6IsSpecial(Positional(g, 0x10000))
  {
    var value := Positional(g, 0x10000);
    hide Positional, InNetwork6;
    if g[0] == 0x2002 {
      ShortNetwork6(IPV6_SPECIAL[6], g);
      assert InNetwork6(value, IPV6_SPECIAL[6]);
    } else if g[0] == 0x3fff {
      LongNetwork6(IPV6_SPECIAL[7], g);
      assert InNetwork6(value, IPV6_SPECIAL[7]);
    } else if g[1] == 0xdb8 {
      LongNetwork6(IPV6_SPECIAL[5], g);
      assert InNetwork6(value, IPV6_SPECIAL[5]);
    } else {
      LongNetwork6(IPV6_SPECIAL[3], g);
      assert InNetwork6(value, IPV6_SPECIAL[3]);
    }
  }

  lemma Ipv4HasNoColon(text: string)
    requires IsIpv4(text)
    ensures Without(text, ':')
  {
    Ipv4Inverse(text, 0);
    QuadTextShape(Octets(Ipv4Value(text).value));
  }

  lemma {:induction false} FewPiecesFewGroups(side: seq<Piece>)
    requires forall k :: 0 <= k < |side| ==> PieceOk(side[k])
    ensures |SideGroups(side)| <= 2 * |side|
  {
    if side != [] {
      FewPiecesFewGroups(side[..|side| - 1]);
    }
  }

  lemma FormHasColon(f: Form)
    requires FormOk(f)
    ensures !Without(FormText(f), ':') && !IsIpv4(FormText(f)) && IsIpv6(FormText(f))
  {
    var text := FormText(f);
    if f.gap {
      assert text[|SideText(f.before)|] == ':';
    } else {
      FewPiecesFewGroups(f.before);
      assert Texts(f.before)[0] == PieceText(f.before[0]);
      assert text == Join(Texts(f.before), ':');
      assert text[|PieceText(f.before[0])|] == ':';
    }
    if IsIpv4(text) {
      Ipv4HasNoColon(text);
    }
  }

  /** The verdict on an IPv6 text in terms of its groups, one branch at a time. */
  lemma VerdictByGroups(f: Form)
    requires FormOk(f)
    ensures var g := FormGroups(f);
      && GroupsOk(g)
      && (IsPublicAddress(FormText(f)) <==>
            if MappedGroups(g) then IsPublicAddress(Ipv4FromValue(g[6] * 0x10000 + g[7]))
            else IsGlobalUnicast(Positional(g, 0x10000)) && !Ipv6IsSpecial(Positional(g, 0x10000)))
  {
    hide *;
    var g, text := FormGroups(f), FormText(f);
    FormGroupsBounded(f);
    EightGroups(g);
    FormHasColon(f);
    FormReads(f);
    MappedExactly(g);
    Verdict(text, Positional(g, 0x10000));
  }

  lemma EightGroups(g: seq<nat>)
    requires |g| == 8 && forall k :: 0 <= k < 8 ==> g[k] < 0x10000
    ensures GroupsOk(g)
  {
  }

  lemma Verdict(text: string, value: nat)
    requires IsIpv6(text) && !IsIpv4(text) && Ipv6Value(text) == Some(value)
    ensures IsPublicAddress(text) <==>
              if IsMapped(value) then IsPublicAddress(Ipv4FromValue(value % 0x1_0000_0000))
              else IsGlobalUnicast(value) && !Ipv6IsSpecial(value)
  {
    hide IsIpv6, IsIpv4, Ipv6Value, IsMapped, IsGlobalUnicast, Ipv6IsSpecial, Ipv4IsSpecial, Ipv4FromValue;
  }

  /** The verdict on any textual form of an IPv6 address, by its groups. */
  lemma PublicIpv6Exactly(f: Form)
    requires FormOk(f)
    ensures var g := FormGroups(f);
      IsPublicAddress(FormText(f)) <==>
        if MappedGroups(g) then !SpecialQuad(g[6] / 256, g[6] % 256, g[7] / 256) else PublicGroups(g[0], g[1])
  {
    hide *;
    var g := FormGroups(f);
    VerdictByGroups(f);
    if MappedGroups(g) {
      EmbeddedVerdict(g);
    } else {
      UnmappedVerdict(g);
    }
  }

  lemma EmbeddedVerdict(g: seq<nat>)
    requires GroupsOk(g)
    ensures IsPublicAddress(Ipv4FromValue(g[6] * 0x10000 + g[7])) <==>
            !SpecialQuad(g[6] / 256, g[6] % 256, g[7] / 256)
  {
    hide IsPublicAddress, SpecialQuad, QuadText, Ipv4FromValue;
    QuadOfGroups(g[6], g[7]);
    PublicIpv4Exactly(g[6] / 256, g[6] % 256, g[7] / 256, g[7] % 256);
  }

  lemma UnmappedVerdict(g: seq<nat>)
    requires GroupsOk(g)
    ensures IsGlobalUnicast(Positional(g, 0x10000)) && !Ipv6IsSpecial(Positional(g, 0x10000)) <==>
            PublicGroups(g[0], g[1])
  {
    hide Positional, IsGlobalUnicast, Ipv6IsSpecial;
    UnicastExactly(g);
    if 0x2000 <= g[0] < 0x4000 {
      Special6Exactly(g);
    }
  }

  lemma QuadOfGroups(h: nat, l: nat)
    requires h < 0x10000 && l < 0x10000
    ensures Ipv4FromValue(h * 0x10000 + l) == QuadText([h / 256, h % 256, l / 256, l % 256])
  {
    var v := h * 0x10000 + l;
    assert v / 0x1_0000 == h;
    assert v / 0x100 == h * 256 + l / 256;
    assert v / 0x100_0000 == h / 256;
  }

  /** Section 2.5.5.2 of RFC 4291: an IPv4-mapped address, however it is written, gets the verdict of the IPv4
    * address it embeds. */
  lemma MappedVerdict(f: Form)
    requires FormOk(f) && MappedGroups(FormGroups(f))
    ensures var g := FormGroups(f);
      IsPublicAddress(FormText(f)) <==> IsPublicAddress(Ipv4FromValue(g[6] * 0x10000 + g[7]))
  {
    hide *;
    VerdictByGroups(f);
  }

  /** The usual spelling. */
  lemma MappedText(text: string)
    requires IsIpv4(text)
    ensures IsPublicAddress("::ffff:" + text) <==> IsPublicAddress(text)
  {
    hide *;
    var f := SpelledMapped(text);
    MappedVerdict(f);
  }

  lemma SpelledMapped(text: string) returns (f: Form)
    requires IsIpv4(text)
    ensures FormOk(f) && FormText(f) == "::ffff:" + text && MappedGroups(FormGroups(f))
    ensures Ipv4FromValue(FormGroups(f)[6] * 0x10000 + FormGroups(f)[7]) == text
  {
    hide *;
    Ipv4Inverse(text, 0);
    var value := Ipv4Value(text).value;
    var octets := Octets(value);
    f := Form([], true, [Hex("ffff"), Quad(octets)]);
    PairedOctets(value);
    MappedForm(octets);
  }

  lemma PairedOctets(value: nat)
    requires value < 0x1_0000_0000
    ensures var o := Octets(value); (o[0] * 256 + o[1]) * 0x10000 + (o[2] * 256 + o[3]) == value
    ensures QuadText(Octets(value)) == Ipv4FromValue(value)
  {
    OctetsOfValue(value);
    Unfold4(Octets(value), 256);
    hide Octets;
  }

  lemma MappedForm(octets: seq<nat>)
    requires |octets| == 4 && forall k :: 0 <= k < 4 ==> octets[k] < 256
    ensures var f := Form([], true, [Hex("ffff"), Quad(octets)]);
      && FormOk(f) && FormText(f) == "::ffff:" + QuadText(octets) && MappedGroups(FormGroups(f))
      && FormGroups(f)[6] == octets[0] * 256 + octets[1] && FormGroups(f)[7] == octets[2] * 256 + octets[3]
  {
    var side := [Hex("ffff"), Quad(octets)];
    var f := Form([], true, side);
    FfffValue();
    assert side[..1] == [Hex("ffff")] && side[..1][..0] == [];
    assert SideGroups(side[..1]) == [0xffff];
    assert SideGroups(side) == [0xffff] + PieceGroups(side[1]);
    assert Texts(side) == ["ffff", QuadText(octets)];
    assert Join(Texts(side), ':') == "ffff" + [':'] + QuadText(octets);
    assert SideText([]) == "";
    assert FormText(f) == "" + "::" + ("ffff" + [':'] + QuadText(octets));
    assert FormGroups(f) == ZeroGroups(5) + SideGroups(side);
  }

  lemma FfffValue()
    ensures IsHexText("ffff") && HexValue("ffff") == 0xffff
  {
    assert "ffff"[..3] == "fff" && "fff"[..2] == "ff" && "ff"[..1] == "f" && "f"[..0] == "";
    assert HexValue("f") == 15;
    assert HexValue("ff") == 255;
    assert HexValue("fff") == 4095;
  }
}
