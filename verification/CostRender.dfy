/** Printing a nanodollar amount as a number of dollars and reading it back. */
module CostRender {
  import opened EventJournal
  import opened Cost

  function DigitChar(d: nat): (c: char)
    requires d < 10
    ensures IsDigit(c) && (c - '0') as int == d
  {
    '0' + d as char
  }

  function Digits(m: nat): (s: string)
    ensures |s| > 0 && IsDigits(s)
  {
    if m < 10 then [DigitChar(m)] else Digits(m / 10) + [DigitChar(m % 10)]
  }

  lemma {:induction false} DigitsValue(m: nat)
    ensures NatOf(Digits(m)) == m
  {
    if m < 10 {
      assert Digits(m)[..0] == "";
    } else {
      DigitsValue(m / 10);
      assert Digits(m)[..|Digits(m)| - 1] == Digits(m / 10);
    }
  }

  /** The digits before the trailing zeros, and how many zeros there are. */
  function Strip(n: nat): (r: (nat, nat))
    requires n > 0
    ensures r.0 > 0 && r.0 * Pow10(r.1) == n
  {
    if n % 10 == 0 then
      var rest := Strip(n / 10);
      TimesTen(rest.0, Pow10(rest.1), n / 10);
      (rest.0, rest.1 + 1)
    else (n, 0)
  }

  lemma TimesTen(a: nat, p: nat, q: nat)
    requires a * p == q
    ensures a * (10 * p) == 10 * q
  {
  }

  const EXACT_INTEGER_DIGITS := 21
  const SMALLEST_FIXED := -6

  /** Number::toString (section 6.1.6.1.20 of ECMA-262) of `digits` with the decimal point after `point` of
    * them: plain, fixed or exponential. */
  function ToText(digits: string, point: int): string
    requires |digits| > 0
  {
    var k := |digits|;
    if k <= point <= EXACT_INTEGER_DIGITS then digits + Zeros(point - k)
    else if 0 < point <= EXACT_INTEGER_DIGITS then digits[..point] + "." + digits[point..]
    else if SMALLEST_FIXED < point <= 0 then "0." + Zeros(-point) + digits
    else
      var exponent := point - 1;
      var mantissa := if k == 1 then digits else digits[..1] + "." + digits[1..];
      mantissa + "e" + SignText(exponent)
  }

  /** The shortest decimal text of `n` nanodollars in dollars. */
  function Render(n: nat): string {
    if n == 0 then "0" else
    var stripped := Strip(n);
    var digits := Digits(stripped.0);
    ToText(digits, |digits| + stripped.1 - SCALE)
  }

  // ---------- Reading text back ----------

  lemma {:induction false} IndexOfSplit(a: string, c: char, b: string)
    requires c !in a
    ensures IndexOf(a + [c] + b, c) == |a|
  {
    if a == "" {
      assert "" + [c] + b == [c] + b;
    } else {
      IndexOfSplit(a[1..], c, b);
      assert (a + [c] + b)[1..] == a[1..] + [c] + b;
      assert a[0] in a;
    }
  }

  lemma NotFound(s: string, c: char)
    requires c !in s
    ensures IndexOf(s, c) == |s|
  {
  }

  lemma DigitsHaveNoMarks(s: string)
    requires IsDigits(s)
    ensures '.' !in s && 'e' !in s && 'E' !in s
  {
  }

  lemma MatchWhole(s: string)
    requires |s| > 0 && IsDigits(s)
    ensures MatchDecimal(s) == Some(Decimal(s, ""))
  {
    DigitsHaveNoMarks(s);
    NotFound(s, '.');
  }

  lemma MatchPointed(whole: string, fraction: string)
    requires |whole| > 0 && |fraction| > 0 && IsDigits(whole) && IsDigits(fraction)
    ensures MatchDecimal(whole + "." + fraction) == Some(Decimal(whole, fraction))
    ensures 'e' !in whole + "." + fraction && 'E' !in whole + "." + fraction
  {
    DigitsHaveNoMarks(whole);
    DigitsHaveNoMarks(fraction);
    var s := whole + "." + fraction;
    IndexOfSplit(whole, '.', fraction);
    assert s[..|whole|] == whole && s[|whole| + 1..] == fraction;
  }

  lemma MatchSigned(exponent: int)
    ensures MatchExponent(SignText(exponent)) == Some(exponent)
  {
    hide Digits, NatOf, MatchExponent, IsDigits;
    if exponent < 0 {
      DigitsValue(-exponent);
      MatchMarked('-', Digits(-exponent));
    } else {
      DigitsValue(exponent);
      MatchMarked('+', Digits(exponent));
    }
  }

  lemma MatchMarked(sign: char, digits: string)
    requires sign in {'-', '+'} && digits != "" && IsDigits(digits)
    ensures MatchExponent([sign] + digits) == Some((if sign == '-' then -1 else 1) * NatOf(digits))
  {
    hide NatOf;
    assert ([sign] + digits)[1..] == digits;
  }

  /** A floor of a whole number of nanodollars is that number. */
  lemma FloorOfWhole(n: nat, m: nat, t: nat, nano: nat)
    requires m * Pow10(t) == nano && IsFloor(n, m, t - SCALE, SCALE)
    ensures n == nano
  {
    hide Pow10;
    if t >= SCALE {
      PowAdd(t - SCALE, SCALE);
      Assoc(m, Pow10(t - SCALE), Pow10(SCALE));
    } else {
      PowAdd(t, SCALE - t);
      Assoc(m, Pow10(t), Pow10(SCALE - t));
      var d := Pow10(SCALE - t);
      IntegerPartOfWhole(nano, d);
      IntegerPartIsUnique(nano, n, nano * d, d, 1);
    }
  }

  /** Whatever form the text takes, the parsers see the same digits and the same decimal exponent. */
  ghost predicate Reads(s: string, digits: nat, exponent: int) {
    exists n :: UsdTextToNano(s) == Bounded(n) && IsFloor(n, digits, exponent, SCALE)
  }

  lemma ReadsWhole(digits: string, zeros: nat)
    requires |digits| > 0 && IsDigits(digits)
    ensures Reads(digits + Zeros(zeros), NatOf(digits), zeros)
  {
    var s := digits + Zeros(zeros);
    MatchWhole(s);
    DigitsHaveNoMarks(s);
    NotFound(s, 'e');
    DecimalIsFloor(Decimal(s, ""), SCALE);
    assert s + "" == s;
    TrailingZeros(digits, zeros, SCALE);
    var n := DecimalToScaled(Decimal(s, ""), SCALE);
    assert Pow10(0) == 1;
    hide Pow10, NatOf, ScaledParts, DecimalToScaled;
    assert IsFloor(n, NatOf(digits), zeros, SCALE);
  }

  lemma ReadsPointed(whole: string, fraction: string)
    requires |whole| > 0 && |fraction| > 0 && IsDigits(whole) && IsDigits(fraction)
    ensures IsDigits(whole + fraction)
    ensures Reads(whole + "." + fraction, NatOf(whole + fraction), -|fraction|)
  {
    MatchPointed(whole, fraction);
    NotFound(whole + "." + fraction, 'e');
    DecimalIsFloor(Decimal(whole, fraction), SCALE);
    var n := DecimalToScaled(Decimal(whole, fraction), SCALE);
    hide IsFloor, DecimalToScaled, NatOf;
    assert UsdTextToNano(whole + "." + fraction) == Bounded(n);
  }

  function SignText(exponent: int): string {
    if exponent < 0 then "-" + Digits(-exponent) else "+" + Digits(exponent)
  }

  lemma ReadsScientific(mantissa: string, d: Decimal, exponent: int)
    requires MatchDecimal(mantissa) == Some(d) && Canonical(d) && 'e' !in mantissa && 'E' !in mantissa
    ensures IsDigits(d.whole + d.fraction)
    ensures Reads(mantissa + "e" + SignText(exponent), NatOf(d.whole + d.fraction), exponent - |d.fraction|)
  {
    hide IsFloor, ScientificToScaled, NatOf, MatchDecimal, MatchExponent, Digits, IndexOf;
    ExponentSplit(mantissa, SignText(exponent), exponent);
    MatchSigned(exponent);
    ScientificIsFloor(d, exponent, SCALE);
    var n := ScientificToScaled(d, exponent, SCALE);
    assert UsdTextToNano(mantissa + "e" + SignText(exponent)) == Bounded(n);
  }

  lemma ReadsExponential(digits: string, exponent: int)
    requires |digits| > 0 && IsDigits(digits)
    ensures var mantissa := if |digits| == 1 then digits else digits[..1] + "." + digits[1..];
      Reads(mantissa + "e" + SignText(exponent), NatOf(digits), exponent - (|digits| - 1))
  {
    hide Reads, NatOf, SignText, MatchDecimal;
    if |digits| == 1 {
      MatchWhole(digits);
      DigitsHaveNoMarks(digits);
      assert digits + "" == digits;
      ReadsScientific(digits, Decimal(digits, ""), exponent);
    } else {
      MatchPointed(digits[..1], digits[1..]);
      assert digits[..1] + digits[1..] == digits;
      ReadsScientific(digits[..1] + "." + digits[1..], Decimal(digits[..1], digits[1..]), exponent);
    }
  }

  lemma ExponentSplit(mantissa: string, sign: string, exponent: int)
    requires 'e' !in mantissa && 'E' !in mantissa
    requires sign == SignText(exponent)
    ensures var s := mantissa + "e" + sign;
      IndexOf(s, 'e') == |mantissa| && s[..|mantissa|] == mantissa && s[|mantissa| + 1..] == sign && 'E' !in s
  {
    IndexOfSplit(mantissa, 'e', sign);
    DigitsHaveNoMarks(Digits(if exponent < 0 then -exponent else exponent));
  }

  lemma ReadsSplit(digits: string, point: nat)
    requires IsDigits(digits) && 0 < point < |digits|
    ensures Reads(digits[..point] + "." + digits[point..], NatOf(digits), point - |digits|)
  {
    hide Reads, NatOf;
    assert digits[..point] + digits[point..] == digits;
    ReadsPointed(digits[..point], digits[point..]);
  }

  lemma ReadsSmall(digits: string, zeros: nat)
    requires IsDigits(digits) && |digits| > 0
    ensures Reads("0." + Zeros(zeros) + digits, NatOf(digits), -(zeros as int) - |digits|)
  {
    hide Reads, NatOf;
    var fraction := Zeros(zeros) + digits;
    ReadsPointed("0", fraction);
    LeadingZeros(zeros, digits);
    assert "0" + "." + fraction == "0." + Zeros(zeros) + digits;
  }

  /** The text of `digits` with the point at `point` reads as exactly that number. */
  lemma TextReads(digits: string, point: int)
    requires |digits| > 0 && IsDigits(digits)
    ensures Reads(ToText(digits, point), NatOf(digits), point - |digits|)
  {
    hide Reads, NatOf, SignText, IsDigits;
    var k := |digits|;
    if k <= point <= EXACT_INTEGER_DIGITS {
      ReadsWhole(digits, point - k);
    } else if 0 < point <= EXACT_INTEGER_DIGITS {
      ReadsSplit(digits, point);
    } else if SMALLEST_FIXED < point <= 0 {
      ReadsSmall(digits, -point);
    } else {
      ReadsExponential(digits, point - 1);
    }
  }

  lemma ReadBack(n: nat, m: nat, t: nat, s: string)
    requires m * Pow10(t) == n && n <= MAX_COST_USD_NANO && Reads(s, m, t - SCALE)
    ensures UsdTextToNano(s) == Some(n)
  {
    hide UsdTextToNano, IsFloor, Pow10;
    var read :| UsdTextToNano(s) == Bounded(read) && IsFloor(read, m, t - SCALE, SCALE);
    FloorOfWhole(read, m, t, n);
  }

  /** Every amount survives printing and parsing, in whichever of the forms it is printed. */
  lemma RenderRoundTrip(n: nat)
    requires n <= MAX_COST_USD_NANO
    ensures UsdTextToNano(Render(n)) == Some(n)
  {
    if n == 0 {
      ReadsZero();
      ReadBack(0, 0, SCALE, "0");
    } else {
      var stripped := Strip(n);
      var digits := Digits(stripped.0);
      DigitsValue(stripped.0);
      hide Reads, UsdTextToNano, Pow10, NatOf, ToText, Strip, Digits;
      TextReads(digits, |digits| + stripped.1 - SCALE);
      ReadBack(n, stripped.0, stripped.1, Render(n));
    }
  }

  lemma ReadsZero()
    ensures Reads("0", 0, 0)
  {
    ReadsWhole("0", 0);
    LeadingZeros(0, "");
    assert "0" + Zeros(0) == "0";
    hide Reads;
  }

  /** Printing is injective, so no two amounts share a text. */
  lemma RenderIsInjective(n: nat, m: nat)
    requires n <= MAX_COST_USD_NANO && m <= MAX_COST_USD_NANO && Render(n) == Render(m)
    ensures n == m
  {
    RenderRoundTrip(n);
    RenderRoundTrip(m);
  }
}
