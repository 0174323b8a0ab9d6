/** Nanodollars out of printed numbers: exact arithmetic on digit strings. */
module Cost {
  import opened EventJournal

  const MAX_COST_USD_NANO := 10_000_000_000_000
  const SCALE := 9

  // ---------- Digit strings ----------

  predicate IsDigit(c: char) { '0' <= c <= '9' }

  predicate IsDigits(s: string) { forall i :: 0 <= i < |s| ==> IsDigit(s[i]) }

  function Pow10(n: nat): (p: nat)
    ensures p >= 1
  {
    if n == 0 then 1 else 10 * Pow10(n - 1)
  }

  function NatOf(s: string): nat
    requires IsDigits(s)
  {
    if s == [] then 0 else NatOf(s[..|s| - 1]) * 10 + (s[|s| - 1] - '0') as int
  }

  function Zeros(n: nat): (s: string)
    ensures |s| == n && IsDigits(s)
  {
    seq(n, _ => '0')
  }

  lemma {:induction false} PowAdd(a: nat, b: nat)
    ensures Pow10(a + b) == Pow10(a) * Pow10(b)
  {
    if a > 0 {
      PowAdd(a - 1, b);
    }
  }

  lemma {:induction false} NatConcat(a: string, b: string)
    requires IsDigits(a) && IsDigits(b)
    ensures IsDigits(a + b) && NatOf(a + b) == NatOf(a) * Pow10(|b|) + NatOf(b)
  {
    if b == [] {
      assert a + b == a;
    } else {
      var front := b[..|b| - 1];
      NatConcat(a, front);
      assert (a + b)[..|a + b| - 1] == a + front;
      Distribute(NatOf(a), Pow10(|front|), NatOf(front));
    }
  }

  lemma Distribute(a: nat, p: nat, f: nat)
    ensures (a * p + f) * 10 == a * (10 * p) + f * 10
  {
  }

  lemma {:induction false} NatZeros(n: nat)
    ensures NatOf(Zeros(n)) == 0
  {
    if n > 0 {
      assert Zeros(n)[..n - 1] == Zeros(n - 1);
      NatZeros(n - 1);
    }
  }

  lemma {:induction false} NatBound(s: string)
    requires IsDigits(s)
    ensures NatOf(s) < Pow10(|s|)
  {
    if s != [] {
      NatBound(s[..|s| - 1]);
    }
  }

  // ---------- The exact value and its floor ----------

  /** `n` is the integer part of `a` divided by `d`. */
  predicate IntegerPart(n: nat, a: nat, d: nat) {
    n * d <= a < n * d + d
  }

  /** `n` is the greatest integer not above `digits` times ten to the `exponent`, scaled by ten to the `scale`. */
  predicate IsFloor(n: nat, digits: nat, exponent: int, scale: nat) {
    if exponent >= 0 then n == digits * Pow10(exponent) * Pow10(scale)
    else IntegerPart(n, digits * Pow10(scale), Pow10(-exponent))
  }

  lemma MulMono(x: nat, y: nat, z: nat)
    requires x <= y
    ensures x * z <= y * z
  {
  }

  lemma Assoc(x: nat, y: nat, z: nat)
    ensures (x * y) * z == x * (y * z) && (x * y) * z == (x * z) * y
  {
  }

  /** Widening a fraction does not move its integer part. */
  lemma IntegerPartIsUnique(n: nat, m: nat, a: nat, d: nat, k: nat)
    requires d > 0 && k > 0 && IntegerPart(n, a, d) && IntegerPart(m, a * k, d * k)
    ensures n == m
  {
    if n < m {
      NotBelow(n, m, a, d, k);
    } else if m < n {
      NotAbove(n, m, a, d, k);
    }
  }

  lemma NotBelow(n: nat, m: nat, a: nat, d: nat, k: nat)
    requires k > 0 && a < n * d + d && m * (d * k) <= a * k
    ensures m <= n
  {
    if n + 1 <= m {
      MulMono(n + 1, m, d * k);
      Assoc(n + 1, d, k);
      MulMono(a + 1, (n + 1) * d, k);
    }
  }

  lemma NotAbove(n: nat, m: nat, a: nat, d: nat, k: nat)
    requires n * d <= a && a * k < m * (d * k) + d * k
    ensures n <= m
  {
    if m + 1 <= n {
      MulMono(m + 1, n, d * k);
      Assoc(n, d, k);
      MulMono(n * d, a, k);
    }
  }

  lemma IntegerPartOfWhole(n: nat, d: nat)
    requires d > 0
    ensures IntegerPart(n, n * d, d)
  {
  }

  /** `a` times ten to the `p` and `b` times ten to the `q` are one number. */
  predicate SameValue(a: nat, p: int, b: nat, q: int) {
    if p >= q then a * Pow10(p - q) == b else a == b * Pow10(q - p)
  }

  /** The floor depends on the number only, not on how it is written. */
  lemma FloorOfValue(n: nat, a: nat, p: int, m: nat, b: nat, q: int, scale: nat)
    requires SameValue(a, p, b, q) && IsFloor(n, a, p, scale) && IsFloor(m, b, q, scale)
    ensures n == m
  {
    if p >= q {
      ShiftFloor(n, a, p, m, p - q, scale);
    } else {
      ShiftFloor(m, b, q, n, q - p, scale);
    }
  }

  lemma ShiftFloor(n: nat, a: nat, p: int, m: nat, k: nat, scale: nat)
    requires IsFloor(n, a, p, scale) && IsFloor(m, a * Pow10(k), p - k, scale)
    ensures n == m
  {
    hide Pow10;
    var t := Pow10(scale);
    if p - k >= 0 {
      PowAdd(p - k, k);
      SameProduct(a, Pow10(p - k), Pow10(k), t);
    } else if p >= 0 {
      PowAdd(p, k - p);
      var d := Pow10(k - p);
      SplitProduct(a, Pow10(p), d, t);
      IntegerPartOfWhole(n, d);
      IntegerPartIsUnique(n, m, n * d, d, 1);
    } else {
      PowAdd(-p, k);
      Assoc(a, Pow10(k), t);
      IntegerPartIsUnique(n, m, a * t, Pow10(-p), Pow10(k));
    }
  }

  lemma SameProduct(a: nat, x: nat, y: nat, t: nat)
    ensures (a * y) * x * t == a * (x * y) * t
  {
    Assoc(a, y, x);
    assert y * x == x * y;
  }

  lemma SplitProduct(a: nat, x: nat, y: nat, t: nat)
    ensures (a * (x * y)) * t == (a * x * t) * y
  {
    Assoc(a, x, y);
    Assoc(a * x, y, t);
  }

  // ---------- The two parsers ----------

  function IndexOf(s: string, c: char): (i: nat)
    ensures i <= |s| && (i < |s| ==> s[i] == c) && forall k :: 0 <= k < i ==> s[k] != c
  {
    if s == [] then 0 else if s[0] == c then 0 else 1 + IndexOf(s[1..], c)
  }

  datatype Decimal = Decimal(whole: string, fraction: string)

  predicate Canonical(d: Decimal) {
    |d.whole| > 0 && IsDigits(d.whole) && IsDigits(d.fraction)
  }

  /** Digits, optionally a point and more digits. */
  function MatchDecimal(s: string): (d: Option<Decimal>)
    ensures d.Some? ==> Canonical(d.value)
  {
    var dot := IndexOf(s, '.');
    if dot == |s| then if |s| > 0 && IsDigits(s) then Some(Decimal(s, "")) else None
    else if dot > 0 && dot + 1 < |s| && IsDigits(s[..dot]) && IsDigits(s[dot + 1..])
      then Some(Decimal(s[..dot], s[dot + 1..])) else None
  }

  function MatchExponent(s: string): Option<int> {
    var negative := |s| > 0 && s[0] == '-';
    var digits := if |s| > 0 && (s[0] == '-' || s[0] == '+') then s[1..] else s;
    if |digits| == 0 || !IsDigits(digits) then None
    else Some(if negative then -(NatOf(digits) as int) else NatOf(digits))
  }

  /** The first `scale` digits of a fraction, padded with zeros. */
  function Fraction(digits: string, scale: nat): (n: nat)
    requires IsDigits(digits)
  {
    NatOf((digits + Zeros(scale))[..scale])
  }

  function ScaledParts(integerDigits: string, fractionalDigits: string, scale: nat): nat
    requires IsDigits(integerDigits) && IsDigits(fractionalDigits)
  {
    NatOf(integerDigits) * Pow10(scale) + Fraction(fractionalDigits, scale)
  }

  function DecimalToScaled(d: Decimal, scale: nat): nat
    requires Canonical(d)
  {
    ScaledParts(d.whole, d.fraction, scale)
  }

  function ScientificToScaled(d: Decimal, exponent: int, scale: nat): nat
    requires Canonical(d)
  {
    var digits := d.whole + d.fraction;
    var point := |d.whole| + exponent;
    var shifted := if point <= 0 then Zeros(-point) + digits
      else if point >= |digits| then digits + Zeros(point - |digits|) else digits;
    var integerDigits := if point <= 0 then "0" else shifted[..point];
    var fractionalDigits := if point <= 0 then shifted else shifted[point..];
    ScaledParts(integerDigits, fractionalDigits, scale)
  }

  function UsdTextToNano(s: string): Option<nat> {
    var e := IndexOf(s, 'e');
    if 'E' in s then None
    else if e < |s| then
      var mantissa, exponent := MatchDecimal(s[..e]), MatchExponent(s[e + 1..]);
      if mantissa.None? || exponent.None? then None
      else Bounded(ScientificToScaled(mantissa.value, exponent.value, SCALE))
    else
      var decimal := MatchDecimal(s);
      if decimal.None? then None else Bounded(DecimalToScaled(decimal.value, SCALE))
  }

  function Bounded(n: nat): Option<nat> {
    if n > MAX_COST_USD_NANO then None else Some(n)
  }

  // ---------- Both compute the floor of the exact value ----------

  /** The leading digits of a fraction are the integer part of its scaled value. */
  lemma FractionIsFloor(digits: string, scale: nat)
    requires IsDigits(digits)
    ensures IntegerPart(Fraction(digits, scale), NatOf(digits) * Pow10(scale), Pow10(|digits|))
  {
    hide Pow10;
    var f := |digits|;
    if f <= scale {
      assert (digits + Zeros(scale))[..scale] == digits + Zeros(scale - f);
      NatConcat(digits, Zeros(scale - f));
      NatZeros(scale - f);
      hide NatOf;
      PowAdd(scale - f, f);
      Assoc(NatOf(digits), Pow10(scale - f), Pow10(f));
      IntegerPartOfWhole(NatOf(digits) * Pow10(scale - f), Pow10(f));
    } else {
      assert (digits + Zeros(scale))[..scale] == digits[..scale];
      assert digits == digits[..scale] + digits[scale..];
      NatConcat(digits[..scale], digits[scale..]);
      NatBound(digits[scale..]);
      hide NatOf;
      PowAdd(f - scale, scale);
      Truncated(NatOf(digits[..scale]), NatOf(digits[scale..]), Pow10(f - scale), Pow10(scale));
    }
  }

  lemma Truncated(head: nat, tail: nat, p: nat, q: nat)
    requires tail < p && q > 0
    ensures IntegerPart(head, (head * p + tail) * q, p * q)
  {
    Assoc(head, p, q);
    MulMono(tail + 1, p, q);
    assert (head * p + tail) * q == head * p * q + tail * q;
  }

  /** Whole digits pass through the floor unharmed. */
  lemma WholeAndFraction(whole: nat, fraction: nat, n: nat, p: nat, q: nat)
    requires IntegerPart(n, fraction * q, p)
    ensures IntegerPart(whole * q + n, (whole * p + fraction) * q, p)
  {
    assert (whole * p + fraction) * q == whole * p * q + fraction * q;
    Assoc(whole, p, q);
    assert (whole * q + n) * p == whole * q * p + n * p;
  }

  lemma FloorOfSplit(whole: nat, fraction: nat, n: nat, digits: nat, length: nat, scale: nat)
    requires IntegerPart(n, fraction * Pow10(scale), Pow10(length)) && digits == whole * Pow10(length) + fraction
    requires Pow10(0) == 1
    ensures IsFloor(whole * Pow10(scale) + n, digits, -(length as int), scale)
  {
    hide Pow10;
    WholeAndFraction(whole, fraction, n, Pow10(length), Pow10(scale));
    if length == 0 {
      Undivided(whole * Pow10(scale) + n, digits, Pow10(scale));
    }
  }

  lemma FloorOfParts(whole: string, fraction: string, scale: nat)
    requires IsDigits(whole) && IsDigits(fraction) && IsDigits(whole + fraction)
    requires IntegerPart(Fraction(fraction, scale), NatOf(fraction) * Pow10(scale), Pow10(|fraction|))
    requires NatOf(whole + fraction) == NatOf(whole) * Pow10(|fraction|) + NatOf(fraction)
    ensures IsFloor(ScaledParts(whole, fraction, scale), NatOf(whole + fraction), -|fraction|, scale)
  {
    assert Pow10(0) == 1;
    hide Pow10, NatOf, Fraction, IsFloor, IntegerPart;
    FloorOfSplit(NatOf(whole), NatOf(fraction), Fraction(fraction, scale), NatOf(whole + fraction), |fraction|, scale);
  }

  lemma SplitIsFloor(whole: string, fraction: string, scale: nat)
    requires IsDigits(whole) && IsDigits(fraction)
    ensures IsDigits(whole + fraction)
    ensures IsFloor(ScaledParts(whole, fraction, scale), NatOf(whole + fraction), -|fraction|, scale)
  {
    hide Pow10, NatOf, Fraction, IsFloor, IntegerPart, ScaledParts;
    NatConcat(whole, fraction);
    FractionIsFloor(fraction, scale);
    FloorOfParts(whole, fraction, scale);
  }

  lemma Undivided(n: nat, digits: nat, q: nat)
    requires IntegerPart(n, digits * q, 1)
    ensures n == digits * 1 * q
  {
  }

  lemma DecimalIsFloor(d: Decimal, scale: nat)
    requires Canonical(d)
    ensures IsDigits(d.whole + d.fraction)
    ensures IsFloor(DecimalToScaled(d, scale), NatOf(d.whole + d.fraction), -|d.fraction|, scale)
  {
    SplitIsFloor(d.whole, d.fraction, scale);
  }

  lemma LeadingZeros(n: nat, digits: string)
    requires IsDigits(digits)
    ensures IsDigits("0" + (Zeros(n) + digits)) && NatOf("0" + (Zeros(n) + digits)) == NatOf(digits)
    ensures NatOf("0") == 0
  {
    NatConcat(Zeros(n), digits);
    NatZeros(n);
    NatConcat("0", Zeros(n) + digits);
    assert "0"[..0] == "";
    assert NatOf("0") == 0;
  }

  /** All three positions of the decimal point. */
  lemma ScientificIsFloor(d: Decimal, exponent: int, scale: nat)
    requires Canonical(d)
    ensures IsDigits(d.whole + d.fraction)
    ensures IsFloor(ScientificToScaled(d, exponent, scale), NatOf(d.whole + d.fraction), exponent - |d.fraction|, scale)
  {
    hide Pow10, NatOf, Fraction;
    var digits := d.whole + d.fraction;
    var point := |d.whole| + exponent;
    if point <= 0 {
      LeadingZeros(-point, digits);
      SplitIsFloor("0", Zeros(-point) + digits, scale);
    } else if point >= |digits| {
      TrailingZeros(digits, point - |digits|, scale);
      var shifted := digits + Zeros(point - |digits|);
      assert shifted[..point] == shifted && shifted[point..] == "";
    } else {
      assert digits == digits[..point] + digits[point..];
      SplitIsFloor(digits[..point], digits[point..], scale);
    }
  }

  lemma TrailingZeros(digits: string, k: nat, scale: nat)
    requires IsDigits(digits)
    ensures IsDigits(digits + Zeros(k)) && NatOf(digits + Zeros(k)) == NatOf(digits) * Pow10(k)
    ensures Fraction("", scale) == 0
  {
    NatConcat(digits, Zeros(k));
    NatZeros(k);
    NatZeros(scale);
    assert ("" + Zeros(scale))[..scale] == Zeros(scale);
  }

  /** Hence they agree wherever both apply to one number. */
  lemma ParsersAgree(d: Decimal, e: Decimal, exponent: int, scale: nat)
    requires Canonical(d) && Canonical(e) && IsDigits(d.whole + d.fraction) && IsDigits(e.whole + e.fraction)
    requires SameValue(NatOf(d.whole + d.fraction), -|d.fraction|, NatOf(e.whole + e.fraction), exponent - |e.fraction|)
    ensures DecimalToScaled(d, scale) == ScientificToScaled(e, exponent, scale)
  {
    DecimalIsFloor(d, scale);
    ScientificIsFloor(e, exponent, scale);
    FloorOfValue(DecimalToScaled(d, scale), NatOf(d.whole + d.fraction), -|d.fraction|,
                 ScientificToScaled(e, exponent, scale), NatOf(e.whole + e.fraction), exponent - |e.fraction|, scale);
  }
}
