/** The names of streams: texts built from identities, and back. */
module StreamNames {
  import opened EventJournal
  import opened TextSplit

  // ---------- Identities ----------

  predicate IsAlphanumeric(c: char) {
    'A' <= c <= 'Z' || 'a' <= c <= 'z' || '0' <= c <= '9'
  }

  const MAX_ID := 256

  predicate IsId(s: string) {
    && 1 <= |s| <= MAX_ID && IsAlphanumeric(s[0])
    && forall i :: 0 <= i < |s| ==> IsAlphanumeric(s[i]) || s[i] in {'.', '_', ':', '-'}
  }

  // ---------- Section 5 of RFC 4648, without padding ----------

  predicate IsSextet(c: char) {
    IsAlphanumeric(c) || c == '-' || c == '_'
  }

  function Sextet(n: nat): (c: char)
    requires n < 64
    ensures IsSextet(c)
  {
    if n < 26 then 'A' + n as char
    else if n < 52 then 'a' + (n - 26) as char
    else if n < 62 then '0' + (n - 52) as char
    else if n == 62 then '-' else '_'
  }

  function SextetValue(c: char): (n: nat)
    requires IsSextet(c)
    ensures n < 64
  {
    if 'A' <= c <= 'Z' then (c - 'A') as int
    else if 'a' <= c <= 'z' then 26 + (c - 'a') as int
    else if '0' <= c <= '9' then 52 + (c - '0') as int
    else if c == '-' then 62 else 63
  }

  predicate IsBytes(bytes: seq<nat>) {
    forall i :: 0 <= i < |bytes| ==> bytes[i] < 256
  }

  predicate IsSextets(s: string) {
    forall i :: 0 <= i < |s| ==> IsSextet(s[i])
  }

  // Three bytes a, b, c as four sextets, and the bytes of four sextets x, y, z, w.

  function Sextet0(a: nat): (n: nat)
    requires a < 256
    ensures n < 64
  {
    a / 4
  }

  function Sextet1(a: nat, b: nat): (n: nat)
    requires a < 256 && b < 256
    ensures n < 64
  {
    a % 4 * 16 + b / 16
  }

  function Sextet2(b: nat, c: nat): (n: nat)
    requires b < 256 && c < 256
    ensures n < 64
  {
    b % 16 * 4 + c / 64
  }

  function Sextet3(c: nat): (n: nat)
    ensures n < 64
  {
    c % 64
  }

  function Byte0(x: nat, y: nat): (a: nat)
    requires x < 64 && y < 64
    ensures a < 256
  {
    x * 4 + y / 16
  }

  function Byte1(y: nat, z: nat): (b: nat)
    requires y < 64 && z < 64
    ensures b < 256
  {
    y % 16 * 16 + z / 4
  }

  function Byte2(z: nat, w: nat): (c: nat)
    requires z < 64 && w < 64
    ensures c < 256
  {
    z % 4 * 64 + w
  }

  /** Missing bytes of the last group count as zero and get no sextet of their own. */
  function Encode(bytes: seq<nat>): (s: string)
    requires IsBytes(bytes)
    ensures IsSextets(s)
  {
    if bytes == [] then ""
    else if |bytes| == 1 then [Sextet(Sextet0(bytes[0])), Sextet(Sextet1(bytes[0], 0))]
    else if |bytes| == 2 then
      [Sextet(Sextet0(bytes[0])), Sextet(Sextet1(bytes[0], bytes[1])), Sextet(Sextet2(bytes[1], 0))]
    else
      [Sextet(Sextet0(bytes[0])), Sextet(Sextet1(bytes[0], bytes[1])), Sextet(Sextet2(bytes[1], bytes[2])),
       Sextet(Sextet3(bytes[2]))] + Encode(bytes[3..])
  }

  /** The lenient decoder: leftover bits and a single leftover character are dropped. */
  function Decode(s: string): (bytes: seq<nat>)
    requires IsSextets(s)
    ensures IsBytes(bytes)
  {
    if |s| < 2 then []
    else
      var x, y := SextetValue(s[0]), SextetValue(s[1]);
      if |s| == 2 then [Byte0(x, y)]
      else
        var z := SextetValue(s[2]);
        if |s| == 3 then [Byte0(x, y), Byte1(y, z)]
        else [Byte0(x, y), Byte1(y, z), Byte2(z, SextetValue(s[3]))] + Decode(s[4..])
  }

  lemma SextetBack(n: nat)
    requires n < 64
    ensures SextetValue(Sextet(n)) == n
  {
  }

  lemma BytesBack(a: nat, b: nat, c: nat)
    requires a < 256 && b < 256 && c < 256
    ensures Byte0(Sextet0(a), Sextet1(a, b)) == a
    ensures Byte1(Sextet1(a, b), Sextet2(b, c)) == b
    ensures Byte2(Sextet2(b, c), Sextet3(c)) == c
    ensures SextetValue(Sextet(Sextet0(a))) == Sextet0(a) && SextetValue(Sextet(Sextet1(a, b))) == Sextet1(a, b)
    ensures SextetValue(Sextet(Sextet2(b, c))) == Sextet2(b, c) && SextetValue(Sextet(Sextet3(c))) == Sextet3(c)
  {
    hide Sextet, SextetValue;
    SextetBack(Sextet0(a));
    SextetBack(Sextet1(a, b));
    SextetBack(Sextet2(b, c));
    SextetBack(Sextet3(c));
  }

  lemma {:induction false} DecodeEncode(bytes: seq<nat>)
    requires IsBytes(bytes)
    ensures Decode(Encode(bytes)) == bytes
    ensures bytes != [] ==> Encode(bytes) != ""
  {
    hide Sextet, SextetValue, Sextet0, Sextet1, Sextet2, Sextet3, Byte0, Byte1, Byte2;
    if bytes != [] {
      BytesBack(bytes[0], if |bytes| > 1 then bytes[1] else 0, if |bytes| > 2 then bytes[2] else 0);
    }
    if |bytes| >= 3 {
      DecodeEncode(bytes[3..]);
      assert Encode(bytes)[4..] == Encode(bytes[3..]);
      assert bytes == [bytes[0], bytes[1], bytes[2]] + bytes[3..];
    }
  }

  // ---------- The encoding, bit by bit ----------

  /** Bit `j` of a byte, the most significant first. */
  function BitOf(byte: nat, j: nat): (bit: nat)
    requires j < 8
    ensures bit < 2
    decreases 8 - j
  {
    if j == 7 then byte % 2 else BitOf(byte / 2, j + 1)
  }

  /** Bit `j` of the bytes; zero past the last one. */
  function Bit(bytes: seq<nat>, j: nat): (bit: nat)
    ensures bit < 2
  {
    if j / 8 < |bytes| then BitOf(bytes[j / 8], j % 8) else 0
  }

  function SixBits(bytes: seq<nat>, j: nat): (n: nat)
    ensures n < 64
  {
    32 * Bit(bytes, j) + 16 * Bit(bytes, j + 1) + 8 * Bit(bytes, j + 2) + 4 * Bit(bytes, j + 3)
    + 2 * Bit(bytes, j + 4) + Bit(bytes, j + 5)
  }

  /** The number that the first `n` bits of a byte make. */
  function Leading(byte: nat, n: nat): nat
    requires n <= 8
  {
    if n == 0 then 0 else 2 * Leading(byte, n - 1) + BitOf(byte, n - 1)
  }

  const POWERS: seq<nat> := [256, 128, 64, 32, 16, 8, 4, 2, 1]

  lemma BitAt(byte: nat, j: nat)
    requires j < 8
    ensures BitOf(byte, j) == byte / POWERS[j + 1] % 2
    decreases 8 - j
  {
    if j < 7 {
      BitAt(byte / 2, j + 1);
      assert byte / POWERS[j + 1] == byte / 2 / POWERS[j + 2];
    }
  }

  lemma Halved(byte: nat, n: nat)
    requires 1 <= n <= 8
    ensures byte / POWERS[n] / 2 == byte / POWERS[n - 1]
  {
    match n
    case 1 =>
    case 2 =>
    case _ =>
  }

  lemma LeadingIsQuotient(byte: nat, n: nat)
    requires byte < 256 && n <= 8
    ensures Leading(byte, n) == byte / POWERS[n]
  {
    if n > 0 {
      LeadingIsQuotient(byte, n - 1);
      BitAt(byte, n - 1);
      Halved(byte, n);
    }
  }

  lemma ByteBits(a: nat)
    requires a < 256
    ensures a / 4 == 32 * BitOf(a, 0) + 16 * BitOf(a, 1) + 8 * BitOf(a, 2) + 4 * BitOf(a, 3) + 2 * BitOf(a, 4)
                     + BitOf(a, 5)
    ensures a % 4 == 2 * BitOf(a, 6) + BitOf(a, 7)
    ensures a / 16 == 8 * BitOf(a, 0) + 4 * BitOf(a, 1) + 2 * BitOf(a, 2) + BitOf(a, 3)
    ensures a % 16 == 8 * BitOf(a, 4) + 4 * BitOf(a, 5) + 2 * BitOf(a, 6) + BitOf(a, 7)
    ensures a / 64 == 2 * BitOf(a, 0) + BitOf(a, 1)
    ensures a % 64 == 32 * BitOf(a, 2) + 16 * BitOf(a, 3) + 8 * BitOf(a, 4) + 4 * BitOf(a, 5) + 2 * BitOf(a, 6)
                      + BitOf(a, 7)
  {
    hide BitOf;
    LeadingIsQuotient(a, 2);
    LeadingIsQuotient(a, 4);
    LeadingIsQuotient(a, 6);
    LeadingIsQuotient(a, 8);
    assert Leading(a, 2) == 2 * Leading(a, 1) + BitOf(a, 1) == 2 * BitOf(a, 0) + BitOf(a, 1);
    assert Leading(a, 4) == 2 * Leading(a, 3) + BitOf(a, 3) == 4 * Leading(a, 2) + 2 * BitOf(a, 2) + BitOf(a, 3);
    assert Leading(a, 6) == 2 * Leading(a, 5) + BitOf(a, 5) == 4 * Leading(a, 4) + 2 * BitOf(a, 4) + BitOf(a, 5);
    assert Leading(a, 8) == 2 * Leading(a, 7) + BitOf(a, 7) == 4 * Leading(a, 6) + 2 * BitOf(a, 6) + BitOf(a, 7);
  }

  lemma FirstGroup(bytes: seq<nat>, k: nat)
    requires IsBytes(bytes) && k < 4 && k <= |bytes| && bytes != []
    ensures SixBits(bytes, 6 * k) == match k
                                     case 0 => Sextet0(bytes[0])
                                     case 1 => Sextet1(bytes[0], if |bytes| > 1 then bytes[1] else 0)
                                     case 2 => Sextet2(bytes[1], if |bytes| > 2 then bytes[2] else 0)
                                     case _ => Sextet3(bytes[2])
  {
    hide BitOf;
    match k
    case 0 => ByteBits(bytes[0]);
    case 1 => SecondSextet(bytes);
    case 2 => ThirdSextet(bytes);
    case _ => ByteBits(bytes[2]);
  }

  lemma SecondSextet(bytes: seq<nat>)
    requires IsBytes(bytes) && bytes != []
    ensures SixBits(bytes, 6) == Sextet1(bytes[0], if |bytes| > 1 then bytes[1] else 0)
  {
    hide BitOf;
    ByteBits(bytes[0]);
    if |bytes| > 1 {
      ByteBits(bytes[1]);
    }
  }

  lemma ThirdSextet(bytes: seq<nat>)
    requires IsBytes(bytes) && |bytes| > 1
    ensures SixBits(bytes, 12) == Sextet2(bytes[1], if |bytes| > 2 then bytes[2] else 0)
  {
    hide BitOf;
    ByteBits(bytes[1]);
    if |bytes| > 2 {
      ByteBits(bytes[2]);
    }
  }

  lemma ShiftedBits(bytes: seq<nat>, j: nat)
    requires |bytes| >= 3
    ensures SixBits(bytes, j + 24) == SixBits(bytes[3..], j)
  {
    hide BitOf;
  }

  /** The encoding is the bits of the bytes in groups of six, each spelled in the alphabet of section 5. */
  lemma {:induction false} EncodesBits(bytes: seq<nat>)
    requires IsBytes(bytes)
    ensures |Encode(bytes)| == (8 * |bytes| + 5) / 6
    ensures forall k :: 0 <= k < |Encode(bytes)| ==> Encode(bytes)[k] == Sextet(SixBits(bytes, 6 * k))
  {
    hide SixBits, Sextet, Sextet0, Sextet1, Sextet2, Sextet3;
    if |bytes| >= 3 {
      EncodesBits(bytes[3..]);
    }
    forall k | 0 <= k < |Encode(bytes)| ensures Encode(bytes)[k] == Sextet(SixBits(bytes, 6 * k)) {
      if k < 4 {
        FirstGroup(bytes, k);
      } else {
        ShiftedBits(bytes, 6 * (k - 4));
        assert 6 * (k - 4) + 24 == 6 * k;
      }
    }
  }

  /** The ends of the alphabet's four ranges. */
  lemma AlphabetEnds()
    ensures Encode([1, 150, 179]) == "AZaz" && Encode([211, 223, 191]) == "09-_"
  {
    hide Encode;
    FourSextets(1, 150, 179);
    FourSextets(211, 223, 191);
  }

  lemma FourSextets(a: nat, b: nat, c: nat)
    requires a < 256 && b < 256 && c < 256
    ensures Encode([a, b, c]) ==
            [Sextet(Sextet0(a)), Sextet(Sextet1(a, b)), Sextet(Sextet2(b, c)), Sextet(Sextet3(c))]
  {
    EncodesFour(a, b, c, []);
    assert [a, b, c] + [] == [a, b, c];
  }

  lemma EncodesFour(a: nat, b: nat, c: nat, rest: seq<nat>)
    requires a < 256 && b < 256 && c < 256 && IsBytes(rest)
    ensures Encode([a, b, c] + rest) ==
            [Sextet(Sextet0(a)), Sextet(Sextet1(a, b)), Sextet(Sextet2(b, c)), Sextet(Sextet3(c))] + Encode(rest)
  {
    assert ([a, b, c] + rest)[3..] == rest;
  }

  // ---------- Components ----------

  function CodesOf(id: string): (bytes: seq<nat>)
    requires IsId(id)
    ensures IsBytes(bytes) && |bytes| == |id|
  {
    seq(|id|, i requires 0 <= i < |id| => id[i] as int)
  }

  function EncodeComponent(id: string): (s: string)
    requires IsId(id)
    ensures IsSextets(s)
  {
    Encode(CodesOf(id))
  }

  /** The identity a component stands for; `None` where it is none. */
  function DecodeComponent(s: string): (id: Option<string>)
    requires IsSextets(s)
    ensures id.Some? ==> IsId(id.value)
  {
    var bytes := Decode(s);
    if exists i :: 0 <= i < |bytes| && bytes[i] >= 128 then None
    else
      var text := seq(|bytes|, i requires 0 <= i < |bytes| => bytes[i] as char);
      if IsId(text) then Some(text) else None
  }

  lemma ComponentRoundTrip(id: string)
    requires IsId(id)
    ensures DecodeComponent(EncodeComponent(id)) == Some(id)
    ensures EncodeComponent(id) != "" && Without(EncodeComponent(id), '.')
  {
    var bytes := CodesOf(id);
    DecodeEncode(bytes);
    assert forall i :: 0 <= i < |id| ==> bytes[i] == id[i] as int < 128;
    assert seq(|bytes|, i requires 0 <= i < |bytes| => bytes[i] as char) == id;
    var s := EncodeComponent(id);
    assert forall i :: 0 <= i < |s| ==> IsSextet(s[i]);
  }

  // ---------- Decision attempts ----------

  const ATTEMPT := "decision-attempt"

  function Paired(a: string, b: string): string
    requires IsId(a) && IsId(b)
  {
    EncodeComponent(a) + "." + EncodeComponent(b)
  }

  function AttemptName(decisionId: string, commandId: string): string
    requires IsId(decisionId) && IsId(commandId)
  {
    ATTEMPT + ":" + Paired(decisionId, commandId)
  }

  /** The two identities in the name of an attempt; `None` where the code throws. */
  function ParseAttemptName(name: string): Option<(string, string)> {
    if !(ATTEMPT + ":" <= name) then None
    else
      var parts := SplitOn(name[|ATTEMPT| + 1..], '.');
      if |parts| != 2 || parts[0] == "" || parts[1] == "" || !IsSextets(parts[0]) || !IsSextets(parts[1]) then None
      else
        var d, c := DecodeComponent(parts[0]), DecodeComponent(parts[1]);
        if d.None? || c.None? || AttemptName(d.value, c.value) != name then None
        else Some((d.value, c.value))
  }

  lemma PairedSplits(a: string, b: string)
    requires IsId(a) && IsId(b)
    ensures SplitOn(Paired(a, b), '.') == [EncodeComponent(a), EncodeComponent(b)]
  {
    ComponentRoundTrip(a);
    ComponentRoundTrip(b);
    var parts := [EncodeComponent(a), EncodeComponent(b)];
    assert parts[1..] == [EncodeComponent(b)];
    SplitJoin(parts, '.');
    assert Join(parts, '.') == EncodeComponent(a) + ['.'] + EncodeComponent(b);
  }

  /** A name is read as two identities exactly when it was built from them: lenient decoding accepts no other
    * spelling. */
  lemma AttemptNameExactly(name: string, decisionId: string, commandId: string)
    ensures ParseAttemptName(name) == Some((decisionId, commandId)) <==>
            IsId(decisionId) && IsId(commandId) && name == AttemptName(decisionId, commandId)
  {
    if IsId(decisionId) && IsId(commandId) && name == AttemptName(decisionId, commandId) {
      ComponentRoundTrip(decisionId);
      ComponentRoundTrip(commandId);
      PairedSplits(decisionId, commandId);
      assert name[..|ATTEMPT| + 1] == ATTEMPT + ":";
      assert name[|ATTEMPT| + 1..] == Paired(decisionId, commandId);
    }
  }

  lemma AttemptNameExample()
    ensures IsId("run") && IsId("op.2") && AttemptName("run", "op.2") == "decision-attempt:cnVu.b3AuMg"
  {
    RunComponent();
    OperatorComponent();
    hide IsId, EncodeComponent;
  }

  lemma RunComponent()
    ensures IsId("run") && EncodeComponent("run") == "cnVu"
  {
    hide Encode;
    assert CodesOf("run") == [114, 117, 110];
    FourSextets(114, 117, 110);
  }

  lemma OperatorComponent()
    ensures IsId("op.2") && EncodeComponent("op.2") == "b3AuMg"
  {
    hide Encode;
    assert CodesOf("op.2") == [111, 112, 46] + [50];
    OperatorGroups();
  }

  lemma OperatorGroups()
    ensures Encode([111, 112, 46] + [50]) == "b3AuMg"
  {
    hide Encode;
    EncodesFour(111, 112, 46, [50]);
    LastByte(50);
  }

  lemma LastByte(c: nat)
    requires c < 256
    ensures Encode([c]) == [Sextet(Sextet0(c)), Sextet(Sextet1(c, 0))]
  {
  }

  // ---------- All names of the attention and analysis streams ----------

  datatype Name =
    | Decision(id: string) | Advisory(id: string) | Index(id: string) | Identity(id: string) | Run(id: string)
    | Analysis(id: string) | AnalysisBudget(id: string)
    | Attempt(id: string, other: string) | ApprovalReservation(id: string, other: string)

  predicate ValidName(n: Name) {
    IsId(n.id) && (n.Attempt? || n.ApprovalReservation? ==> IsId(n.other))
  }

  function Prefix(n: Name): string {
    match n
    case Decision(_) => "decision"
    case Advisory(_) => "attention"
    case Index(_) => "attention-index"
    case Identity(_) => "attention-identity"
    case Run(_) => "run"
    case Analysis(_) => "analysis"
    case AnalysisBudget(_) => "analysis-budget"
    case Attempt(_, _) => ATTEMPT
    case ApprovalReservation(_, _) => "approval-reservation"
  }

  function Body(n: Name): string
    requires ValidName(n)
  {
    match n
    case Decision(id) => id
    case Advisory(id) => id
    case Index(id) => id
    case Identity(id) => EncodeComponent(id)
    case Run(id) => id
    case Analysis(id) => id
    case AnalysisBudget(id) => id
    case Attempt(a, b) => Paired(a, b)
    case ApprovalReservation(a, b) => Paired(a, b)
  }

  function TextOf(n: Name): string
    requires ValidName(n)
  {
    Prefix(n) + ":" + Body(n)
  }

  lemma NamesSpelled(id: string, other: string)
    requires IsId(id) && IsId(other)
    ensures TextOf(Decision(id)) == "decision:" + id && TextOf(Advisory(id)) == "attention:" + id
    ensures TextOf(Index(id)) == "attention-index:" + id && TextOf(Run(id)) == "run:" + id
    ensures TextOf(Identity(id)) == "attention-identity:" + EncodeComponent(id)
    ensures TextOf(Analysis(id)) == "analysis:" + id && TextOf(AnalysisBudget(id)) == "analysis-budget:" + id
    ensures TextOf(Attempt(id, other)) == AttemptName(id, other)
    ensures TextOf(ApprovalReservation(id, other)) ==
            "approval-reservation:" + EncodeComponent(id) + "." + EncodeComponent(other)
  {
    hide EncodeComponent, IsId;
    assert "approval-reservation" + ":" + (EncodeComponent(id) + "." + EncodeComponent(other)) ==
           "approval-reservation:" + EncodeComponent(id) + "." + EncodeComponent(other);
  }

  lemma SameHeadAndTail(a: string, b: string, c: string, d: string)
    requires Without(a, ':') && Without(b, ':') && a + ":" + c == b + ":" + d
    ensures a == b && c == d
  {
    FirstPart(a, c);
    FirstPart(b, d);
    assert (a + ":" + c)[|a| + 1..] == c && (b + ":" + d)[|b| + 1..] == d;
  }

  lemma FirstPart(a: string, c: string)
    requires Without(a, ':')
    ensures SplitOn(a + ":" + c, ':')[0] == a
  {
    SplitPrefix(a, ":" + c, ':');
    assert a + ":" + c == a + (":" + c) && a + "" == a;
  }

  lemma PrefixesDiffer(x: Name, y: Name)
    ensures Without(Prefix(x), ':')
    ensures Prefix(x) == Prefix(y) ==>
              && (x.Decision? <==> y.Decision?) && (x.Advisory? <==> y.Advisory?) && (x.Index? <==> y.Index?)
              && (x.Identity? <==> y.Identity?) && (x.Run? <==> y.Run?) && (x.Analysis? <==> y.Analysis?)
              && (x.AnalysisBudget? <==> y.AnalysisBudget?) && (x.Attempt? <==> y.Attempt?)
              && (x.ApprovalReservation? <==> y.ApprovalReservation?)
  {
  }

  /** Different streams have different names: a name is as good as the kind of the stream and its identities. */
  lemma NamesAreInjective(x: Name, y: Name)
    requires ValidName(x) && ValidName(y) && TextOf(x) == TextOf(y)
    ensures x == y
  {
    PrefixesDiffer(x, y);
    PrefixesDiffer(y, x);
    SameHeadAndTail(Prefix(x), Prefix(y), Body(x), Body(y));
    if x.Attempt? || x.ApprovalReservation? {
      PairedSplits(x.id, x.other);
      PairedSplits(y.id, y.other);
      ComponentRoundTrip(x.other);
      ComponentRoundTrip(y.other);
    }
    if x.Attempt? || x.ApprovalReservation? || x.Identity? {
      ComponentRoundTrip(x.id);
      ComponentRoundTrip(y.id);
    }
  }
}
