/** Splitting a text on a mark and putting it together again. */
module TextSplit {

  predicate Without(s: string, c: char) {
    forall i :: 0 <= i < |s| ==> s[i] != c
  }

  function SplitOn(s: string, c: char): (parts: seq<string>)
    ensures |parts| >= 1
  {
    if s == "" then [""]
    else
      var rest := SplitOn(s[1..], c);
      if s[0] == c then [""] + rest else [[s[0]] + rest[0]] + rest[1..]
  }

  function Join(parts: seq<string>, c: char): string {
    if parts == [] then ""
    else if |parts| == 1 then parts[0]
    else parts[0] + [c] + Join(parts[1..], c)
  }

  lemma {:induction false} SplitPrefix(a: string, s: string, c: char)
    requires Without(a, c)
    ensures SplitOn(a + s, c) == [a + SplitOn(s, c)[0]] + SplitOn(s, c)[1..]
  {
    if a == "" {
      assert a + s == s && a + SplitOn(s, c)[0] == SplitOn(s, c)[0];
      assert [SplitOn(s, c)[0]] + SplitOn(s, c)[1..] == SplitOn(s, c);
    } else {
      assert (a + s)[1..] == a[1..] + s && (a + s)[0] == a[0];
      SplitPrefix(a[1..], s, c);
      var head := SplitOn(s, c)[0];
      assert [a[0]] + (a[1..] + head) == a + head;
    }
  }

  /** Splitting undoes joining. */
  lemma {:induction false} SplitJoin(parts: seq<string>, c: char)
    requires |parts| >= 1 && forall k :: 0 <= k < |parts| ==> Without(parts[k], c)
    ensures SplitOn(Join(parts, c), c) == parts
  {
    if |parts| == 1 {
      SplitPrefix(parts[0], "", c);
      assert parts[0] + "" == parts[0];
    } else {
      var rest := Join(parts[1..], c);
      SplitJoin(parts[1..], c);
      SplitPrefix(parts[0], [c] + rest, c);
      assert ([c] + rest)[1..] == rest;
      assert parts[0] + [c] + rest == parts[0] + ([c] + rest);
      assert SplitOn([c] + rest, c) == [""] + parts[1..];
      assert parts[0] + "" == parts[0] && [parts[0]] + parts[1..] == parts;
    }
  }

  /** Joining undoes splitting, and no part holds the mark. */
  lemma {:induction false} JoinSplit(s: string, c: char)
    ensures Join(SplitOn(s, c), c) == s
    ensures forall k :: 0 <= k < |SplitOn(s, c)| ==> Without(SplitOn(s, c)[k], c)
  {
    if s != "" {
      JoinSplit(s[1..], c);
      var rest, all := SplitOn(s[1..], c), SplitOn(s, c);
      if s[0] == c {
        assert all[1..] == rest;
      } else {
        assert all[1..] == rest[1..];
        if |rest| > 1 {
          assert all[0] + [c] + Join(rest[1..], c) == [s[0]] + (rest[0] + [c] + Join(rest[1..], c));
        }
      }
    }
  }

  // ---------- A doubled mark ----------

  predicate DoubledAt(s: string, c: char, i: nat) {
    i + 1 < |s| && s[i] == c && s[i + 1] == c
  }

  /** Where the mark first occurs twice in a row; the length of the text if it never does. */
  function Doubled(s: string, c: char): (i: nat)
    ensures i <= |s| && (i < |s| ==> DoubledAt(s, c, i))
    ensures forall k :: 0 <= k < i ==> !DoubledAt(s, c, k)
  {
    if s == "" then 0
    else if DoubledAt(s, c, 0) then 0
    else
      assert forall k :: 0 < k < |s| ==> (DoubledAt(s, c, k) <==> DoubledAt(s[1..], c, k - 1));
      1 + Doubled(s[1..], c)
  }

  /** The pieces around a doubled mark do not hold it and do not touch it. */
  predicate Smooth(s: string, c: char) {
    (forall k :: 0 <= k < |s| ==> !DoubledAt(s, c, k)) && (s != "" ==> s[|s| - 1] != c)
  }

  lemma DoubledBetween(a: string, b: string, c: char)
    requires Smooth(a, c)
    ensures Doubled(a + [c, c] + b, c) == |a|
  {
    var s := a + [c, c] + b;
    assert DoubledAt(s, c, |a|);
    forall k | 0 <= k < |a| ensures !DoubledAt(s, c, k) {
      assert k + 1 < |a| ==> !DoubledAt(a, c, k);
    }
  }

  lemma {:induction false} JoinIsSmooth(parts: seq<string>, c: char)
    requires forall k :: 0 <= k < |parts| ==> parts[k] != "" && Without(parts[k], c)
    ensures Smooth(Join(parts, c), c)
    ensures parts != [] ==> Join(parts, c) != "" && Join(parts, c)[0] != c
  {
    if |parts| > 1 {
      var rest := Join(parts[1..], c);
      JoinIsSmooth(parts[1..], c);
      var s := parts[0] + [c] + rest;
      var n := |parts[0]|;
      forall k | 0 <= k < |s| ensures !DoubledAt(s, c, k) {
        if k > n {
          assert DoubledAt(s, c, k) ==> DoubledAt(rest, c, k - n - 1);
        }
      }
    }
  }
}
