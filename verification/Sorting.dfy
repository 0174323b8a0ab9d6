/** Stable sorting by a numeric key. */
module Sorting {
  import opened EventJournal

  function Insert<T>(key: T -> Id, x: T, s: seq<T>): (r: seq<T>)
    ensures |r| == |s| + 1
  {
    if s == [] then [x]
    else if key(x) < key(s[0]) then [x] + s
    else [s[0]] + Insert(key, x, s[1..])
  }

  function Sorted<T>(key: T -> Id, s: seq<T>): (r: seq<T>)
    ensures |r| == |s|
  {
    if s == [] then [] else Insert(key, s[|s| - 1], Sorted(key, s[..|s| - 1]))
  }

  predicate Ascending<T>(key: T -> Id, s: seq<T>) {
    forall i, j :: 0 <= i < j < |s| ==> key(s[i]) <= key(s[j])
  }

  predicate Distinct<T>(key: T -> Id, s: seq<T>) {
    forall i, j :: 0 <= i < j < |s| ==> key(s[i]) != key(s[j])
  }

  lemma {:induction false} InsertPermutes<T>(key: T -> Id, x: T, s: seq<T>)
    ensures multiset(Insert(key, x, s)) == multiset(s) + multiset{x}
  {
    if s != [] && key(x) >= key(s[0]) {
      InsertPermutes(key, x, s[1..]);
      assert s == [s[0]] + s[1..];
    }
  }

  lemma Prepend<T>(key: T -> Id, x: T, s: seq<T>)
    requires Ascending(key, s) && forall y :: y in multiset(s) ==> key(x) <= key(y)
    ensures Ascending(key, [x] + s)
  {
    assert forall i :: 0 <= i < |s| ==> s[i] in multiset(s);
  }

  lemma {:induction false} InsertAscends<T>(key: T -> Id, x: T, s: seq<T>)
    requires Ascending(key, s)
    ensures Ascending(key, Insert(key, x, s))
  {
    if s != [] && key(x) >= key(s[0]) {
      InsertAscends(key, x, s[1..]);
      InsertPermutes(key, x, s[1..]);
      Prepend(key, s[0], Insert(key, x, s[1..]));
    }
  }

  lemma RemoveOne<T>(a: seq<T>, k: nat)
    requires k < |a|
    ensures multiset(a[..k] + a[k + 1..]) == multiset(a) - multiset{a[k]}
  {
    assert a == a[..k] + [a[k]] + a[k + 1..];
  }

  lemma {:induction false} SortedSorts<T>(key: T -> Id, s: seq<T>)
    ensures Ascending(key, Sorted(key, s)) && multiset(Sorted(key, s)) == multiset(s)
  {
    if s != [] {
      SortedSorts(key, s[..|s| - 1]);
      InsertPermutes(key, s[|s| - 1], Sorted(key, s[..|s| - 1]));
      InsertAscends(key, s[|s| - 1], Sorted(key, s[..|s| - 1]));
      assert s == s[..|s| - 1] + [s[|s| - 1]];
    }
  }

  /** Distinct keys leave one ascending arrangement only. */
  lemma {:induction false} AscendingIsUnique<T>(key: T -> Id, a: seq<T>, b: seq<T>)
    requires Ascending(key, a) && Ascending(key, b) && multiset(a) == multiset(b) && Distinct(key, a)
    ensures a == b
  {
    SameLength(a, b);
    if a != [] {
      SameHead(key, a, b);
      Behead(a);
      Behead(b);
      AscendingIsUnique(key, a[1..], b[1..]);
      assert a == [a[0]] + a[1..] && b == [b[0]] + b[1..];
    }
  }

  /** Where the first element of `a` went in the rearrangement `b`. */
  lemma Find<T>(a: seq<T>, b: seq<T>) returns (k: nat)
    requires multiset(a) == multiset(b) && |a| > 0
    ensures k < |b| && b[k] == a[0] && multiset(a[1..]) == multiset(b[..k] + b[k + 1..])
  {
    assert a[0] in multiset(b);
    k :| 0 <= k < |b| && b[k] == a[0];
    Behead(a);
    RemoveOne(b, k);
  }

  lemma DropMiddle<T>(a: seq<T>, k: nat)
    requires k < |a| - 1
    ensures var front := a[..|a| - 1];
      a[..k] + a[k + 1..] == (front[..k] + front[k + 1..]) + [a[|a| - 1]]
  {
  }

  lemma Behead<T>(a: seq<T>)
    requires |a| > 0
    ensures multiset(a[1..]) == multiset(a) - multiset{a[0]}
  {
    assert a == [a[0]] + a[1..];
  }

  lemma SameHead<T>(key: T -> Id, a: seq<T>, b: seq<T>)
    requires Ascending(key, a) && Ascending(key, b) && multiset(a) == multiset(b) && Distinct(key, a)
    requires |a| > 0 && |b| > 0
    ensures a[0] == b[0]
  {
    HeadIsLeast(key, a, b);
    HeadIsLeast(key, b, a);
    assert b[0] in multiset(a);
    var i :| 0 <= i < |a| && a[i] == b[0];
  }

  lemma SameLength<T>(a: seq<T>, b: seq<T>)
    requires multiset(a) == multiset(b)
    ensures |a| == |b|
  {
    assert |multiset(a)| == |a| && |multiset(b)| == |b|;
  }

  lemma HeadIsLeast<T>(key: T -> Id, a: seq<T>, b: seq<T>)
    requires Ascending(key, a) && multiset(a) == multiset(b) && |a| > 0
    ensures forall i :: 0 <= i < |b| ==> key(a[0]) <= key(b[i])
  {
    forall i | 0 <= i < |b| ensures key(a[0]) <= key(b[i]) {
      assert b[i] in multiset(a);
    }
  }

  lemma DistinctPermutes<T>(key: T -> Id, a: seq<T>, b: seq<T>)
    requires multiset(a) == multiset(b) && Distinct(key, a)
    ensures Distinct(key, b)
  {
    forall i, j | 0 <= i < j < |b| ensures key(b[i]) != key(b[j]) {
      if key(b[i]) == key(b[j]) {
        assert b[i] in multiset(a) && b[j] in multiset(a);
        assert b[i] == b[j];
        assert b == b[..i] + [b[i]] + b[i + 1..j] + [b[j]] + b[j + 1..];
        assert multiset(b)[b[i]] >= 2;
        OnceWhenDistinct(key, a, b[i]);
      }
    }
  }

  lemma {:induction false} OnceWhenDistinct<T>(key: T -> Id, a: seq<T>, x: T)
    requires Distinct(key, a)
    ensures multiset(a)[x] <= 1
  {
    if a != [] {
      OnceWhenDistinct(key, a[..|a| - 1], x);
      assert a == a[..|a| - 1] + [a[|a| - 1]];
    }
  }

  /** With distinct keys the order of arrival does not matter. */
  lemma SameSorting<T>(key: T -> Id, a: seq<T>, b: seq<T>)
    requires multiset(a) == multiset(b) && Distinct(key, a)
    ensures Sorted(key, a) == Sorted(key, b)
  {
    SortedSorts(key, a);
    SortedSorts(key, b);
    DistinctPermutes(key, a, Sorted(key, a));
    AscendingIsUnique(key, Sorted(key, a), Sorted(key, b));
  }

  lemma SortedIsFixed<T>(key: T -> Id, s: seq<T>)
    requires Ascending(key, s) && Distinct(key, s)
    ensures Sorted(key, s) == s
  {
    SortedSorts(key, s);
    AscendingIsUnique(key, s, Sorted(key, s));
  }
}
