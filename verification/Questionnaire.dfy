/** The combined questionnaire: one option for every way to answer all open questions. */
module Questionnaire {
  import opened EventJournal
  import opened Sorting

  datatype Choice = Choice(optionId: Id, text: Id)

  datatype Uncertainty = Uncertainty(uncertaintyId: Id, material: bool, options: seq<Choice>, recommendation: Id,
                                     question: Id, affectedScopes: set<Id>, dependentScopes: set<Id>)

  datatype Selection = Selection(uncertaintyId: Id, optionId: Id)

  datatype Bound = Within | TooManyQuestions | TooManyOptions

  // ---------- Canonical questionnaires ----------

  function OptionKey(): Choice -> Id { (c: Choice) => c.optionId }
  function QuestionKey(): Uncertainty -> Id { (u: Uncertainty) => u.uncertaintyId }

  function SortOptions(u: Uncertainty): Uncertainty {
    u.(options := Sorted(OptionKey(), u.options))
  }

  function AllOptions(us: seq<Uncertainty>): seq<Choice> {
    if us == [] then [] else AllOptions(us[..|us| - 1]) + us[|us| - 1].options
  }

  function EachSorted(us: seq<Uncertainty>): seq<Uncertainty> {
    seq(|us|, i requires 0 <= i < |us| => SortOptions(us[i]))
  }

  predicate Unambiguous(us: seq<Uncertainty>) {
    Distinct(QuestionKey(), us) && Distinct(OptionKey(), AllOptions(us))
  }

  /** Questions and options in order of their identities; duplicated identities are refused. */
  function CanonicalUncertainties(us: seq<Uncertainty>): (r: Option<seq<Uncertainty>>)
    ensures r.Some? ==> |r.value| == |us|
  {
    if Unambiguous(us) then Some(Sorted(QuestionKey(), EachSorted(us))) else None
  }

  lemma {:induction false} AllOptionsSnoc(us: seq<Uncertainty>, u: Uncertainty)
    ensures AllOptions(us + [u]) == AllOptions(us) + u.options
  {
    assert (us + [u])[..|us|] == us;
  }

  lemma {:induction false} AllOptionsOf(us: seq<Uncertainty>, vs: seq<Uncertainty>)
    requires multiset(us) == multiset(vs)
    ensures multiset(AllOptions(us)) == multiset(AllOptions(vs))
  {
    SameLength(us, vs);
    if us != [] {
      var k := Find(us, vs);
      var rest := vs[..k] + vs[k + 1..];
      AllOptionsOf(us[1..], rest);
      AllOptionsSplit(us, 0);
      AllOptionsSplit(vs, k);
      assert us[..0] + us[1..] == us[1..];
    }
  }

  lemma {:induction false} AllOptionsSplit(vs: seq<Uncertainty>, k: nat)
    requires k < |vs|
    ensures multiset(AllOptions(vs)) == multiset(AllOptions(vs[..k] + vs[k + 1..])) + multiset(vs[k].options)
    decreases |vs|
  {
    var n := |vs| - 1;
    if k == n {
      assert vs[..k] + vs[k + 1..] == vs[..n];
    } else {
      var front := vs[..n];
      var rest := front[..k] + front[k + 1..];
      AllOptionsSplit(front, k);
      DropMiddle(vs, k);
      AllOptionsSnoc(rest, vs[n]);
    }
  }

  /** The order in which questions arrive does not matter. */
  lemma QuestionOrderIsImmaterial(us: seq<Uncertainty>, vs: seq<Uncertainty>)
    requires multiset(us) == multiset(vs)
    ensures CanonicalUncertainties(us) == CanonicalUncertainties(vs)
  {
    AllOptionsOf(us, vs);
    if Unambiguous(us) {
      DistinctPermutes(QuestionKey(), us, vs);
      DistinctPermutes(OptionKey(), AllOptions(us), AllOptions(vs));
      EachSortedPermutes(us, vs);
      SameSorting(QuestionKey(), EachSorted(us), EachSorted(vs));
    } else if Unambiguous(vs) {
      DistinctPermutes(QuestionKey(), vs, us);
      DistinctPermutes(OptionKey(), AllOptions(vs), AllOptions(us));
    }
  }

  function SortedBag(us: seq<Uncertainty>): multiset<Uncertainty> {
    multiset(EachSorted(us))
  }

  lemma {:induction false} EachSortedPermutes(us: seq<Uncertainty>, vs: seq<Uncertainty>)
    requires multiset(us) == multiset(vs)
    ensures SortedBag(us) == SortedBag(vs)
  {
    hide SortedBag;
    SameLength(us, vs);
    if us != [] {
      var k := Find(us, vs);
      var rest := vs[..k] + vs[k + 1..];
      EachSortedPermutes(us[1..], rest);
      SortedBagWithout(us, 0);
      SortedBagWithout(vs, k);
      assert us[..0] + us[1..] == us[1..];
    }
  }

  lemma SortedBagWithout(us: seq<Uncertainty>, k: nat)
    requires k < |us|
    ensures SortedBag(us) == SortedBag(us[..k] + us[k + 1..]) + multiset{SortOptions(us[k])}
  {
    hide Sorted;
    var all := EachSorted(us);
    RemoveOne(all, k);
    assert EachSorted(us[..k] + us[k + 1..]) == all[..k] + all[k + 1..];
  }

  /** Nor does the order of the options within one question. */
  lemma OptionOrderIsImmaterial(us: seq<Uncertainty>, k: nat, options: seq<Choice>)
    requires k < |us| && multiset(options) == multiset(us[k].options)
    ensures CanonicalUncertainties(us[k := us[k].(options := options)]) == CanonicalUncertainties(us)
  {
    var vs := us[k := us[k].(options := options)];
    AllOptionsSplit(us, k);
    AllOptionsSplit(vs, k);
    assert us[..k] + us[k + 1..] == vs[..k] + vs[k + 1..];
    SameQuestions(us, vs);
    hide Distinct, AllOptions, Sorted;
    if Unambiguous(us) {
      DistinctPermutes(OptionKey(), AllOptions(us), AllOptions(vs));
      OptionsOfOneAreDistinct(us, k);
      SameSorting(OptionKey(), us[k].options, options);
      assert EachSorted(us) == EachSorted(vs);
    } else if Unambiguous(vs) {
      DistinctPermutes(OptionKey(), AllOptions(vs), AllOptions(us));
    }
  }

  lemma SameQuestions(us: seq<Uncertainty>, vs: seq<Uncertainty>)
    requires |us| == |vs| && forall i :: 0 <= i < |us| ==> us[i].uncertaintyId == vs[i].uncertaintyId
    ensures Distinct(QuestionKey(), us) <==> Distinct(QuestionKey(), vs)
  {
    assert forall i :: 0 <= i < |us| ==> QuestionKey()(us[i]) == QuestionKey()(vs[i]);
  }

  lemma {:induction false} OptionsOfOneAreDistinct(us: seq<Uncertainty>, k: nat)
    requires k < |us| && Distinct(OptionKey(), AllOptions(us))
    ensures Distinct(OptionKey(), us[k].options)
  {
    var n := |us| - 1;
    var front := AllOptions(us[..n]);
    assert AllOptions(us)[|front|..] == us[n].options && AllOptions(us)[..|front|] == front;
    if k == n {
      forall i, j | 0 <= i < j < |us[n].options|
        ensures OptionKey()(us[n].options[i]) != OptionKey()(us[n].options[j])
      {
        assert AllOptions(us)[|front| + i] == us[n].options[i] && AllOptions(us)[|front| + j] == us[n].options[j];
      }
    } else {
      forall i, j | 0 <= i < j < |front| ensures OptionKey()(front[i]) != OptionKey()(front[j]) {
        assert AllOptions(us)[i] == front[i] && AllOptions(us)[j] == front[j];
      }
      OptionsOfOneAreDistinct(us[..n], k);
    }
  }

  predicate HasOption(u: Uncertainty, optionId: Id) {
    exists c :: c in u.options && c.optionId == optionId
  }

  predicate SharesOption(u: Uncertainty, w: Uncertainty) {
    exists c :: c in u.options && HasOption(w, c.optionId)
  }

  lemma {:induction false} OptionsJoin(us: seq<Uncertainty>, c: Choice)
    ensures c in AllOptions(us) <==> exists i :: 0 <= i < |us| && c in us[i].options
  {
    if us != [] {
      OptionsJoin(us[..|us| - 1], c);
    }
  }

  lemma DistinctJoin(front: seq<Choice>, tail: seq<Choice>)
    ensures Distinct(OptionKey(), front + tail) <==>
              && Distinct(OptionKey(), front) && Distinct(OptionKey(), tail)
              && forall c, d :: c in front && d in tail ==> c.optionId != d.optionId
  {
    var all := front + tail;
    assert forall i :: 0 <= i < |front| ==> all[i] == front[i];
    assert forall i :: 0 <= i < |tail| ==> all[|front| + i] == tail[i];
    if Distinct(OptionKey(), all) {
      forall i, j | 0 <= i < j < |front| ensures OptionKey()(front[i]) != OptionKey()(front[j]) {
        assert OptionKey()(all[i]) != OptionKey()(all[j]);
      }
      forall i, j | 0 <= i < j < |tail| ensures OptionKey()(tail[i]) != OptionKey()(tail[j]) {
        assert OptionKey()(all[|front| + i]) != OptionKey()(all[|front| + j]);
      }
      forall c, d | c in front && d in tail ensures c.optionId != d.optionId {
        var i :| 0 <= i < |front| && front[i] == c;
        var j :| 0 <= j < |tail| && tail[j] == d;
        assert OptionKey()(all[i]) != OptionKey()(all[|front| + j]);
      }
    }
  }

  lemma {:induction false} OptionsApart(us: seq<Uncertainty>)
    ensures Distinct(OptionKey(), AllOptions(us)) <==>
              && (forall i :: 0 <= i < |us| ==> Distinct(OptionKey(), us[i].options))
              && forall i, j :: 0 <= i < j < |us| ==> !SharesOption(us[i], us[j])
  {
    if us != [] {
      var n := |us| - 1;
      var front, last := us[..n], us[n];
      OptionsApart(front);
      DistinctJoin(AllOptions(front), last.options);
      forall c ensures c in AllOptions(front) <==> exists i :: 0 <= i < n && c in us[i].options {
        OptionsJoin(front, c);
        assert forall i :: 0 <= i < n ==> front[i] == us[i];
      }
      assert (forall c, d :: c in AllOptions(front) && d in last.options ==> c.optionId != d.optionId) <==>
             forall i :: 0 <= i < n ==> !SharesOption(us[i], last);
      assert forall i :: 0 <= i < n ==> front[i] == us[i];
      hide SharesOption, Distinct, AllOptions;
    }
  }

  /** A questionnaire is refused exactly when two questions, or two options of one or of different questions, bear the
    * same identity. */
  lemma CanonicalExactly(us: seq<Uncertainty>)
    ensures CanonicalUncertainties(us).Some? <==>
              && (forall i, j :: 0 <= i < j < |us| ==> us[i].uncertaintyId != us[j].uncertaintyId)
              && (forall i, a, b :: 0 <= i < |us| && 0 <= a < b < |us[i].options| ==>
                    us[i].options[a].optionId != us[i].options[b].optionId)
              && forall i, j :: 0 <= i < j < |us| ==> !SharesOption(us[i], us[j])
  {
    OptionsApart(us);
    hide AllOptions, SharesOption, Sorted;
    assert forall i :: 0 <= i < |us| ==>
      (Distinct(OptionKey(), us[i].options) <==>
        forall a, b :: 0 <= a < b < |us[i].options| ==> us[i].options[a].optionId != us[i].options[b].optionId);
    assert Distinct(QuestionKey(), us) <==>
           forall i, j :: 0 <= i < j < |us| ==> us[i].uncertaintyId != us[j].uncertaintyId;
  }

  // ---------- The bound ----------

  function Product(us: seq<Uncertainty>): nat {
    if us == [] then 1 else Product(us[..|us| - 1]) * |us[|us| - 1].options|
  }

  predicate Answerable(us: seq<Uncertainty>, maxOptions: nat) {
    forall i :: 0 <= i < |us| ==> 1 <= |us[i].options| <= maxOptions
  }

  /** What the guard decides, stated on the true product. */
  predicate Fits(us: seq<Uncertainty>, maxQuestions: nat, maxOptions: nat, maxCombined: nat) {
    |us| <= maxQuestions && Answerable(us, maxOptions) && (us == [] || Product(us) <= maxCombined)
  }

  lemma {:induction false} ProductGrows(us: seq<Uncertainty>, k: nat)
    requires k <= |us| && forall i :: k <= i < |us| ==> |us[i].options| >= 1
    ensures Product(us[..k]) <= Product(us)
    decreases |us|
  {
    if k == |us| {
      assert us[..k] == us;
    } else {
      var front := us[..|us| - 1];
      assert front[..k] == us[..k];
      ProductGrows(front, k);
      MultiplyGrows(Product(front), |us[|us| - 1].options|);
    }
  }

  lemma MultiplyGrows(a: nat, b: nat)
    requires b >= 1
    ensures a <= a * b
  {
  }

  lemma DivisionGuard(product: nat, cap: nat, count: nat)
    requires count >= 1
    ensures product > cap / count <==> product * count > cap
  {
    var q := cap / count;
    assert q * count <= cap < (q + 1) * count;
    if product > q {
      assert product * count >= (q + 1) * count;
    } else {
      assert product * count <= q * count;
    }
  }

  /** The division keeps every intermediate product within the cap, and the verdict is exact. */
  method QuestionnaireBoundReason(us: seq<Uncertainty>, maxQuestions: nat, maxOptions: nat, maxCombined: nat)
    returns (verdict: Bound)
    ensures verdict == Within <==> Fits(us, maxQuestions, maxOptions, maxCombined)
    ensures verdict == TooManyQuestions <==> |us| > maxQuestions
  {
    if |us| > maxQuestions {
      return TooManyQuestions;
    }
    var product := 1;
    for k := 0 to |us|
      invariant product == Product(us[..k]) && (k == 0 || product <= maxCombined)
      invariant forall i :: 0 <= i < k ==> 1 <= |us[i].options| <= maxOptions
    {
      var count := |us[k].options|;
      if count > maxOptions || count == 0 {
        return TooManyOptions;
      }
      DivisionGuard(product, maxCombined, count);
      assert us[..k + 1][..k] == us[..k];
      if product > maxCombined / count {
        if Answerable(us, maxOptions) {
          ProductGrows(us, k + 1);
        }
        return TooManyOptions;
      }
      product := product * count;
    }
    assert us[..|us|] == us;
    verdict := Within;
  }

  // ---------- The combinations ----------

  function Extensions(prefix: seq<Selection>, u: Uncertainty): (r: seq<seq<Selection>>)
    ensures |r| == |u.options|
  {
    seq(|u.options|, i requires 0 <= i < |u.options| => prefix + [Selection(u.uncertaintyId, u.options[i].optionId)])
  }

  function ExtendAll(prefixes: seq<seq<Selection>>, u: Uncertainty): (r: seq<seq<Selection>>)
    ensures |r| == |prefixes| * |u.options|
  {
    if prefixes == [] then []
    else ExtendAll(prefixes[..|prefixes| - 1], u) + Extensions(prefixes[|prefixes| - 1], u)
  }

  /** One choice vector per way of answering every question. */
  function Vectors(us: seq<Uncertainty>): (r: seq<seq<Selection>>)
    ensures |r| == Product(us)
  {
    if us == [] then [[]] else ExtendAll(Vectors(us[..|us| - 1]), us[|us| - 1])
  }

  /** `v` answers every question of `us`, in order, with one of its options. */
  predicate Answers(v: seq<Selection>, us: seq<Uncertainty>) {
    |v| == |us| && forall i :: 0 <= i < |us| ==> Selects(v[i], us[i])
  }

  predicate Selects(s: Selection, u: Uncertainty) {
    s.uncertaintyId == u.uncertaintyId && exists j :: 0 <= j < |u.options| && u.options[j].optionId == s.optionId
  }

  lemma {:induction false} ExtendAllMembers(prefixes: seq<seq<Selection>>, u: Uncertainty, v: seq<Selection>)
    ensures v in ExtendAll(prefixes, u) <==>
            |v| > 0 && v[..|v| - 1] in prefixes && Selects(v[|v| - 1], u)
  {
    if prefixes != [] {
      var front, last := prefixes[..|prefixes| - 1], prefixes[|prefixes| - 1];
      ExtendAllMembers(front, u, v);
      var tail := Extensions(last, u);
      assert v in ExtendAll(prefixes, u) <==> v in ExtendAll(front, u) || v in tail;
      if v in tail {
        var i :| 0 <= i < |tail| && tail[i] == v;
        assert v[..|v| - 1] == last;
        assert v[|v| - 1] == Selection(u.uncertaintyId, u.options[i].optionId);
      }
      if |v| > 0 && v[..|v| - 1] == last && Selects(v[|v| - 1], u) {
        var j :| 0 <= j < |u.options| && u.options[j].optionId == v[|v| - 1].optionId;
        assert v == v[..|v| - 1] + [v[|v| - 1]];
        assert tail[j] == v;
      }
    }
  }

  lemma AnswersSnoc(v: seq<Selection>, us: seq<Uncertainty>)
    requires |v| > 0 && |us| > 0
    ensures Answers(v, us) <==>
              Answers(v[..|v| - 1], us[..|us| - 1]) && Selects(v[|v| - 1], us[|us| - 1])
  {
    hide Selects;
    var shorter, front := v[..|v| - 1], us[..|us| - 1];
    if Answers(shorter, front) {
      assert forall i :: 0 <= i < |front| ==> Selects(shorter[i], front[i]) && shorter[i] == v[i] && front[i] == us[i];
    }
  }

  /** The combinations are exactly the complete answers. */
  lemma {:induction false} VectorsAreTheAnswers(us: seq<Uncertainty>, v: seq<Selection>)
    ensures v in Vectors(us) <==> Answers(v, us)
  {
    hide Selects, ExtendAll, Product;
    if us != [] {
      var front, last := us[..|us| - 1], us[|us| - 1];
      ExtendAllMembers(Vectors(front), last, v);
      if |v| > 0 {
        VectorsAreTheAnswers(front, v[..|v| - 1]);
        AnswersSnoc(v, us);
      }
    }
  }

  predicate NoRepeats(vs: seq<seq<Selection>>) {
    forall i, j :: 0 <= i < j < |vs| ==> vs[i] != vs[j]
  }

  lemma {:induction false} ExtendAllNoRepeats(prefixes: seq<seq<Selection>>, u: Uncertainty)
    requires NoRepeats(prefixes) && Distinct(OptionKey(), u.options)
    ensures NoRepeats(ExtendAll(prefixes, u))
  {
    if prefixes != [] {
      var n := |prefixes| - 1;
      var front, last := prefixes[..n], prefixes[n];
      ExtendAllNoRepeats(front, u);
      var head, tail, all := ExtendAll(front, u), Extensions(last, u), ExtendAll(prefixes, u);
      forall i, j | 0 <= i < j < |all| ensures all[i] != all[j] {
        if j >= |head| {
          var b := j - |head|;
          assert all[j] == tail[b] && tail[b][..|tail[b]| - 1] == last;
          if i >= |head| {
            var a := i - |head|;
            assert all[i] == tail[a];
            assert tail[a][|last|].optionId == u.options[a].optionId
                   && tail[b][|last|].optionId == u.options[b].optionId;
            assert OptionKey()(u.options[a]) != OptionKey()(u.options[b]);
          } else {
            assert head[i] in head;
            ExtendAllMembers(front, u, head[i]);
            var m :| 0 <= m < |front| && front[m] == head[i][..|head[i]| - 1];
            assert prefixes[m] != prefixes[n];
          }
        }
      }
    }
  }

  /** No combination is offered twice. */
  lemma {:induction false} VectorsNoRepeats(us: seq<Uncertainty>)
    requires forall i :: 0 <= i < |us| ==> Distinct(OptionKey(), us[i].options)
    ensures NoRepeats(Vectors(us))
  {
    if us != [] {
      VectorsNoRepeats(us[..|us| - 1]);
      ExtendAllNoRepeats(Vectors(us[..|us| - 1]), us[|us| - 1]);
    }
  }

  /** The vector of the per-question recommendations. */
  function Recommended(us: seq<Uncertainty>): seq<Selection> {
    seq(|us|, i requires 0 <= i < |us| => Selection(us[i].uncertaintyId, us[i].recommendation))
  }

  predicate Recommends(u: Uncertainty) {
    exists j :: 0 <= j < |u.options| && u.options[j].optionId == u.recommendation
  }

  lemma RecommendedIsOffered(us: seq<Uncertainty>)
    requires forall i :: 0 <= i < |us| ==> Recommends(us[i])
    ensures Recommended(us) in Vectors(us)
  {
    VectorsAreTheAnswers(us, Recommended(us));
  }

  lemma ExtendOne(prefixes: seq<seq<Selection>>, k: nat, u: Uncertainty)
    requires k < |prefixes|
    ensures ExtendAll(prefixes[..k + 1], u) == ExtendAll(prefixes[..k], u) + Extensions(prefixes[k], u)
  {
    assert prefixes[..k + 1][..k] == prefixes[..k];
  }

  const MAX_OPTIONS := 16

  /** Refused before anything is allocated, or all combinations of the canonical questionnaire. */
  method CombinedQuestionnaireOptions(input: seq<Uncertainty>, maxCombined: nat)
    returns (r: Option<seq<seq<Selection>>>)
    ensures r == Combined(input, maxCombined)
    ensures r.Some? && input != [] ==> |r.value| <= maxCombined
  {
    var canonical := CanonicalUncertainties(input);
    if canonical.None? {
      return None;
    }
    var us := canonical.value;
    var verdict := QuestionnaireBoundReason(us, |us|, MAX_OPTIONS, maxCombined);
    if verdict != Within {
      return None;
    }
    var combinations: seq<seq<Selection>> := [[]];
    for n := 0 to |us|
      invariant combinations == Vectors(us[..n])
    {
      var extended: seq<seq<Selection>> := [];
      for k := 0 to |combinations|
        invariant extended == ExtendAll(combinations[..k], us[n])
      {
        ExtendOne(combinations, k, us[n]);
        extended := extended + Extensions(combinations[k], us[n]);
      }
      assert combinations[..|combinations|] == combinations;
      assert us[..n + 1][..n] == us[..n];
      combinations := extended;
    }
    assert us[..|us|] == us;
    r := Some(combinations);
  }

  function Combined(input: seq<Uncertainty>, maxCombined: nat): Option<seq<seq<Selection>>> {
    var canonical := CanonicalUncertainties(input);
    if canonical.None? || !Fits(canonical.value, |canonical.value|, MAX_OPTIONS, maxCombined) then None
    else Some(Vectors(canonical.value))
  }

  // ---------- Canonical form keeps the questions ----------

  lemma {:induction false} SortedMembers(us: seq<Uncertainty>, u: Uncertainty)
    ensures u in Sorted(QuestionKey(), us) <==> u in us
  {
    SortedSorts(QuestionKey(), us);
    assert u in multiset(us) <==> u in us;
  }

  /** The canonical form asks the same questions, with the same options. */
  lemma CanonicalAsksTheSame(us: seq<Uncertainty>, u: Uncertainty)
    requires CanonicalUncertainties(us).Some? && u in CanonicalUncertainties(us).value
    ensures exists w :: w in us && u == w.(options := u.options) && multiset(u.options) == multiset(w.options)
    ensures Distinct(OptionKey(), u.options) && Ascending(OptionKey(), u.options)
  {
    SortedMembers(EachSorted(us), u);
    var k :| 0 <= k < |us| && EachSorted(us)[k] == u;
    SortedSorts(OptionKey(), us[k].options);
    OptionsOfOneAreDistinct(us, k);
    DistinctPermutes(OptionKey(), us[k].options, u.options);
    assert us[k] in us && u == us[k].(options := u.options);
  }

  /** Whoever asks within the cap offers every complete answer exactly once, and nothing else. */
  lemma CombinedIsExact(input: seq<Uncertainty>, maxCombined: nat, v: seq<Selection>)
    requires Combined(input, maxCombined).Some?
    ensures var us := CanonicalUncertainties(input).value;
      && (v in Combined(input, maxCombined).value <==> Answers(v, us))
      && NoRepeats(Combined(input, maxCombined).value)
      && |Combined(input, maxCombined).value| == Product(us)
  {
    var us := CanonicalUncertainties(input).value;
    VectorsAreTheAnswers(us, v);
    forall i | 0 <= i < |us| ensures Distinct(OptionKey(), us[i].options) {
      assert us[i] in us;
      CanonicalAsksTheSame(input, us[i]);
    }
    VectorsNoRepeats(us);
  }

  /** Options are offered exactly for an unambiguous questionnaire with one to sixteen options per question and, if it
    * asks anything, no more complete answers than the cap. */
  lemma CombinedExactly(input: seq<Uncertainty>, maxCombined: nat)
    ensures Combined(input, maxCombined).Some? <==>
              && CanonicalUncertainties(input).Some?
              && var us := CanonicalUncertainties(input).value;
              && (forall u :: u in us ==> 1 <= |u.options| <= 16)
              && (us != [] ==> |Vectors(us)| <= maxCombined)
  {
    hide CanonicalUncertainties, Vectors, Product;
  }

  lemma {:induction false} AllOptionsSorted(us: seq<Uncertainty>)
    ensures multiset(AllOptions(EachSorted(us))) == multiset(AllOptions(us))
  {
    if us != [] {
      var n := |us| - 1;
      AllOptionsSorted(us[..n]);
      assert EachSorted(us)[..n] == EachSorted(us[..n]);
      SortedSorts(OptionKey(), us[n].options);
    }
  }

  lemma EachSortedIsFixed(us: seq<Uncertainty>)
    requires Unambiguous(us)
    ensures Unambiguous(EachSorted(us)) && EachSorted(EachSorted(us)) == EachSorted(us)
  {
    var es := EachSorted(us);
    AllOptionsSorted(us);
    DistinctPermutes(OptionKey(), AllOptions(us), AllOptions(es));
    forall i, j | 0 <= i < j < |es| ensures QuestionKey()(es[i]) != QuestionKey()(es[j]) {
      assert QuestionKey()(us[i]) != QuestionKey()(us[j]);
    }
    forall i | 0 <= i < |us| ensures SortOptions(es[i]) == es[i] {
      OptionsOfOneAreDistinct(us, i);
      SortedSorts(OptionKey(), us[i].options);
      SameSorting(OptionKey(), us[i].options, es[i].options);
    }
  }

  /** The canonical form of a canonical questionnaire is itself. */
  lemma CanonicalIsFixed(us: seq<Uncertainty>)
    requires CanonicalUncertainties(us).Some?
    ensures CanonicalUncertainties(CanonicalUncertainties(us).value) == CanonicalUncertainties(us)
  {
    var es := EachSorted(us);
    EachSortedIsFixed(us);
    SortedSorts(QuestionKey(), es);
    QuestionOrderIsImmaterial(es, Sorted(QuestionKey(), es));
  }
}
