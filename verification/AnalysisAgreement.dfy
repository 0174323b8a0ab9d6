/** The verifier and the writers: which completed analyses the strict replay accepts. */
module AnalysisAgreement {
  import opened EventJournal
  import opened Questionnaire
  import opened AnalysisModel
  import opened AnalysisSteps
  import opened AnalysisLedger
  import opened AnalysisProvenance
  import opened AnalysisVerifier

  function LastOf(observed: seq<Event>): Option<Event> {
    if observed == [] then None else Some(observed[|observed| - 1])
  }

  function LastQuestions(st: AnalysisState): seq<Uncertainty> {
    if st.observed == [] then [] else UncertaintiesOf(st.observed[|st.observed| - 1])
  }

  function KnownObservations(observed: seq<Event>): set<Id> {
    if observed == [] then {}
    else KnownObservations(observed[..|observed| - 1]) + Ids(ObservationsOf(observed[|observed| - 1]))
  }

  function KnownQuestions(observed: seq<Event>): set<Id> {
    if observed == [] then {}
    else KnownQuestions(observed[..|observed| - 1]) + Ids(QuestionIds(UncertaintiesOf(observed[|observed| - 1])))
  }

  /** What a writer could check before it commits, and the coordinator does not: identities new to all
    * rounds, a canonical questionnaire answered once, a reconciliation of the open reservation, and a
    * completion of a settled, observed, immaterial last round. */
  predicate Acceptable(st: AnalysisState, e: Event) {
    match e.payload
    case Observed(_, _, observations, uncertainties, _, _, _) =>
      NewTo(observations, KnownObservations(st.observed))
        && NewTo(QuestionIds(uncertainties), KnownQuestions(st.observed))
    case Revised(_, _, _) => !RoundAnswered(st) && CanonicalUncertainties(LastQuestions(st)) == Some(LastQuestions(st))
    case ReconciliationRequired(_, reservationEventId, _, _) =>
      st.reservation.Some? && st.reservation.value.eventId == reservationEventId
    case Completed(_, _, _, _, _, _, _) =>
      && st.reservation.None? && st.exhaustion.None? && CountObservations(st.observed) > 0
      && !HasMaterial(LastQuestions(st))
    case Cancelled(_, _) => false
    case Terminated(_, _, _, _, _) => false
    case _ => true
  }

  // ---------- What every prefix satisfies ----------

  predicate Counted(st: AnalysisState) {
    && |st.answers| <= |st.observed|
    && (|st.answers| > 0 ==> st.answers[|st.answers| - 1].decision.QuestionnaireEvidence?
                             && st.answers[|st.answers| - 1].decision.round <= |st.observed|)
    && (|st.answers| == |st.observed| && |st.observed| > 0 ==> RoundAnswered(st))
  }

  predicate Regular(st: AnalysisState) {
    && RoundsNumbered(st.observed) && Counted(st)
    && (st.started.Some? ==> st.started.value.Started?) && (st.started.Some? <==> st.budget.Some?)
    && (st.reservation.Some? ==> st.reservation.value.payload.Reserved? && st.exhaustion.None? && st.started.Some?)
    && (st.exhaustion.Some? ==> st.exhaustion.value.payload.Exhausted?)
  }

  lemma RegularStep(r: Id, st: AnalysisState, before: seq<Event>, e: Event)
    requires Regular(st) && LocalOk(r, st, before, e) && Advance(r, st, LastId(before), e, |before|).Some?
    ensures Regular(Advance(r, st, LastId(before), e, |before|).value)
  {
    hide CanonicalUncertainties, Combined, Meanings, SumUsage, Covers, StrictlyHigher, CountObservations, HasMaterial,
         Payloads;
  }

  lemma {:induction false} PrefixIsRegular(s: Streams, r: Id, a: seq<Event>, n: nat)
    requires n <= |a| && AnalysisAfter(r, a[..n]).Some? && forall m :: 0 <= m < n ==> Lawful(s, r, a, m)
    ensures Regular(AnalysisAfter(r, a[..n]).value)
  {
    if n > 0 {
      assert a[..n][..n - 1] == a[..n - 1];
      assert Lawful(s, r, a, n - 1);
      PrefixIsRegular(s, r, a, n - 1);
      RegularStep(r, AnalysisAfter(r, a[..n - 1]).value, a[..n - 1], a[n - 1]);
    }
  }

  // ---------- Lookups ----------

  /** `all` lists the events of the journal. */
  ghost predicate Enumerates(all: seq<Event>, s: Streams) {
    forall e :: e in all <==> exists x :: e in Read(s, x)
  }

  lemma FoundIsUnique(s: Streams, x: StreamId, y: StreamId, e: Event, f: Event)
    requires UniqueIds(s) && e in Read(s, x) && f in Read(s, y) && e.eventId == f.eventId
    ensures e == f && x == y
  {
    var i :| 0 <= i < |Read(s, x)| && Read(s, x)[i] == e;
    var j :| 0 <= j < |Read(s, y)| && Read(s, y)[j] == f;
  }

  lemma Findable(s: Streams, all: seq<Event>, x: StreamId, f: Event)
    requires UniqueIds(s) && Enumerates(all, s) && f in Read(s, x)
    ensures FindEvent(all, f.eventId) == Some(f)
  {
    assert f in all;
    var found := FindEvent(all, f.eventId);
    var y :| found.value in Read(s, y);
    FoundIsUnique(s, x, y, f, found.value);
  }

  lemma FindableHere(s: Streams, x: StreamId, f: Event)
    requires UniqueIds(s) && f in Read(s, x)
    ensures FindEvent(Read(s, x), f.eventId) == Some(f)
  {
    FoundIsUnique(s, x, x, f, FindEvent(Read(s, x), f.eventId).value);
  }

  /** Whatever charge the search returns, it is the one written with the observation. */
  lemma ChargeIsOwn(s: Streams, all: seq<Event>, r: Id, n: nat, c: Event)
    requires UniqueIds(s) && ChargesInPlace(s) && (forall q :: ChargesOk(s, q)) && Enumerates(all, s)
    requires n < |Analysis(s, r)| && c in all && ChargesFor(c, Analysis(s, r)[n].eventId)
    ensures Charged(r, Analysis(s, r), n, c)
  {
    hide AnalysisAfter, Charged, UniqueIds;
    var x :| c in Read(s, x);
    var i :| 0 <= i < |Read(s, x)| && Read(s, x)[i] == c;
    assert x.BudgetStream?;
    var q := x.runId;
    assert ChargesOk(s, q);
    var m :| 0 <= m < |Analysis(s, q)| && Analysis(s, q)[m].eventId == c.payload.analysisEventId
             && Charged(q, Analysis(s, q), m, c);
    SamePosition(s, AnalysisStream(q), m, AnalysisStream(r), n);
  }

  lemma ChargeIsExact(s: Streams, all: seq<Event>, r: Id, n: nat)
    requires UniqueIds(s) && ChargesInPlace(s) && (forall q :: ChargesOk(s, q)) && Enumerates(all, s)
    requires n < |Analysis(s, r)| && Analysis(s, r)[n].payload.Observed? && LookupOk(s, r, Analysis(s, r)[n])
    ensures AnalysisAfter(r, Analysis(s, r)[..n]).Some? && AnalysisAfter(r, Analysis(s, r)[..n]).value.reservation.Some?
    ensures AnalysisAfter(r, Analysis(s, r)[..n]).value.reservation.value.payload.Reserved?
    ensures ChargedExactly(all, r, Analysis(s, r)[n],
              AnalysisAfter(r, Analysis(s, r)[..n]).value.reservation.value.payload.reservationId)
  {
    hide AnalysisAfter, UniqueIds, ChargesInPlace, ChargesOk;
    var e := Analysis(s, r)[n];
    var f :| f in Read(s, BudgetStream(r)) && f.payload.BudgetCharged? && f.payload.analysisEventId == e.eventId;
    assert f in all && ChargesFor(f, e.eventId);
    ChargeIsOwn(s, all, r, n, FindCharge(all, e.eventId).value);
  }

  lemma SamePosition(s: Streams, x: StreamId, i: nat, y: StreamId, j: nat)
    requires UniqueIds(s) && i < |Read(s, x)| && j < |Read(s, y)| && Read(s, x)[i].eventId == Read(s, y)[j].eventId
    ensures x == y && i == j
  {
  }

  // ---------- One event ----------

  /** The verifier's state is the coordinator's. */
  predicate Same(st: AnalysisState, vs: VerifierState) {
    && vs.started == st.started && vs.budget == st.budget && vs.reservation == st.reservation
    && vs.last == LastOf(st.observed) && vs.rounds == |st.observed| && vs.observations == CountObservations(st.observed)
    && vs.totalUsage == SumUsage(st.observed) && (vs.completed.Some? <==> st.completed) && vs.exhausted == st.exhaustion
    && (vs.materialAnswered <==> !HasMaterial(LastQuestions(st)) || RoundAnswered(st))
    && vs.observationIds == KnownObservations(st.observed) && vs.uncertaintyIds == KnownQuestions(st.observed)
    && st.terminal.None? && !st.cancelled
  }

  /** The answer a writer recorded is the one the verifier demands, exactly when the questions are canonical. */
  lemma RevisionMatches(s: Streams, r: Id, st: AnalysisState, last: Event, e: Event)
    requires UniqueIds(s) && DecisionsOk(s) && e.payload.Revised? && LookupOk(s, r, e)
    requires RevisionOk(r, st, e.payload.round, e.payload.answer) && UnansweredMaterial(st) == Some(last)
    requires e.causationId == Some(e.payload.answer.decisionEventId) && last.payload.Observed?
    ensures AnswersRound(s, r, last, e) <==>
            CanonicalUncertainties(last.payload.uncertainties) == Some(last.payload.uncertainties)
  {
    var answer, us := e.payload.answer, last.payload.uncertainties;
    var es := Read(s, DecisionStream(answer.decision));
    hide CanonicalUncertainties, Combined, Meanings, UnansweredMaterial, UniqueIds;
    assert DecisionOk(es, answer.decision);
    assert es[1] in es;
    FindableHere(s, DecisionStream(answer.decision), es[1]);
    if CanonicalUncertainties(us) == Some(us) {
      SelectionsAnswer(us, answer.selections);
    }
  }

  lemma SelectionsAnswer(us: seq<Uncertainty>, v: seq<Selection>)
    requires CanonicalUncertainties(us) == Some(us) && Combined(us, COMBINATION_CAP).Some?
    requires v in Combined(us, COMBINATION_CAP).value
    ensures SelectionIds(v) == QuestionIds(us)
    ensures forall i :: 0 <= i < |v| ==> exists k :: 0 <= k < |us| && Selects(v[i], us[k])
  {
    CombinedIsExact(us, COMBINATION_CAP, v);
    hide CanonicalUncertainties, Combined;
    forall i | 0 <= i < |v| ensures exists k :: 0 <= k < |us| && Selects(v[i], us[k]) {
      assert Selects(v[i], us[i]);
    }
  }

  lemma BudgetRevisionMatches(s: Streams, all: seq<Event>, r: Id, st: AnalysisState, before: seq<Event>, e: Event)
    requires UniqueIds(s) && Contiguous(s) && Enumerates(all, s) && DecisionsOk(s)
    requires e.payload.BudgetRevised? && LookupOk(s, r, e) && LocalOk(r, st, before, e) && st.terminal.None?
    requires st.exhaustion.Some? && st.budget == Some(e.payload.priorBudget)
    requires e.payload.exhaustionEventId == st.exhaustion.value.eventId
             && e.causationId == Some(e.payload.decisionEventId)
    ensures RaisesBudget(s, all, r, st.exhaustion.value, st.budget.value, SumUsage(st.observed), e)
  {
    hide SumUsage, Covers, StrictlyHigher, UniqueIds;
    var d := e.payload.evidence;
    var es := Read(s, DecisionStream(d));
    assert DecisionOk(es, d);
    assert es[1] in es;
    Findable(s, all, DecisionStream(d), es[1]);
    assert es[1].streamId == DecisionStream(d);
  }

  lemma StartedMatches(s: Streams, all: seq<Event>, r: Id, e: Event)
    requires UniqueIds(s) && Enumerates(all, s) && e.payload.Started? && LookupOk(s, r, e)
    ensures IntakeCaused(all, r, e)
  {
    var f :| f in Read(s, RunStream(r)) && f.payload.IntakeCompleted? && f.correlationId == r
             && e.causationId == Some(f.eventId);
    Findable(s, all, RunStream(r), f);
  }

  lemma ReservedMatches(s: Streams, all: seq<Event>, r: Id, e: Event)
    requires UniqueIds(s) && Enumerates(all, s) && e.payload.Reserved? && LookupOk(s, r, e)
    ensures Backed(all, r, e)
  {
    var f :| f in Read(s, BudgetStream(r)) && f.eventId == e.payload.budgetEventId && f.payload.BudgetReserved?
                  && f.payload.runId == r && f.payload.reservationId == e.payload.reservationId
                  && f.payload.analysisEventId == e.eventId && f.payload.analysisVersion == e.streamVersion;
    Findable(s, all, BudgetStream(r), f);
  }

  /** Event by event, the verifier follows the coordinator's state as long as the event is acceptable, and
    * refuses it otherwise. */
  predicate Matches(s: Streams, all: seq<Event>, r: Id, st: AnalysisState, vs: VerifierState, before: seq<Event>,
                    e: Event)
    requires Advance(r, st, LastId(before), e, |before|).Some?
  {
    var vs' := VerifyStep(s, all, r, vs, before, e);
    && (vs'.Some? <==> Acceptable(st, e))
    && (vs'.Some? ==> Same(Advance(r, st, LastId(before), e, |before|).value, vs'.value))
  }

  lemma ReserveMatches(s: Streams, all: seq<Event>, r: Id, st: AnalysisState, vs: VerifierState, before: seq<Event>,
                       e: Event)
    requires Same(st, vs) && Regular(st) && LocalOk(r, st, before, e)
             && Advance(r, st, LastId(before), e, |before|).Some?
    requires e.payload.Started? || e.payload.Reserved? || e.payload.Exhausted?
    requires e.payload.Started? ==> IntakeCaused(all, r, e)
    requires e.payload.Reserved? ==> Backed(all, r, e)
    ensures Matches(s, all, r, st, vs, before, e)
  {
    hide IntakeCaused, Backed, ChargedExactly, AnswersRound, RaisesBudget, Covers, StrictlyHigher, SumUsage,
         CanonicalUncertainties, CountObservations, KnownObservations, KnownQuestions;
  }

  lemma KnownSnoc(observed: seq<Event>, e: Event)
    ensures KnownObservations(observed + [e]) == KnownObservations(observed) + Ids(ObservationsOf(e))
    ensures KnownQuestions(observed + [e]) == KnownQuestions(observed) + Ids(QuestionIds(UncertaintiesOf(e)))
    ensures SumUsage(observed + [e]) == Add(SumUsage(observed), UsageOf(e))
    ensures CountObservations(observed + [e]) == CountObservations(observed) + |ObservationsOf(e)|
  {
    assert (observed + [e])[..|observed|] == observed;
  }

  lemma ObserveMatches(s: Streams, all: seq<Event>, r: Id, st: AnalysisState, vs: VerifierState, before: seq<Event>,
                       e: Event)
    requires Same(st, vs) && Regular(st) && LocalOk(r, st, before, e)
             && Advance(r, st, LastId(before), e, |before|).Some?
    requires e.payload.Observed? && ChargedExactly(all, r, e, st.reservation.value.payload.reservationId)
    ensures Matches(s, all, r, st, vs, before, e)
  {
    KnownSnoc(st.observed, e);
    hide ChargedExactly, HasMaterial, KnownObservations, KnownQuestions, SumUsage, CountObservations, Ids, NewTo, Add,
         CanonicalUncertainties;
  }

  lemma RevisedParts(r: Id, st: AnalysisState, before: seq<Event>, e: Event)
    requires Regular(st) && LocalOk(r, st, before, e) && e.payload.Revised?
    requires Advance(r, st, LastId(before), e, |before|).Some?
    ensures |st.observed| > 0
    ensures var last := st.observed[|st.observed| - 1];
      && UnansweredMaterial(st) == Some(last) && last.payload.Observed? && HasMaterial(last.payload.uncertainties)
      && LastQuestions(st) == last.payload.uncertainties && e.payload.round == |st.observed|
    ensures RevisionOk(r, st, e.payload.round, e.payload.answer)
    ensures e.causationId == Some(e.payload.answer.decisionEventId)
    ensures e.payload.answer.decision.QuestionnaireEvidence? && e.payload.answer.decision.round == |st.observed|
    ensures Placed(e, AnalysisStream(r), |before| + 1, r) && e.payload.runId == r && !st.completed
    ensures Advance(r, st, LastId(before), e, |before|).value == st.(answers := st.answers + [e.payload.answer])
  {
    hide CanonicalUncertainties, Combined, Meanings, Counted;
  }

  lemma ReviseMatches(s: Streams, all: seq<Event>, r: Id, st: AnalysisState, vs: VerifierState, before: seq<Event>,
                      e: Event)
    requires Same(st, vs) && Regular(st) && LocalOk(r, st, before, e)
             && Advance(r, st, LastId(before), e, |before|).Some?
    requires e.payload.Revised? && UniqueIds(s) && DecisionsOk(s) && LookupOk(s, r, e)
    ensures Matches(s, all, r, st, vs, before, e)
  {
    hide Regular, RevisionOk, LocalOk, Advance, AnswersRound, LookupOk, UniqueIds, DecisionsOk, KnownObservations,
         KnownQuestions, SumUsage, CountObservations, CanonicalUncertainties, UnansweredMaterial, HasMaterial;
    RevisedParts(r, st, before, e);
    RevisionMatches(s, r, st, st.observed[|st.observed| - 1], e);
  }

  lemma SettleMatches(s: Streams, all: seq<Event>, r: Id, st: AnalysisState, vs: VerifierState, before: seq<Event>,
                      e: Event)
    requires Same(st, vs) && Regular(st) && LocalOk(r, st, before, e)
             && Advance(r, st, LastId(before), e, |before|).Some?
    requires e.payload.BudgetRevised? || e.payload.ReconciliationRequired? || e.payload.ReconciliationResolved?
             || e.payload.Cancelled? || e.payload.Terminated?
    requires e.payload.BudgetRevised? && st.exhaustion.Some? && st.budget.Some? ==>
               RaisesBudget(s, all, r, st.exhaustion.value, st.budget.value, SumUsage(st.observed), e)
    ensures Matches(s, all, r, st, vs, before, e)
  {
    hide RaisesBudget, KnownObservations, KnownQuestions, SumUsage, CountObservations, CanonicalUncertainties,
         HasMaterial,
         StrictlyHigher, Covers;
  }

  lemma CompleteMatches(s: Streams, all: seq<Event>, r: Id, st: AnalysisState, vs: VerifierState, before: seq<Event>,
                        e: Event)
    requires Same(st, vs) && Regular(st) && LocalOk(r, st, before, e)
             && Advance(r, st, LastId(before), e, |before|).Some?
    requires e.payload.Completed?
    ensures Matches(s, all, r, st, vs, before, e)
  {
    hide KnownObservations, KnownQuestions, SumUsage, CountObservations, CanonicalUncertainties, HasMaterial, Covers,
         Payloads;
  }

  lemma OneEventMatches(s: Streams, all: seq<Event>, r: Id, n: nat, vs: VerifierState)
    requires Documented(s) && Enumerates(all, s) && n < |Analysis(s, r)|
    requires AnalysisAfter(r, Analysis(s, r)[..n]).Some? && AnalysisAfter(r, Analysis(s, r)[..n + 1]).Some?
    requires Same(AnalysisAfter(r, Analysis(s, r)[..n]).value, vs)
    ensures var a := Analysis(s, r);
      var st := AnalysisAfter(r, a[..n]).value;
      && Advance(r, st, LastId(a[..n]), a[n], n) == AnalysisAfter(r, a[..n + 1])
      && Matches(s, all, r, st, vs, a[..n], a[n])
  {
    var a := Analysis(s, r);
    var e, before, st := a[n], a[..n], AnalysisAfter(r, a[..n]).value;
    assert a[..n + 1][..n] == before;
    assert AllLawful(s, r) && Lawful(s, r, a, n);
    PrefixIsRegular(s, r, a, n);
    hide AnalysisAfter, Advance, LocalOk, Same, Regular, Matches, AllLawful, Lawful, UniqueIds, DecisionsOk, ChargesOk,
         Agree;
    LocalParts(r, st, before, e);
    match e.payload {
      case Started(_, _, _, _, _) =>
        StartedMatches(s, all, r, e);
        ReserveMatches(s, all, r, st, vs, before, e);
      case Reserved(_, _, _, _, _, _, _, _) =>
        ReservedMatches(s, all, r, e);
        ReserveMatches(s, all, r, st, vs, before, e);
      case Exhausted(_, _, _, _) => ReserveMatches(s, all, r, st, vs, before, e);
      case Observed(_, _, _, _, _, _, _) =>
        ChargeIsExact(s, all, r, n);
        ObserveMatches(s, all, r, st, vs, before, e);
      case Revised(_, _, _) => ReviseMatches(s, all, r, st, vs, before, e);
      case BudgetRevised(_, _, _, _, _, _, _) =>
        BudgetParts(r, st, vs, before, e);
        BudgetRevisionMatches(s, all, r, st, before, e);
        SettleMatches(s, all, r, st, vs, before, e);
      case ReconciliationRequired(_, _, _, _) => SettleMatches(s, all, r, st, vs, before, e);
      case ReconciliationResolved(_, _, _, _) => SettleMatches(s, all, r, st, vs, before, e);
      case Cancelled(_, _) => SettleMatches(s, all, r, st, vs, before, e);
      case Terminated(_, _, _, _, _) => SettleMatches(s, all, r, st, vs, before, e);
      case Completed(_, _, _, _, _, _, _) => CompleteMatches(s, all, r, st, vs, before, e);
      case _ =>
    }
  }

  lemma BudgetParts(r: Id, st: AnalysisState, vs: VerifierState, before: seq<Event>, e: Event)
    requires e.payload.BudgetRevised? && Advance(r, st, LastId(before), e, |before|).Some? && Same(st, vs)
    ensures st.exhaustion.Some? && st.budget == Some(e.payload.priorBudget) && st.terminal.None?
    ensures e.payload.exhaustionEventId == st.exhaustion.value.eventId
            && e.causationId == Some(e.payload.decisionEventId)
  {
  }

  lemma LocalParts(r: Id, st: AnalysisState, before: seq<Event>, e: Event)
    requires Advance(r, st, LastId(before), e, |before|).Some?
    ensures e.payload.Started? || e.payload.Reserved? || e.payload.Observed? || e.payload.Revised?
            || e.payload.Exhausted?
            || e.payload.BudgetRevised? || e.payload.Completed? || e.payload.Cancelled? || e.payload.Terminated?
            || e.payload.ReconciliationRequired? || e.payload.ReconciliationResolved?
  {
  }

  // ---------- Whole streams ----------

  /** Every event of the first `n` was acceptable to the state it extended. */
  ghost predicate AllAcceptable(r: Id, a: seq<Event>, n: nat)
    requires n <= |a|
  {
    forall m :: 0 <= m < n ==> AcceptableAt(r, a, m)
  }

  predicate AcceptableAt(r: Id, a: seq<Event>, m: nat)
    requires m < |a|
  {
    AnalysisAfter(r, a[..m]).Some? && Acceptable(AnalysisAfter(r, a[..m]).value, a[m])
  }

  lemma PrefixReplays(r: Id, a: seq<Event>, n: nat)
    requires AnalysisAfter(r, a).Some? && n <= |a|
    ensures AnalysisAfter(r, a[..n]).Some?
  {
    if AnalysisAfter(r, a[..n]).None? {
      BrokenStaysBroken(r, a, n);
    }
  }

  lemma VerifyUnrolls(s: Streams, all: seq<Event>, r: Id, a: seq<Event>, n: nat)
    requires 0 < n <= |a|
    ensures var vs := VerifyAfter(s, all, r, a[..n - 1]);
      VerifyAfter(s, all, r, a[..n]) == if vs.None? then None else VerifyStep(s, all, r, vs.value, a[..n - 1], a[n - 1])
  {
    assert a[..n][..n - 1] == a[..n - 1];
    hide VerifyStep;
  }

  lemma AcceptableSnoc(r: Id, a: seq<Event>, n: nat)
    requires 0 < n <= |a|
    ensures AllAcceptable(r, a, n) <==> AllAcceptable(r, a, n - 1) && AcceptableAt(r, a, n - 1)
  {
    hide AcceptableAt;
  }

  lemma {:induction false} VerifierFollows(s: Streams, all: seq<Event>, r: Id, n: nat)
    requires Documented(s) && Enumerates(all, s) && n <= |Analysis(s, r)|
    ensures AnalysisAfter(r, Analysis(s, r)[..n]).Some?
    ensures VerifyAfter(s, all, r, Analysis(s, r)[..n]).Some? <==> AllAcceptable(r, Analysis(s, r), n)
    ensures VerifyAfter(s, all, r, Analysis(s, r)[..n]).Some? ==>
              Same(AnalysisAfter(r, Analysis(s, r)[..n]).value, VerifyAfter(s, all, r, Analysis(s, r)[..n]).value)
  {
    var a := Analysis(s, r);
    assert Agree(s, r);
    PrefixReplays(r, a, n);
    if n > 0 {
      hide Documented, Agree, VerifyStep, Advance, Acceptable, Enumerates, VerifyAfter, AllAcceptable, AnalysisAfter,
           Same;
      VerifierFollows(s, all, r, n - 1);
      VerifyUnrolls(s, all, r, a, n);
      AcceptableSnoc(r, a, n);
      var vs := VerifyAfter(s, all, r, a[..n - 1]);
      if vs.Some? {
        OneEventMatches(s, all, r, n - 1, vs.value);
      }
    }
  }

  /** A stream is at least as long as the events its state remembers. */
  lemma {:induction false} LongEnough(r: Id, a: seq<Event>)
    requires AnalysisAfter(r, a).Some?
    ensures var st := AnalysisAfter(r, a).value;
      |a| >= (if st.started.Some? then 1 else 0) + 2 * |st.observed| + (if st.reservation.Some? then 1 else 0)
             + (if st.completed then 1 else 0)
  {
    if a != [] {
      LongEnough(r, a[..|a| - 1]);
    }
  }

  lemma CompletedParts(s: Streams, all: seq<Event>, r: Id)
    requires Documented(s) && Analysis(s, r) != [] && Analysis(s, r)[|Analysis(s, r)| - 1].payload.Completed?
    requires AllAcceptable(r, Analysis(s, r), |Analysis(s, r)|)
    ensures |Analysis(s, r)| >= 4 && StateAt(s, r).Some? && StateAt(s, r).value.completed
            && StateAt(s, r).value.started.Some?
  {
    hide SumUsage, LookupOk, UniqueIds, WellKept, LedgersAgree, DecisionsOk, CanonicalUncertainties, HasMaterial,
         BudgetReason, Covers, LatestAnswered, UnansweredMaterial, RoundAnswered;
    var a := Analysis(s, r);
    var n := |a| - 1;
    assert Agree(s, r) && AllLawful(s, r) && Lawful(s, r, a, n) && AcceptableAt(r, a, n);
    LongEnough(r, a);
    hide Agree, Documented, SumUsage, LookupOk;
  }

  /** Writers and verifier agree, exactly: of the completed analyses that any run of timely commits can
    * produce, the strict replay accepts those, and only those, whose every event was acceptable to the
    * state it extended. */
  lemma WriterVerifierAgreement(run: seq<Streams>, i: nat, r: Id, all: seq<Event>)
    requires TimelyRun(run) && i < |run| && Enumerates(all, run[i])
    requires Analysis(run[i], r) != [] && Analysis(run[i], r)[|Analysis(run[i], r)| - 1].payload.Completed?
    ensures Verifies(run[i], all, r) <==> AllAcceptable(r, Analysis(run[i], r), |Analysis(run[i], r)|)
  {
    var s, a := run[i], Analysis(run[i], r);
    TimelyRunDocumented(run, i);
    hide TimelyRun, Documented, AllAcceptable, AnalysisAfter, VerifyAfter;
    VerifierFollows(s, all, r, |a|);
    assert a[..|a|] == a;
    if AllAcceptable(r, a, |a|) {
      CompletedParts(s, all, r);
    }
  }

  // ---------- When a round can be revised twice ----------

  predicate EarlierRoundsMaterial(st: AnalysisState) {
    forall i :: 0 <= i < |st.observed| - 1 ==> HasMaterial(UncertaintiesOf(st.observed[i]))
  }

  /** Counting answers tells which round is answered as long as every earlier round asked something material. */
  predicate CountsAnswers(st: AnalysisState) {
    && (st.reservation.Some? ==> LatestAnswered(st))
    && (EarlierRoundsMaterial(st) ==>
          |st.answers| >= |st.observed| - 1 && (RoundAnswered(st) ==> |st.answers| == |st.observed|))
  }

  lemma CountsStep(r: Id, st: AnalysisState, before: seq<Event>, e: Event)
    requires Regular(st) && CountsAnswers(st) && LocalOk(r, st, before, e)
    requires Advance(r, st, LastId(before), e, |before|).Some?
    ensures CountsAnswers(Advance(r, st, LastId(before), e, |before|).value)
  {
    hide CanonicalUncertainties, Combined, Meanings, SumUsage, Covers, StrictlyHigher, CountObservations, Payloads,
         QuestionnaireFor, HasMaterial;
    var st' := Advance(r, st, LastId(before), e, |before|).value;
    if e.payload.Observed? && EarlierRoundsMaterial(st') {
      ObservedCounts(st, st', e);
    }
  }

  lemma ObservedCounts(st: AnalysisState, st': AnalysisState, e: Event)
    requires st'.observed == st.observed + [e] && st'.answers == st.answers && EarlierRoundsMaterial(st')
    requires LatestAnswered(st) && Counted(st) && CountsAnswers(st)
    ensures |st'.answers| >= |st'.observed| - 1 && !RoundAnswered(st')
  {
    forall i | 0 <= i < |st.observed| ensures HasMaterial(UncertaintiesOf(st.observed[i])) {
      assert st'.observed[i] == st.observed[i];
    }
  }

  lemma {:induction false} PrefixCounts(s: Streams, r: Id, a: seq<Event>, n: nat)
    requires n <= |a| && AnalysisAfter(r, a[..n]).Some? && forall m :: 0 <= m < n ==> Lawful(s, r, a, m)
    ensures CountsAnswers(AnalysisAfter(r, a[..n]).value)
  {
    if n > 0 {
      assert a[..n][..n - 1] == a[..n - 1];
      assert Lawful(s, r, a, n - 1);
      PrefixIsRegular(s, r, a, n - 1);
      PrefixCounts(s, r, a, n - 1);
      CountsStep(r, AnalysisAfter(r, a[..n - 1]).value, a[..n - 1], a[n - 1]);
    }
  }

  /** No round is ever revised twice while every earlier round carried a material uncertainty. */
  lemma MaterialRoundsAreRevisedOnce(run: seq<Streams>, i: nat, r: Id, n: nat)
    requires TimelyRun(run) && i < |run| && n < |Analysis(run[i], r)| && Analysis(run[i], r)[n].payload.Revised?
    ensures AnalysisAfter(r, Analysis(run[i], r)[..n]).Some?
    ensures EarlierRoundsMaterial(AnalysisAfter(r, Analysis(run[i], r)[..n]).value) ==>
              !RoundAnswered(AnalysisAfter(r, Analysis(run[i], r)[..n]).value)
  {
    var s, a := run[i], Analysis(run[i], r);
    TimelyRunDocumented(run, i);
    assert AllLawful(s, r);
    hide TimelyRun, Documented, AnalysisAfter, LookupOk, LocalOk, EarlierRoundsMaterial, RoundAnswered, CountsAnswers;
    assert Lawful(s, r, a, n);
    PrefixCounts(s, r, a, n);
    NotYetAnswered(r, AnalysisAfter(r, a[..n]).value, a[..n], a[n]);
  }

  lemma NotYetAnswered(r: Id, st: AnalysisState, before: seq<Event>, e: Event)
    requires CountsAnswers(st) && LocalOk(r, st, before, e) && e.payload.Revised?
    ensures EarlierRoundsMaterial(st) ==> !RoundAnswered(st)
  {
    hide CanonicalUncertainties, Combined, Meanings, EarlierRoundsMaterial, RoundAnswered, HasMaterial;
  }

  // ---------- Ordinary analyses ----------

  /** Canonical capsule output with new identities; a reconciliation of the open reservation; a completion of
    * an observed, settled analysis whose last round asks nothing material; no ending of the run in between. */
  predicate OrdinaryEvent(st: AnalysisState, e: Event) {
    match e.payload
    case Observed(_, _, observations, uncertainties, _, _, _) =>
      && NewTo(observations, KnownObservations(st.observed))
      && NewTo(QuestionIds(uncertainties), KnownQuestions(st.observed))
      && CanonicalUncertainties(uncertainties) == Some(uncertainties)
    case Revised(_, _, _) => true
    case Terminated(_, _, _, _, _) => false
    case Cancelled(_, _) => true
    case _ => Acceptable(st, e)
  }

  predicate OrdinaryAt(r: Id, a: seq<Event>, m: nat)
    requires m < |a|
  {
    AnalysisAfter(r, a[..m]).Some? && OrdinaryEvent(AnalysisAfter(r, a[..m]).value, a[m])
  }

  ghost predicate AllOrdinary(r: Id, a: seq<Event>) {
    forall m :: 0 <= m < |a| ==> OrdinaryAt(r, a, m)
  }

  lemma {:induction false} RoundsGrow(r: Id, a: seq<Event>, n: nat)
    requires AnalysisAfter(r, a).Some? && n <= |a| && AnalysisAfter(r, a[..n]).Some?
    ensures AnalysisAfter(r, a[..n]).value.observed <= AnalysisAfter(r, a).value.observed
  {
    if n == |a| {
      assert a[..n] == a;
    } else {
      assert a[..|a| - 1][..n] == a[..n];
      RoundsGrow(r, a[..|a| - 1], n);
    }
  }

  lemma {:induction false} RoundsAreCanonical(r: Id, a: seq<Event>, n: nat)
    requires AllOrdinary(r, a) && n <= |a| && AnalysisAfter(r, a[..n]).Some?
    ensures forall i :: 0 <= i < |AnalysisAfter(r, a[..n]).value.observed| ==>
              CanonicalRound(AnalysisAfter(r, a[..n]).value.observed[i])
  {
    if n > 0 {
      assert a[..n][..n - 1] == a[..n - 1];
      assert OrdinaryAt(r, a, n - 1);
      RoundsAreCanonical(r, a, n - 1);
      CanonicalStep(r, AnalysisAfter(r, a[..n - 1]).value, a[..n - 1], a[n - 1]);
    }
  }

  predicate CanonicalRound(e: Event) {
    CanonicalUncertainties(UncertaintiesOf(e)) == Some(UncertaintiesOf(e))
  }

  lemma CanonicalStep(r: Id, st: AnalysisState, before: seq<Event>, e: Event)
    requires OrdinaryEvent(st, e) && Advance(r, st, LastId(before), e, |before|).Some?
    requires forall i :: 0 <= i < |st.observed| ==> CanonicalRound(st.observed[i])
    ensures var st' := Advance(r, st, LastId(before), e, |before|).value;
      forall i :: 0 <= i < |st'.observed| ==> CanonicalRound(st'.observed[i])
  {
    hide CanonicalUncertainties, KnownObservations, KnownQuestions, Acceptable;
  }

  /** A revision in an ordinary analysis is acceptable. */
  lemma RevisionIsAcceptable(run: seq<Streams>, i: nat, r: Id, m: nat)
    requires TimelyRun(run) && i < |run| && AllOrdinary(r, Analysis(run[i], r))
    requires StateAt(run[i], r).Some? && EarlierRoundsMaterial(StateAt(run[i], r).value)
    requires m < |Analysis(run[i], r)| && Analysis(run[i], r)[m].payload.Revised?
    ensures AcceptableAt(r, Analysis(run[i], r), m)
  {
    var a := Analysis(run[i], r);
    hide TimelyRun, CanonicalUncertainties, HasMaterial;
    MaterialRoundsAreRevisedOnce(run, i, r, m);
    RoundsGrow(r, a, m);
    RoundsAreCanonical(r, a, m);
    var st := AnalysisAfter(r, a[..m]).value;
    hide AnalysisAfter, AllOrdinary;
    assert forall k :: 0 <= k < |st.observed| ==> st.observed[k] == StateAt(run[i], r).value.observed[k];
    assert EarlierRoundsMaterial(st);
    assert |st.observed| > 0 ==> CanonicalRound(st.observed[|st.observed| - 1]);
  }

  lemma NotCancelled(r: Id, a: seq<Event>, m: nat)
    requires AnalysisAfter(r, a).Some? && m + 1 < |a|
    ensures !a[m].payload.Cancelled?
  {
    PrefixReplays(r, a, m + 1);
    PrefixReplays(r, a, m + 2);
    assert a[..m + 1][..m] == a[..m] && a[..m + 2][..m + 1] == a[..m + 1];
  }

  /** What the coordinator completes in the ordinary course of things, its verifier accepts: every round but
    * the last carries a material uncertainty, the capsule's output is canonical, its identities are new, and
    * something was observed. */
  lemma OrdinaryAnalysesVerify(run: seq<Streams>, i: nat, r: Id, all: seq<Event>)
    requires TimelyRun(run) && i < |run| && Enumerates(all, run[i])
    requires Analysis(run[i], r) != [] && Analysis(run[i], r)[|Analysis(run[i], r)| - 1].payload.Completed?
    requires AllOrdinary(r, Analysis(run[i], r))
    requires StateAt(run[i], r).Some? && EarlierRoundsMaterial(StateAt(run[i], r).value)
    ensures Verifies(run[i], all, r)
  {
    var a := Analysis(run[i], r);
    hide TimelyRun, Enumerates, Verifies, AnalysisAfter, EarlierRoundsMaterial;
    forall m | 0 <= m < |a| ensures AcceptableAt(r, a, m) {
      assert OrdinaryAt(r, a, m);
      if a[m].payload.Revised? {
        RevisionIsAcceptable(run, i, r, m);
      } else if m + 1 < |a| {
        NotCancelled(r, a, m);
      }
    }
    WriterVerifierAgreement(run, i, r, all);
  }
}
