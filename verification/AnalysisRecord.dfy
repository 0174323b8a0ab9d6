/** What the two streams of an analysis say by themselves, and that their replays report exactly that. */
module AnalysisRecord {
  import opened EventJournal
  import opened AnalysisModel
  import opened AnalysisBounds
  import opened AnalysisProvenance
  import opened Questionnaire
  import opened Sorting

  // ---------- The parts of the state, each read off the events ----------

  predicate Completes(a: seq<Event>) {
    exists n :: 0 <= n < |a| && a[n].payload.Completed?
  }

  predicate Cancels(a: seq<Event>) {
    exists n :: 0 <= n < |a| && a[n].payload.Cancelled?
  }

  /** How the analysis was last said to have ended without a result. */
  function LastOutcome(a: seq<Event>): Option<Outcome> {
    if a == [] then None
    else if a[|a| - 1].payload.Terminated? then Some(a[|a| - 1].payload.outcome)
    else LastOutcome(a[..|a| - 1])
  }

  /** `e` closes the reservation: an observation, an ending, an operator's release, or an exhaustion right after it. */
  predicate Closes(e: Event, reserved: Event) {
    || e.payload.Observed? || e.payload.Cancelled? || e.payload.Terminated? || e.payload.ReconciliationResolved?
    || (e.payload.Exhausted? && e.causationId == Some(reserved.eventId))
  }

  predicate Open(a: seq<Event>, k: nat) {
    && k < |a| && a[k].payload.Reserved?
    && forall j :: k < j < |a| ==> !Closes(a[j], a[k]) && !a[j].payload.Reserved?
  }

  predicate AnyOpen(a: seq<Event>) {
    exists k :: 0 <= k < |a| && Open(a, k)
  }

  predicate Exhaustion(a: seq<Event>, k: nat) {
    && k < |a| && a[k].payload.Exhausted?
    && forall j :: k < j < |a| ==> !a[j].payload.Exhausted? && !a[j].payload.BudgetRevised?
  }

  predicate AnyExhaustion(a: seq<Event>) {
    exists k :: 0 <= k < |a| && Exhaustion(a, k)
  }

  predicate Unreconciled(a: seq<Event>, k: nat) {
    && k < |a| && a[k].payload.ReconciliationRequired?
    && forall j :: k < j < |a| ==> !a[j].payload.ReconciliationRequired? && !a[j].payload.ReconciliationResolved?
  }

  predicate AnyUnreconciled(a: seq<Event>) {
    exists k :: 0 <= k < |a| && Unreconciled(a, k)
  }

  /** The state holds exactly what the events say. */
  ghost predicate Shows(a: seq<Event>, st: AnalysisState) {
    ShowsBasis(a, st) && ShowsEnding(a, st) && ShowsOpen(a, st)
  }

  predicate ShowsBasis(a: seq<Event>, st: AnalysisState) {
    && st.started == (if a != [] && a[0].payload.Started? then Some(a[0].payload) else None)
    && st.budget == InForce(a) && st.observed == RoundsOf(a) && st.answers == AnswersOf(a)
  }

  predicate ShowsEnding(a: seq<Event>, st: AnalysisState) {
    && (st.completed <==> Completes(a)) && (st.cancelled <==> Cancels(a))
    && st.terminal == LastOutcome(a)
  }

  ghost predicate ShowsOpen(a: seq<Event>, st: AnalysisState) {
    ShowsReservation(a, st) && ShowsExhaustion(a, st) && ShowsReconciliation(a, st)
  }

  ghost predicate ShowsReservation(a: seq<Event>, st: AnalysisState) {
    && (st.reservation.Some? <==> AnyOpen(a))
    && forall k :: 0 <= k < |a| && Open(a, k) ==> st.reservation == Some(a[k])
  }

  ghost predicate ShowsExhaustion(a: seq<Event>, st: AnalysisState) {
    && (st.exhaustion.Some? <==> AnyExhaustion(a))
    && forall k :: 0 <= k < |a| && Exhaustion(a, k) ==> st.exhaustion == Some(a[k])
  }

  ghost predicate ShowsReconciliation(a: seq<Event>, st: AnalysisState) {
    && (st.reconciliation.Some? <==> AnyUnreconciled(a))
    && forall k :: 0 <= k < |a| && Unreconciled(a, k) ==> st.reconciliation == Some(a[k])
  }

  /** The event at `n` names the one before it as its cause. */
  predicate CausedByPrevious(a: seq<Event>, n: nat)
    requires n < |a|
  {
    n > 0 && a[n].causationId == Some(a[n - 1].eventId)
  }

  predicate OfRun(r: Id, e: Payload) {
    match e
    case Started(run, _, _, _, _) => run == r
    case Reserved(run, _, _, _, _, _, _, _) => run == r
    case Observed(run, _, _, _, _, _, _) => run == r
    case Revised(run, _, _) => run == r
    case Exhausted(run, _, _, _) => run == r
    case BudgetRevised(run, _, _, _, _, _, _) => run == r
    case Completed(run, _, _, _, _, _, _) => run == r
    case Cancelled(run, _) => run == r
    case Terminated(run, _, _, _, _) => run == r
    case ReconciliationRequired(run, _, _, _) => run == r
    case ReconciliationResolved(run, _, _, _) => run == r
    case _ => false
  }

  /** The event at `n` may follow those before it. */
  predicate MayFollow(r: Id, a: seq<Event>, n: nat)
    requires n < |a|
  {
    var e, before := a[n], a[..n];
    && e.streamId == AnalysisStream(r) && e.streamVersion == n + 1 && e.correlationId == r
    && !Completes(before) && !Cancels(before) && OfRun(r, e.payload)
    && (e.payload.Started? ==> n == 0)
    && (e.payload.Reserved? ==> !AnyOpen(before) && !AnyExhaustion(before) && CausedByPrevious(a, n))
    && (e.payload.Observed? ==>
          && e.payload.round == |RoundsOf(before)| + 1 && e.causationId == Some(e.payload.reservationEventId)
          && exists k :: 0 <= k < n && Open(before, k) && before[k].eventId == e.payload.reservationEventId)
    && (e.payload.Revised? ==>
          && e.payload.round == |RoundsOf(before)| > 0 && e.causationId == Some(e.payload.answer.decisionEventId))
    && (e.payload.Exhausted? ==> CausedByPrevious(a, n))
    && (e.payload.BudgetRevised? ==>
          && e.causationId == Some(e.payload.decisionEventId) && InForce(before) == Some(e.payload.priorBudget)
          && exists k :: 0 <= k < n && Exhaustion(before, k) && before[k].eventId == e.payload.exhaustionEventId)
  }

  // ---------- One more event ----------

  lemma OpenSnoc(a: seq<Event>, e: Event, k: nat)
    ensures k < |a| ==> (Open(a + [e], k) <==> Open(a, k) && !Closes(e, a[k]) && !e.payload.Reserved?)
    ensures k == |a| ==> (Open(a + [e], k) <==> e.payload.Reserved?)
  {
    var longer := a + [e];
    assert longer[|a|] == e && forall j :: 0 <= j < |a| ==> longer[j] == a[j];
    hide Closes;
  }

  lemma ExhaustionSnoc(a: seq<Event>, e: Event, k: nat)
    ensures k < |a| ==>
              (Exhaustion(a + [e], k) <==> Exhaustion(a, k) && !e.payload.Exhausted? && !e.payload.BudgetRevised?)
    ensures k == |a| ==> (Exhaustion(a + [e], k) <==> e.payload.Exhausted?)
  {
    var longer := a + [e];
    assert longer[|a|] == e && forall j :: 0 <= j < |a| ==> longer[j] == a[j];
  }

  lemma UnreconciledSnoc(a: seq<Event>, e: Event, k: nat)
    ensures k < |a| ==> (Unreconciled(a + [e], k) <==>
                           Unreconciled(a, k) && !e.payload.ReconciliationRequired?
                           && !e.payload.ReconciliationResolved?)
    ensures k == |a| ==> (Unreconciled(a + [e], k) <==> e.payload.ReconciliationRequired?)
  {
    var longer := a + [e];
    assert longer[|a|] == e && forall j :: 0 <= j < |a| ==> longer[j] == a[j];
  }

  /** The automaton takes the next event exactly when the record does. */
  lemma AdvanceFollows(r: Id, a: seq<Event>, st: AnalysisState, e: Event)
    requires Shows(a, st)
    ensures Advance(r, st, LastId(a), e, |a|).Some? <==> MayFollow(r, a + [e], |a|)
  {
    var longer := a + [e];
    assert longer[..|a|] == a && longer[|a|] == e && (a != [] ==> longer[|a| - 1] == a[|a| - 1]);
    if st.reservation.Some? {
      var k :| 0 <= k < |a| && Open(a, k);
    }
    if st.exhaustion.Some? {
      var k :| 0 <= k < |a| && Exhaustion(a, k);
    }
    hide Open, Exhaustion, Unreconciled, RoundsOf, AnswersOf, InForce, LastOutcome, Completes, Cancels;
  }

  lemma AdvanceShowsReservation(r: Id, a: seq<Event>, st: AnalysisState, e: Event)
    requires ShowsReservation(a, st) && Advance(r, st, LastId(a), e, |a|).Some?
    ensures ShowsReservation(a + [e], Advance(r, st, LastId(a), e, |a|).value)
  {
    var longer, st' := a + [e], Advance(r, st, LastId(a), e, |a|).value;
    assert longer[|a|] == e && forall j :: 0 <= j < |a| ==> longer[j] == a[j];
    forall k: nat
      ensures k < |a| ==> (Open(longer, k) <==> Open(a, k) && !Closes(e, a[k]) && !e.payload.Reserved?)
      ensures k == |a| ==> (Open(longer, k) <==> e.payload.Reserved?)
    {
      OpenSnoc(a, e, k);
    }
    hide Open;
    if st'.reservation.Some? && !e.payload.Reserved? {
      var k :| 0 <= k < |a| && Open(a, k);
      assert Open(longer, k);
    }
    assert e.payload.Reserved? ==> Open(longer, |a|);
  }

  lemma AdvanceShowsExhaustion(r: Id, a: seq<Event>, st: AnalysisState, e: Event)
    requires ShowsExhaustion(a, st) && Advance(r, st, LastId(a), e, |a|).Some?
    ensures ShowsExhaustion(a + [e], Advance(r, st, LastId(a), e, |a|).value)
  {
    var longer, st' := a + [e], Advance(r, st, LastId(a), e, |a|).value;
    assert longer[|a|] == e && forall j :: 0 <= j < |a| ==> longer[j] == a[j];
    forall k: nat
      ensures k < |a| ==>
                (Exhaustion(longer, k) <==> Exhaustion(a, k) && !e.payload.Exhausted? && !e.payload.BudgetRevised?)
      ensures k == |a| ==> (Exhaustion(longer, k) <==> e.payload.Exhausted?)
    {
      ExhaustionSnoc(a, e, k);
    }
    hide Exhaustion;
    if st'.exhaustion.Some? && !e.payload.Exhausted? {
      var k :| 0 <= k < |a| && Exhaustion(a, k);
      assert Exhaustion(longer, k);
    }
    assert e.payload.Exhausted? ==> Exhaustion(longer, |a|);
  }

  lemma AdvanceShowsReconciliation(r: Id, a: seq<Event>, st: AnalysisState, e: Event)
    requires ShowsReconciliation(a, st) && Advance(r, st, LastId(a), e, |a|).Some?
    ensures ShowsReconciliation(a + [e], Advance(r, st, LastId(a), e, |a|).value)
  {
    var longer, st' := a + [e], Advance(r, st, LastId(a), e, |a|).value;
    assert longer[|a|] == e && forall j :: 0 <= j < |a| ==> longer[j] == a[j];
    forall k: nat
      ensures k < |a| ==> (Unreconciled(longer, k) <==>
                             Unreconciled(a, k) && !e.payload.ReconciliationRequired?
                             && !e.payload.ReconciliationResolved?)
      ensures k == |a| ==> (Unreconciled(longer, k) <==> e.payload.ReconciliationRequired?)
    {
      UnreconciledSnoc(a, e, k);
    }
    hide Unreconciled;
    if st'.reconciliation.Some? && !e.payload.ReconciliationRequired? {
      var k :| 0 <= k < |a| && Unreconciled(a, k);
      assert Unreconciled(longer, k);
    }
    assert e.payload.ReconciliationRequired? ==> Unreconciled(longer, |a|);
  }

  lemma EndingSnoc(a: seq<Event>, e: Event)
    ensures Completes(a + [e]) <==> Completes(a) || e.payload.Completed?
    ensures Cancels(a + [e]) <==> Cancels(a) || e.payload.Cancelled?
  {
    var longer := a + [e];
    assert longer[|a|] == e && forall j :: 0 <= j < |a| ==> longer[j] == a[j];
    if n :| 0 <= n < |a| && a[n].payload.Completed? { assert longer[n].payload.Completed?; }
    if n :| 0 <= n < |a| && a[n].payload.Cancelled? { assert longer[n].payload.Cancelled?; }
  }

  lemma PartsSnoc(a: seq<Event>, e: Event)
    ensures InForce(a + [e]) == if e.payload.Started? || e.payload.BudgetRevised? then Some(e.payload.budget)
                                else InForce(a)
    ensures RoundsOf(a + [e]) == if e.payload.Observed? then RoundsOf(a) + [e] else RoundsOf(a)
    ensures AnswersOf(a + [e]) == if e.payload.Revised? then AnswersOf(a) + [e.payload.answer] else AnswersOf(a)
    ensures LastOutcome(a + [e]) == if e.payload.Terminated? then Some(e.payload.outcome) else LastOutcome(a)
  {
    assert (a + [e])[..|a|] == a;
  }

  lemma AdvanceShowsBasis(r: Id, a: seq<Event>, st: AnalysisState, e: Event)
    requires ShowsBasis(a, st) && Advance(r, st, LastId(a), e, |a|).Some?
    ensures ShowsBasis(a + [e], Advance(r, st, LastId(a), e, |a|).value)
  {
    PartsSnoc(a, e);
    hide InForce, RoundsOf, AnswersOf, LastOutcome;
    assert a != [] ==> (a + [e])[0] == a[0];
    assert a == [] ==> (a + [e])[0] == e;
  }

  lemma AdvanceShowsEnding(r: Id, a: seq<Event>, st: AnalysisState, e: Event)
    requires ShowsEnding(a, st) && Advance(r, st, LastId(a), e, |a|).Some?
    ensures ShowsEnding(a + [e], Advance(r, st, LastId(a), e, |a|).value)
  {
    PartsSnoc(a, e);
    EndingSnoc(a, e);
    hide InForce, RoundsOf, AnswersOf, LastOutcome, Completes, Cancels;
  }

  lemma AdvanceShows(r: Id, a: seq<Event>, st: AnalysisState, e: Event)
    requires Shows(a, st) && Advance(r, st, LastId(a), e, |a|).Some?
    ensures Shows(a + [e], Advance(r, st, LastId(a), e, |a|).value)
  {
    hide Advance, ShowsBasis, ShowsEnding, ShowsReservation, ShowsExhaustion, ShowsReconciliation;
    AdvanceShowsBasis(r, a, st, e);
    AdvanceShowsEnding(r, a, st, e);
    AdvanceShowsReservation(r, a, st, e);
    AdvanceShowsExhaustion(r, a, st, e);
    AdvanceShowsReconciliation(r, a, st, e);
  }

  // ---------- The replay ----------

  lemma FollowsPrefix(r: Id, a: seq<Event>, e: Event, n: nat)
    requires n < |a|
    ensures MayFollow(r, a + [e], n) == MayFollow(r, a, n)
  {
    var longer := a + [e];
    assert longer[..n] == a[..n] && longer[n] == a[n] && (n > 0 ==> longer[n - 1] == a[n - 1]);
    hide Completes, Cancels, AnyOpen, AnyExhaustion, Open, Exhaustion, RoundsOf, InForce, OfRun;
  }

  /** An analysis replays exactly when each of its events may follow those before it, and then to the state its events
    * show. */
  lemma {:induction false} ReplayShows(r: Id, a: seq<Event>)
    ensures AnalysisAfter(r, a).Some? <==> forall n :: 0 <= n < |a| ==> MayFollow(r, a, n)
    ensures AnalysisAfter(r, a).Some? ==> Shows(a, AnalysisAfter(r, a).value)
  {
    if a != [] {
      var m := |a| - 1;
      var front, e := a[..m], a[m];
      ReplayShows(r, front);
      assert a == front + [e];
      forall n | 0 <= n < m ensures MayFollow(r, a, n) == MayFollow(r, front, n) {
        FollowsPrefix(r, front, e, n);
      }
      hide MayFollow, Shows, Advance;
      if AnalysisAfter(r, front).Some? {
        AdvanceFollows(r, front, AnalysisAfter(r, front).value, e);
        if AnalysisAfter(r, a).Some? {
          AdvanceShows(r, front, AnalysisAfter(r, front).value, e);
        }
      }
    }
  }

  // ---------- The ledger ----------

  /** Reservations at even positions, and right after each the charge that names it. */
  predicate MayFollowInLedger(r: Id, b: seq<Event>, n: nat)
    requires n < |b|
  {
    var e := b[n];
    && e.streamId == BudgetStream(r) && e.streamVersion == n + 1 && e.correlationId == r
    && e.causationId == (if n == 0 then None else Some(b[n - 1].eventId))
    && if n % 2 == 0 then e.payload.BudgetReserved? && e.payload.runId == r
       else
         && e.payload.BudgetCharged? && e.payload.runId == r && b[n - 1].payload.BudgetReserved?
         && e.payload.reservationId == b[n - 1].payload.reservationId
         && e.payload.reservationEventId == b[n - 1].eventId
  }

  lemma LedgerStepFollows(r: Id, front: seq<Event>, e: Event, ledger: Ledger)
    requires ledger.pending == (if |front| % 2 == 1 then Some(front[|front| - 1]) else None)
    requires forall n :: 0 <= n < |front| ==> MayFollowInLedger(r, front, n)
    ensures AdvanceLedger(r, ledger, LastId(front), e, |front|).Some? <==>
              MayFollowInLedger(r, front + [e], |front|)
    ensures AdvanceLedger(r, ledger, LastId(front), e, |front|).Some? ==>
              AdvanceLedger(r, ledger, LastId(front), e, |front|).value.pending ==
                if |front| % 2 == 0 then Some(e) else None
  {
    var b := front + [e];
    assert b[|front|] == e;
    if front != [] {
      assert b[|front| - 1] == front[|front| - 1];
      assert MayFollowInLedger(r, front, |front| - 1);
    }
  }

  /** The ledger replays exactly when reservations and their charges alternate; what is consumed is the sum of the
    * charges, field by field, and what is pending the reservation not yet charged. */
  lemma {:induction false} LedgerReplay(r: Id, b: seq<Event>)
    ensures LedgerAfter(r, b).Some? <==> forall n :: 0 <= n < |b| ==> MayFollowInLedger(r, b, n)
    ensures LedgerAfter(r, b).Some? ==>
              var ledger := LedgerAfter(r, b).value;
              && ledger.pending == (if |b| % 2 == 1 then Some(b[|b| - 1]) else None)
              && forall limit: Reason :: UsagePart(limit, ledger.consumed) == AnalysisBounds.Charged(limit, b)
  {
    if b != [] {
      var m := |b| - 1;
      var front := b[..m];
      LedgerReplay(r, front);
      assert b == front + [b[m]];
      assert forall n :: 0 <= n < m ==> MayFollowInLedger(r, b, n) == MayFollowInLedger(r, front, n);
      if LedgerAfter(r, front).Some? {
        LedgerStepFollows(r, front, b[m], LedgerAfter(r, front).value);
      }
      if LedgerAfter(r, b).Some? {
        LedgerShows(r, b);
      }
    }
  }

  // ---------- What a recorded answer means ----------

  lemma {:induction false} SelectedAt(u: Uncertainty, selections: seq<Selection>, i: nat)
    requires i < |selections| && selections[i].uncertaintyId == u.uncertaintyId
    requires forall j :: 0 <= j < i ==> selections[j].uncertaintyId != u.uncertaintyId
    ensures SelectedId(u, selections) == Some(selections[i].optionId)
  {
    if i > 0 {
      SelectedAt(u, selections[1..], i - 1);
    }
  }

  lemma {:induction false} NamedOption(options: seq<Choice>, id: Id)
    requires exists j :: 0 <= j < |options| && options[j].optionId == id
    ensures OptionNamed(options, id).Some?
    ensures OptionNamed(options, id).value in options && OptionNamed(options, id).value.optionId == id
  {
    if options[0].optionId != id {
      var j :| 0 <= j < |options| && options[j].optionId == id;
      assert options[1..][j - 1].optionId == id;
      NamedOption(options[1..], id);
    }
  }

  /** Question by question, the meaning of a complete answer is the option it selects. */
  lemma MeaningsSay(us: seq<Uncertainty>, v: seq<Selection>, i: nat)
    requires Answers(v, us) && Unambiguous(us) && i < |us|
    ensures |Meanings(us, v)| == |us|
    ensures var meaning := Meanings(us, v)[i];
      && meaning.uncertainty == us[i] && meaning.selected in us[i].options
      && v[i] == Selection(us[i].uncertaintyId, meaning.selected.optionId)
  {
    assert forall j :: 0 <= j <= i ==> Selects(v[j], us[j]);
    forall j | 0 <= j < i ensures v[j].uncertaintyId != us[i].uncertaintyId {
      assert QuestionKey()(us[j]) != QuestionKey()(us[i]);
    }
    SelectedAt(us[i], v, i);
    NamedOption(us[i].options, v[i].optionId);
  }

  /** A recorded revision answers every question of its round, by the option it records as the meaning. */
  lemma RevisionMeans(r: Id, st: AnalysisState, round: nat, answer: Answer, i: nat)
    requires RevisionOk(r, st, round, answer) && i < |answer.selections|
    ensures var us := CanonicalUncertainties(st.observed[|st.observed| - 1].payload.uncertainties).value;
      && |us| == |answer.selections| == |answer.meanings|
      && answer.meanings[i].uncertainty == us[i] && answer.meanings[i].selected in us[i].options
      && answer.selections[i] == Selection(us[i].uncertaintyId, answer.meanings[i].selected.optionId)
  {
    var input := st.observed[|st.observed| - 1].payload.uncertainties;
    CombinedIsExact(input, COMBINATION_CAP, answer.selections);
    CanonicalIsFixed(input);
    hide CanonicalUncertainties, Combined, Meanings, Unambiguous;
    CanonicalIsUnambiguous(input);
    MeaningsSay(CanonicalUncertainties(input).value, answer.selections, i);
  }

  lemma CanonicalIsUnambiguous(us: seq<Uncertainty>)
    requires CanonicalUncertainties(us).Some?
    ensures Unambiguous(CanonicalUncertainties(us).value)
  {
    CanonicalIsFixed(us);
    hide Unambiguous;
  }
}
