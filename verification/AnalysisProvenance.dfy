/** Where every event of a reachable analysis comes from. */
module AnalysisProvenance {
  import opened EventJournal
  import opened Questionnaire
  import opened AnalysisModel
  import opened AnalysisSteps
  import opened AnalysisLedger

  // ---------- Decisions ----------

  /** A decision stream holds one genuine packet and at most one decisive outcome. */
  predicate DecisionOk(es: seq<Event>, d: Evidence) {
    && (es != [] ==> es[0].payload.Asked? && es[0].payload.packet.evidence == d && Genuine(es[0].payload.packet))
    && (|es| > 1 && es[1].payload.Decided? ==>
          && es[1].payload.decision == d && es[1].payload.runId == es[0].payload.packet.runId
          && es[1].payload.optionId in es[0].payload.packet.options
          && (ForOperators(es[0].payload.packet.evidence) ==> es[1].payload.actor.kind == Operator))
  }

  /** Only an operator may decide this: a question of a budget, or a questionnaire with something material in it. */
  predicate ForOperators(evidence: Evidence) {
    match evidence
    case QuestionnaireEvidence(_, _, us) => exists u :: u in us && u.material
    case _ => true
  }

  ghost predicate DecisionsOk(s: Streams) {
    forall d :: DecisionOk(Read(s, DecisionStream(d)), d)
  }

  lemma StepKeepsDecisions(t: Streams, s: Streams, s': Streams, v: Streams, op: Op)
    requires Step(t, s, s', v, op) && DecisionsOk(s)
    ensures DecisionsOk(s')
  {
    if AnalysisOp(op) {
      OpCommits(t, s, s', v, op);
      hide Step, Guard, Plan;
    } else {
      forall d ensures DecisionOk(Read(s', DecisionStream(d)), d) {
        OtherStepKeepsDecision(t, s, s', v, op, d);
      }
    }
  }

  lemma OtherStepKeepsDecision(t: Streams, s: Streams, s': Streams, v: Streams, op: Op, d: Evidence)
    requires !AnalysisOp(op) && Step(t, s, s', v, op) && DecisionOk(Read(s, DecisionStream(d)), d)
    ensures DecisionOk(Read(s', DecisionStream(d)), d)
  {
    var ws := Plan(v, t, op);
    var x := DecisionStream(d);
    assert Read(v, x) <= Read(s, x);
    if WritesTo(ws, x) {
      ExtendedStream(s, ws, 0);
    } else {
      UntouchedStream(s, ws, x);
    }
    hide Genuine;
  }

  // ---------- Charges ----------

  /** The charge belongs to the analysis event it names; if that is an observation, it is its exact usage. */
  ghost predicate ChargeNames(r: Id, a: seq<Event>, charge: Event)
    requires charge.payload.BudgetCharged?
  {
    exists n :: 0 <= n < |a| && a[n].eventId == charge.payload.analysisEventId && Charged(r, a, n, charge)
  }

  predicate Charged(r: Id, a: seq<Event>, n: nat, charge: Event)
    requires n < |a| && charge.payload.BudgetCharged?
  {
    a[n].payload.Observed? ==>
      && charge.payload.runId == r && charge.payload.usage == a[n].payload.usage
      && AnalysisAfter(r, a[..n]).Some? && AnalysisAfter(r, a[..n]).value.reservation.Some?
      && AnalysisAfter(r, a[..n]).value.reservation.value.payload.Reserved?
      && charge.payload.reservationId == AnalysisAfter(r, a[..n]).value.reservation.value.payload.reservationId
  }

  ghost predicate ChargesOk(s: Streams, r: Id) {
    forall c :: c in Read(s, BudgetStream(r)) && c.payload.BudgetCharged? ==> ChargeNames(r, Analysis(s, r), c)
  }

  lemma ChargeStays(r: Id, a: seq<Event>, longer: seq<Event>, charge: Event)
    requires charge.payload.BudgetCharged? && ChargeNames(r, a, charge) && a <= longer
    ensures ChargeNames(r, longer, charge)
  {
    var n :| 0 <= n < |a| && a[n].eventId == charge.payload.analysisEventId && Charged(r, a, n, charge);
    assert longer[n] == a[n] && longer[..n] == a[..n];
    assert Charged(r, longer, n, charge);
  }

  /** Charges are written to budget streams only. */
  ghost predicate ChargesInPlace(s: Streams) {
    forall x, i :: 0 <= i < |Read(s, x)| && Read(s, x)[i].payload.BudgetCharged? ==> x.BudgetStream?
  }

  // ---------- Events of the analysis stream ----------

  /** What the writer of an event knew of the state it extends. */
  predicate LocalOk(r: Id, st: AnalysisState, before: seq<Event>, e: Event) {
    match e.payload
    case Started(_, _, _, budget, _) => budget.maxQuestionnaireOptions <= COMBINATION_CAP
    case Reserved(_, round, _, source, budget, _, _, _) =>
      && st.started.Some? && st.started.value.Started? && round == |st.observed| + 1
      && source == st.started.value.source && st.budget == Some(budget) && LatestAnswered(st)
    case Observed(_, round, _, _, _, source, _) =>
      && st.reservation.Some? && st.reservation.value.payload.Reserved?
      && round == st.reservation.value.payload.round && source == st.reservation.value.payload.source
    case Revised(_, round, answer) => st.reservation.None? && RevisionOk(r, st, round, answer)
    case Exhausted(_, _, _, _) => st.reservation.None?
    case BudgetRevised(_, priorBudget, budget, exhaustionEventId, _, actor, evidence) =>
      && StrictlyHigher(budget, priorBudget) && budget.maxQuestionnaireOptions <= COMBINATION_CAP
      && evidence == RevisionEvidence(r, exhaustionEventId, budget)
      && actor.kind == Operator && (st.terminal.None? ==> Covers(budget, SumUsage(st.observed)))
    case Completed(_, rounds, count, history, source, finalObservationEventId, totalUsage) =>
      && st.started.Some? && st.started.value.Started? && st.budget.Some? && |st.observed| > 0
      && rounds == |st.observed| && count == CountObservations(st.observed) && history == Payloads(before)
      && source == st.started.value.source && totalUsage == SumUsage(st.observed)
      && finalObservationEventId == st.observed[|st.observed| - 1].eventId
      && e.causationId == Some(finalObservationEventId) && Covers(st.budget.value, totalUsage)
      && AsksNothing(st.observed)
    case Cancelled(_, cancellationEventId) => e.causationId == Some(cancellationEventId)
    case Terminated(_, _, runTerminalEventId, _, _) => e.causationId == Some(runTerminalEventId)
    case ReconciliationRequired(_, reservationEventId, _, _) => e.causationId == Some(reservationEventId)
    case ReconciliationResolved(_, reservationEventId, reconciliationEventId, actor) =>
      && st.reservation.Some? && reservationEventId == st.reservation.value.eventId && actor.kind == Operator
      && e.causationId == Some(reconciliationEventId)
      && st.reconciliation.Some? && reconciliationEventId == st.reconciliation.value.eventId
      && st.reconciliation.value.payload.ReconciliationRequired? && st.reconciliation.value.payload.knownNoEffect
    case _ => true
  }

  /** Some round asks nothing material. */
  predicate AsksNothing(observed: seq<Event>) {
    exists k :: 0 <= k < |observed| && forall u :: u in UncertaintiesOf(observed[k]) ==> !u.material
  }

  predicate RevisionOk(r: Id, st: AnalysisState, round: nat, answer: Answer) {
    var latest := UnansweredMaterial(st);
    && latest.Some? && latest.value.payload.Observed? && round == latest.value.payload.round
    && var us := latest.value.payload.uncertainties;
    && QuestionnaireFor(r, round, us) == Some(answer.decision)
    && answer.actor.kind == Operator && answer.optionId.Combination?
    && CanonicalUncertainties(us).Some? && Combined(us, COMBINATION_CAP).Some?
    && answer.selections == answer.optionId.selections && answer.selections in Combined(us, COMBINATION_CAP).value
    && answer.meanings == Meanings(CanonicalUncertainties(us).value, answer.selections)
    && answer.meaningDigest == (answer.packet, answer.optionId, answer.meanings)
  }

  /** The other events of the journal an event of the analysis refers to. */
  ghost predicate LookupOk(s: Streams, r: Id, e: Event) {
    match e.payload
    case Started(_, _, _, _, _) =>
      exists f :: f in Read(s, RunStream(r)) && f.payload.IntakeCompleted? && f.correlationId == r
                  && e.causationId == Some(f.eventId)
    case Reserved(_, _, _, _, _, reservationId, budgetEventId, _) =>
      exists f :: f in Read(s, BudgetStream(r)) && f.eventId == budgetEventId && f.payload.BudgetReserved?
                  && f.payload.runId == r && f.payload.reservationId == reservationId
                  && f.payload.analysisEventId == e.eventId && f.payload.analysisVersion == e.streamVersion
    case Observed(_, _, _, _, _, _, _) =>
      exists f :: f in Read(s, BudgetStream(r)) && f.payload.BudgetCharged? && f.payload.analysisEventId == e.eventId
    case Revised(_, _, answer) =>
      var es := Read(s, DecisionStream(answer.decision));
      && PacketOf(es) == Some(answer.packet) && Acceptance(es).Some?
      && Acceptance(es).value.eventId == answer.decisionEventId
      && Acceptance(es).value.payload.optionId == answer.optionId
      && Acceptance(es).value.payload.actor == answer.actor && Acceptance(es).value.payload.proof == answer.evidence
    case BudgetRevised(_, _, _, _, decisionEventId, actor, evidence) =>
      var es := Read(s, DecisionStream(evidence));
      && PacketOf(es).Some? && Acceptance(es).Some? && Acceptance(es).value.eventId == decisionEventId
      && Acceptance(es).value.payload.optionId == ApplyRevision && Acceptance(es).value.payload.actor == actor
    case _ => true
  }

  lemma LookupStays(s: Streams, s': Streams, r: Id, e: Event)
    requires LookupOk(s, r, e) && StaleView(s, s')
    ensures LookupOk(s', r, e)
  {
    forall x, f | f in Read(s, x) ensures f in Read(s', x) {
      assert Read(s, x) <= Read(s', x);
    }
    match e.payload {
      case Revised(_, _, answer) =>
        assert Read(s, DecisionStream(answer.decision)) <= Read(s', DecisionStream(answer.decision));
      case BudgetRevised(_, _, _, _, _, _, evidence) =>
          assert Read(s, DecisionStream(evidence)) <= Read(s', DecisionStream(evidence));
      case _ =>
    }
  }

  ghost predicate Lawful(s: Streams, r: Id, a: seq<Event>, n: nat)
    requires n < |a|
  {
    && AnalysisAfter(r, a[..n]).Some? && LocalOk(r, AnalysisAfter(r, a[..n]).value, a[..n], a[n])
    && LookupOk(s, r, a[n])
  }

  ghost predicate AllLawful(s: Streams, r: Id) {
    forall n :: 0 <= n < |Analysis(s, r)| ==> Lawful(s, r, Analysis(s, r), n)
  }

  lemma LawfulStays(s: Streams, s': Streams, r: Id, n: nat)
    requires n < |Analysis(s, r)| && Lawful(s, r, Analysis(s, r), n) && StaleView(s, s')
    ensures n < |Analysis(s', r)| && Lawful(s', r, Analysis(s', r), n)
  {
    assert Analysis(s, r) <= Analysis(s', r);
    assert Analysis(s', r)[..n] == Analysis(s, r)[..n];
    LookupStays(s, s', r, Analysis(s, r)[n]);
    hide AnalysisAfter, LocalOk, LookupOk;
  }

  // ---------- New events ----------

  predicate Capped(st: AnalysisState) {
    st.budget.Some? ==> st.budget.value.maxQuestionnaireOptions <= COMBINATION_CAP
  }

  lemma {:induction false} LawfulIsCapped(s: Streams, r: Id, a: seq<Event>, n: nat)
    requires n <= |a| && AnalysisAfter(r, a[..n]).Some? && forall m :: 0 <= m < n ==> Lawful(s, r, a, m)
    ensures Capped(AnalysisAfter(r, a[..n]).value)
  {
    if n > 0 {
      assert a[..n][..n - 1] == a[..n - 1];
      assert Lawful(s, r, a, n - 1);
      LawfulIsCapped(s, r, a, n - 1);
      hide LookupOk, RevisionOk, Covers, StrictlyHigher, SumUsage;
    }
  }

  lemma CapIsMonotone(us: seq<Uncertainty>, cap: nat)
    requires Combined(us, cap).Some? && cap <= COMBINATION_CAP
    ensures Combined(us, COMBINATION_CAP) == Combined(us, cap)
  {
  }

  lemma RevisionIsOk(v: Streams, st: AnalysisState, op: Op)
    requires op.Revise? && RevisionReady(v, st, op) && Capped(st)
    ensures st.reservation.None?
    ensures var e := AnalysisEvent(v, st, op);
      e.0.Revised? && RevisionOk(op.runId, st, e.0.round, e.0.answer)
  {
    CapIsMonotone(UnansweredMaterial(st).value.payload.uncertainties, st.budget.value.maxQuestionnaireOptions);
    hide CanonicalUncertainties, Combined, UnansweredMaterial, Meanings;
  }

  /** The ledger a budget revision was checked against is that of the state it extends. */
  lemma RevisionCovers(t: Streams, s: Streams, v: Streams, op: Op, st: AnalysisState)
    requires op.ReviseBudget? && BudgetRevisionReady(v, t, st, op)
    requires Agree(t, op.runId) && StateAt(t, op.runId) == Some(st) && !st.cancelled
    ensures st.terminal.None? ==> Covers(op.budget, SumUsage(st.observed))
  {
    hide AnalysisAfter, LedgerAfter, SumUsage;
  }

  lemma PlainLocalOk(t: Streams, s: Streams, v: Streams, op: Op, st: AnalysisState)
    requires AnalysisOp(op) && !op.Reserve? && AnalysisGuard(v, t, st, op) && Timely(st, op) && Capped(st)
    requires WellKept(st, |Analysis(v, op.runId)|)
    requires op.Observe? ==> st.reservation == Some(op.reservation)
    requires op.ReviseBudget? ==> Agree(t, op.runId) && StateAt(t, op.runId) == Some(st)
    ensures var a := Analysis(v, op.runId);
      LocalOk(op.runId, st, a, Stored(AnalysisStream(op.runId), |a|, OwnEvent(v, t, st, op)))
  {
    hide AnalysisAfter, LedgerAfter, SumUsage, CanonicalUncertainties, Combined, RevisionReady, RevisionOk,
         CountObservations,
         CountQuestions, QuestionnairesFit;
    if op.Exhaust? && op.afterObservation {
      AfterImpliesBefore(st.observed, st.budget.value);
    }
    if op.Revise? {
      RevisionIsOk(v, st, op);
    }
    if op.ReviseBudget? {
      RevisionCovers(t, s, v, op, st);
    }
  }

  lemma StartLookup(s: Streams, v: Streams, op: Op, f: Event)
    requires op.Start? && StaleView(v, s) && f in Read(v, RunStream(op.runId))
    requires IsIntake(f, op.runId, op.intakeEventId)
    ensures forall e: Event :: e.payload.Started? && e.causationId == Some(op.intakeEventId) ==>
            LookupOk(s, op.runId, e)
  {
    assert Read(v, RunStream(op.runId)) <= Read(s, RunStream(op.runId));
    assert f in Read(s, RunStream(op.runId));
  }

  lemma ReviseLookup(s: Streams, v: Streams, st: AnalysisState, op: Op, e: Event)
    requires op.Revise? && RevisionReady(v, st, op) && StaleView(v, s) && e.payload == AnalysisEvent(v, st, op).0
    ensures LookupOk(s, op.runId, e)
  {
    hide CanonicalUncertainties, Combined, UnansweredMaterial, Meanings;
    var latest := UnansweredMaterial(st).value;
    var d := QuestionnaireFor(op.runId, latest.payload.round, latest.payload.uncertainties).value;
    assert Read(v, DecisionStream(d)) <= Read(s, DecisionStream(d));
  }

  lemma ReviseBudgetLookup(t: Streams, s: Streams, v: Streams, st: AnalysisState, op: Op, e: Event)
    requires op.ReviseBudget? && BudgetRevisionReady(v, t, st, op) && StaleView(v, s) && DecisionsOk(s)
    requires e.payload == AnalysisEvent(v, st, op).0
    ensures LookupOk(s, op.runId, e)
  {
    hide LedgerAfter, Covers, StrictlyHigher, Genuine;
    var d := RevisionEvidence(op.runId, st.exhaustion.value.eventId, op.budget);
    assert Read(v, DecisionStream(d)) <= Read(s, DecisionStream(d));
    assert DecisionOk(Read(s, DecisionStream(d)), d);
  }

  lemma PlainLookupOk(t: Streams, s: Streams, v: Streams, op: Op, st: AnalysisState)
    requires AnalysisOp(op) && !op.Reserve? && !op.Observe? && AnalysisGuard(v, t, st, op)
    requires StaleView(v, s) && DecisionsOk(s)
    ensures var a := Analysis(v, op.runId);
      LookupOk(s, op.runId, Stored(AnalysisStream(op.runId), |a|, OwnEvent(v, t, st, op)))
  {
    hide AnalysisAfter, LedgerAfter, RevisionReady, BudgetRevisionReady, BudgetReason, StaleView, DecisionsOk;
    var r := op.runId;
    var e := Stored(AnalysisStream(r), |Analysis(v, r)|, OwnEvent(v, t, st, op));
    if op.Revise? {
      ReviseLookup(s, v, st, op, e);
    } else if op.ReviseBudget? {
      ReviseBudgetLookup(t, s, v, st, op, e);
    } else if op.Start? {
      var i :| 0 <= i < |Read(v, RunStream(r))| && IsIntake(Read(v, RunStream(r))[i], r, op.intakeEventId);
      StartLookup(s, v, op, Read(v, RunStream(r))[i]);
    }
  }

  // ---------- Steps and runs ----------

  lemma StepGrows(t: Streams, s: Streams, s': Streams, v: Streams, op: Op)
    requires Step(t, s, s', v, op)
    ensures StaleView(s, s') && StaleView(v, s)
  {
    hide Guard, Plan;
    AppliedExtends(s, Plan(v, t, op));
  }

  lemma ReserveIsLawful(t: Streams, s: Streams, s': Streams, v: Streams, op: Op)
    requires op.Reserve? && Guard(v, t, op) && Analysis(v, op.runId) == Analysis(s, op.runId)
    requires Shaped(Plan(v, t, op), op.runId, true)
    requires Commits(s, s', op.runId, Plan(v, t, op)[0].events[0], Some(Plan(v, t, op)[1].events[0]))
    ensures var a, st := Analysis(s, op.runId), StateAt(s, op.runId).value;
      var e := Stored(AnalysisStream(op.runId), |a|, Plan(v, t, op)[0].events[0]);
      LocalOk(op.runId, st, a, e) && LookupOk(s', op.runId, e) && e.payload.Reserved?
  {
    hide AnalysisAfter, LedgerAfter, SumUsage, BudgetReason, Remaining, UnansweredMaterial;
    var b := Read(s', BudgetStream(op.runId));
    assert b[|b| - 1] in b;
  }

  lemma ObserveIsLawful(t: Streams, s: Streams, s': Streams, v: Streams, op: Op, st: AnalysisState)
    requires op.Observe? && AnalysisGuard(v, t, st, op) && Analysis(v, op.runId) == Analysis(s, op.runId)
    requires LedgerAt(t, op.runId).Some? && Pending(LedgerAt(t, op.runId).value)
    requires Commits(s, s', op.runId, OwnEvent(v, t, st, op),
                     Some(ChargeWrite(t, op.runId, op.usage, op.id, op.ledgerId).events[0]))
    ensures var a := Analysis(s, op.runId);
      LookupOk(s', op.runId, Stored(AnalysisStream(op.runId), |a|, OwnEvent(v, t, st, op)))
  {
    hide AnalysisAfter, LedgerAfter;
    var b := Read(s', BudgetStream(op.runId));
    assert b[|b| - 1] in b;
  }

  /** The event a timely commit appends is lawful. */
  lemma NewEventIsLawful(t: Streams, s: Streams, s': Streams, v: Streams, op: Op)
    requires AnalysisOp(op) && Step(t, s, s', v, op) && Agree(s, op.runId) && UniqueIds(s) && DecisionsOk(s')
    requires op.ReviseBudget? ==> Agree(t, op.runId)
    requires Timely(StateAt(s, op.runId).value, op) && Capped(StateAt(s, op.runId).value)
    ensures Shaped(Plan(v, t, op), op.runId, Touches(op))
    ensures var a, st := Analysis(s, op.runId), StateAt(s, op.runId).value;
      var e := Stored(AnalysisStream(op.runId), |a|, Plan(v, t, op)[0].events[0]);
      Analysis(s', op.runId) == a + [e] && LocalOk(op.runId, st, a, e) && LookupOk(s', op.runId, e)
  {
    hide LocalOk, LookupOk, AnalysisAfter, LedgerAfter, Applied, Accepts, NewIds, DecisionsOk, UniqueIds;
    OpCommits(t, s, s', v, op);
    StepGrows(t, s, s', v, op);
    if op.Reserve? {
      ReserveIsLawful(t, s, s', v, op);
    } else {
      PlainIsLawful(t, s, s', v, op);
    }
    hide Plan, Guard;
  }

  lemma ViewGrows(v: Streams, s: Streams, s': Streams)
    requires StaleView(v, s) && StaleView(s, s')
    ensures StaleView(v, s')
  {
    forall x ensures Read(v, x) <= Read(s', x) {
      assert Read(v, x) <= Read(s, x) <= Read(s', x);
    }
  }

  lemma PlainIsLawful(t: Streams, s: Streams, s': Streams, v: Streams, op: Op)
    requires AnalysisOp(op) && !op.Reserve? && Guard(v, t, op) && Agree(s, op.runId) && UniqueIds(s) && DecisionsOk(s')
    requires Analysis(v, op.runId) <= Analysis(t, op.runId) && StaleView(t, s) && StaleView(s, s') && StaleView(v, s)
    requires op.ReviseBudget? ==> Agree(t, op.runId)
    requires Timely(StateAt(s, op.runId).value, op) && Capped(StateAt(s, op.runId).value)
    requires Analysis(v, op.runId) == Analysis(s, op.runId) && Shaped(Plan(v, t, op), op.runId, Touches(op))
    requires Commits(s, s', op.runId, Plan(v, t, op)[0].events[0],
                     if Touches(op) then Some(Plan(v, t, op)[1].events[0]) else None)
    ensures var a, st := Analysis(s, op.runId), StateAt(s, op.runId).value;
      var e := Stored(AnalysisStream(op.runId), |a|, Plan(v, t, op)[0].events[0]);
      LocalOk(op.runId, st, a, e) && LookupOk(s', op.runId, e)
  {
    hide LocalOk, LookupOk, AnalysisAfter, LedgerAfter, UniqueIds, DecisionsOk, Plan;
    var r, st := op.runId, StateAt(s, op.runId).value;
    PlanShapeUncharged(v, t, op);
    ViewGrows(v, s, s');
    if op.Observe? {
      OwnIsOpen(s, r, op.reservation);
      ObserveIsLawful(t, s, s', v, op, st);
    } else {
      PlainLookupOk(t, s', v, op, st);
    }
    assert Read(v, AnalysisStream(r)) <= Read(t, AnalysisStream(r)) <= Read(s, AnalysisStream(r));
    assert Analysis(t, r) == Analysis(s, r);
    PlainLocalOk(t, s, v, op, st);
    hide AnalysisGuard, AnalysisEvent, Commits, Agree, Timely, StaleView;
  }

  lemma ExtendLawful(s: Streams, s': Streams, r: Id, e: Event)
    requires AllLawful(s, r) && StaleView(s, s') && Analysis(s', r) == Analysis(s, r) + [e] && StateAt(s, r).Some?
    requires LocalOk(r, StateAt(s, r).value, Analysis(s, r), e) && LookupOk(s', r, e)
    ensures AllLawful(s', r)
  {
    hide LocalOk, LookupOk, AnalysisAfter, StaleView;
    var a := Analysis(s, r);
    forall n | 0 <= n < |Analysis(s', r)| ensures Lawful(s', r, Analysis(s', r), n) {
      if n < |a| {
        LawfulStays(s, s', r, n);
      } else {
        assert Analysis(s', r)[..n] == a;
      }
    }
  }

  lemma OwnStepKeepsLawful(t: Streams, s: Streams, s': Streams, v: Streams, op: Op)
    requires AnalysisOp(op) && Step(t, s, s', v, op) && Agree(s, op.runId) && UniqueIds(s) && DecisionsOk(s')
    requires op.ReviseBudget? ==> Agree(t, op.runId)
    requires Timely(StateAt(s, op.runId).value, op) && AllLawful(s, op.runId)
    ensures AllLawful(s', op.runId)
  {
    hide LocalOk, LookupOk, AnalysisAfter, Timely, DecisionsOk, UniqueIds, StaleView, Lawful, LedgerAfter, Plan, Guard,
         NewIds, Accepts, Applied;
    var r, a := op.runId, Analysis(s, op.runId);
    assert a[..|a|] == a;
    LawfulIsCapped(s, r, a, |a|);
    NewEventIsLawful(t, s, s', v, op);
    StepGrows(t, s, s', v, op);
    ExtendLawful(s, s', r, Stored(AnalysisStream(r), |a|, Plan(v, t, op)[0].events[0]));
  }

  lemma StepKeepsLawful(t: Streams, s: Streams, s': Streams, v: Streams, op: Op, r: Id)
    requires Step(t, s, s', v, op) && Agree(s, r) && Agree(t, r) && UniqueIds(s) && DecisionsOk(s')
    requires AnalysisOp(op) && op.runId == r ==> Timely(StateAt(s, r).value, op)
    requires AllLawful(s, r)
    ensures AllLawful(s', r)
  {
    hide Lawful, AnalysisAfter, LedgerAfter, Step, Agree, Timely, DecisionsOk, UniqueIds;
    if AnalysisOp(op) && op.runId == r {
      OwnStepKeepsLawful(t, s, s', v, op);
    } else {
      if AnalysisOp(op) {
        OpCommits(t, s, s', v, op);
      } else {
        OtherOpsAreSilent(t, s, s', v, op, r);
      }
      StepGrows(t, s, s', v, op);
      forall n | 0 <= n < |Analysis(s', r)| ensures Lawful(s', r, Analysis(s', r), n) {
        LawfulStays(s, s', r, n);
      }
    }
  }

  lemma NewChargeNames(t: Streams, s: Streams, s': Streams, v: Streams, op: Op, st: AnalysisState)
    requires Charges(op) && AnalysisGuard(v, t, st, op) && Agree(s, op.runId) && StateAt(s, op.runId) == Some(st)
    requires Analysis(v, op.runId) == Analysis(s, op.runId)
    requires Read(t, BudgetStream(op.runId)) == Read(s, BudgetStream(op.runId)) && Pending(LedgerAt(s, op.runId).value)
    requires op.Observe? ==> st.reservation == Some(op.reservation)
    requires Commits(s, s', op.runId, OwnEvent(v, t, st, op),
                     Some(ChargeWrite(t, op.runId, ChargedUsage(op), op.id, op.ledgerId).events[0]))
    ensures var b := Read(s', BudgetStream(op.runId));
      |b| > 0 && b[|b| - 1].payload.BudgetCharged? && ChargeNames(op.runId, Analysis(s', op.runId), b[|b| - 1])
  {
    hide AnalysisAfter, LedgerAfter, SumUsage, BudgetReason;
    var r, a, a' := op.runId, Analysis(s, op.runId), Analysis(s', op.runId);
    var charge := Read(s', BudgetStream(r))[|Read(s', BudgetStream(r))| - 1];
    assert a'[..|a|] == a && a'[|a|].eventId == charge.payload.analysisEventId;
    assert Charged(r, a', |a|, charge);
  }

  lemma ExtendCharges(s: Streams, s': Streams, r: Id)
    requires ChargesOk(s, r) && Analysis(s, r) <= Analysis(s', r)
    requires forall c ::
               c in Read(s', BudgetStream(r)) && c !in Read(s, BudgetStream(r)) && c.payload.BudgetCharged? ==>
                 ChargeNames(r, Analysis(s', r), c)
    ensures ChargesOk(s', r)
  {
    hide ChargeNames;
    forall c | c in Read(s', BudgetStream(r)) && c.payload.BudgetCharged? ensures ChargeNames(r, Analysis(s', r), c) {
      if c in Read(s, BudgetStream(r)) {
        ChargeStays(r, Analysis(s, r), Analysis(s', r), c);
      }
    }
  }

  lemma ChargeOfPlan(t: Streams, s: Streams, s': Streams, v: Streams, op: Op)
    requires Charges(op) && Step(t, s, s', v, op) && Agree(s, op.runId) && UniqueIds(s)
    requires Timely(StateAt(s, op.runId).value, op)
    ensures Analysis(s, op.runId) <= Analysis(s', op.runId)
    ensures var b, b' := Read(s, BudgetStream(op.runId)), Read(s', BudgetStream(op.runId));
      |b'| == |b| + 1 && b'[..|b|] == b && b'[|b|].payload.BudgetCharged?
      && ChargeNames(op.runId, Analysis(s', op.runId), b'[|b|])
  {
    hide AnalysisAfter, LedgerAfter, UniqueIds, ChargeNames, StaleView, Applied, NewIds, Accepts, BudgetReason;
    var r, st := op.runId, StateAt(s, op.runId).value;
    OpCommits(t, s, s', v, op);
    PlanShapeUncharged(v, t, op);
    if op.Observe? {
      OwnIsOpen(s, r, op.reservation);
    }
    hide Step;
    NewChargeNames(t, s, s', v, op, st);
    hide AnalysisGuard, AnalysisEvent, ChargeWrite, Agree, Timely;
  }

  lemma NoCharge(t: Streams, s: Streams, s': Streams, v: Streams, op: Op)
    requires AnalysisOp(op) && !Charges(op) && Step(t, s, s', v, op)
    ensures Analysis(s, op.runId) <= Analysis(s', op.runId)
    ensures forall c :: c in Read(s', BudgetStream(op.runId)) && c.payload.BudgetCharged? ==>
            c in Read(s, BudgetStream(op.runId))
  {
    OpCommits(t, s, s', v, op);
    if op.Reserve? {
      ReserveWritesNoCharge(v, t, op);
    }
    hide AnalysisAfter, LedgerAfter, Step, Plan, Guard;
  }

  lemma OwnStepKeepsCharges(t: Streams, s: Streams, s': Streams, v: Streams, op: Op)
    requires AnalysisOp(op) && Step(t, s, s', v, op) && Agree(s, op.runId) && UniqueIds(s)
    requires Timely(StateAt(s, op.runId).value, op) && ChargesOk(s, op.runId)
    ensures ChargesOk(s', op.runId)
  {
    hide AnalysisAfter, LedgerAfter, Step, Timely, UniqueIds, ChargeNames, ChargesOk;
    if Charges(op) {
      ChargeOfPlan(t, s, s', v, op);
    } else {
      NoCharge(t, s, s', v, op);
    }
    ExtendCharges(s, s', op.runId);
  }

  lemma ReserveWritesNoCharge(v: Streams, t: Streams, op: Op)
    requires op.Reserve? && Guard(v, t, op)
    ensures |Plan(v, t, op)| > 1 && |Plan(v, t, op)[1].events| == 1
            && Plan(v, t, op)[1].events[0].payload.BudgetReserved?
  {
    hide AnalysisAfter, LedgerAfter, BudgetReason, Remaining;
  }

  lemma StepKeepsCharges(t: Streams, s: Streams, s': Streams, v: Streams, op: Op, r: Id)
    requires Step(t, s, s', v, op) && Agree(s, r) && UniqueIds(s) && ChargesOk(s, r)
    requires AnalysisOp(op) && op.runId == r ==> Timely(StateAt(s, r).value, op)
    ensures ChargesOk(s', r)
  {
    hide AnalysisAfter, LedgerAfter, Step, Agree, Timely, UniqueIds;
    if AnalysisOp(op) && op.runId == r {
      OwnStepKeepsCharges(t, s, s', v, op);
    } else if AnalysisOp(op) {
      OpCommits(t, s, s', v, op);
    } else {
      OtherOpsAreSilent(t, s, s', v, op, r);
    }
  }

  lemma CommitKeepsChargesInPlace(s: Streams, ws: Commit)
    requires Accepts(s, ws) && ChargesInPlace(s)
    requires forall k, i :: 0 <= k < |ws| && 0 <= i < |ws[k].events| && ws[k].events[i].payload.BudgetCharged? ==>
               ws[k].stream.BudgetStream?
    ensures ChargesInPlace(Applied(s, ws))
  {
    var s' := Applied(s, ws);
    forall x, i | 0 <= i < |Read(s', x)| && Read(s', x)[i].payload.BudgetCharged? ensures x.BudgetStream? {
      if WritesTo(ws, x) {
        var k :| 0 <= k < |ws| && ws[k].stream == x;
        ExtendedStream(s, ws, k);
        if i >= |Read(s, x)| {
          assert Read(s', x)[i].payload == ws[k].events[i - |Read(s, x)|].payload;
        }
      } else {
        UntouchedStream(s, ws, x);
      }
    }
  }

  lemma PlanChargesInPlace(v: Streams, t: Streams, op: Op)
    requires Guard(v, t, op)
    ensures var ws := Plan(v, t, op);
      forall k, i :: 0 <= k < |ws| && 0 <= i < |ws[k].events| && ws[k].events[i].payload.BudgetCharged? ==>
        ws[k].stream.BudgetStream?
  {
    hide AnalysisAfter, LedgerAfter, BudgetReason, Remaining, RevisionReady, BudgetRevisionReady, AnalysisEvent;
    if AnalysisOp(op) && !op.Reserve? {
      EventIsNoCharge(v, t, StateAt(v, op.runId).value, op);
    }
  }

  lemma EventIsNoCharge(v: Streams, t: Streams, st: AnalysisState, op: Op)
    requires AnalysisOp(op) && !op.Reserve? && AnalysisGuard(v, t, st, op)
    ensures !AnalysisEvent(v, st, op).0.BudgetCharged?
  {
    hide AnalysisAfter, LedgerAfter, BudgetReason;
  }

  /** Everything the provenance of a run rests on. */
  ghost predicate Documented(s: Streams) {
    && UniqueIds(s) && Contiguous(s) && DecisionsOk(s) && ChargesInPlace(s)
    && (forall r :: Agree(s, r) && AllLawful(s, r) && ChargesOk(s, r))
  }

  lemma StepKeepsDocumented(t: Streams, s: Streams, s': Streams, v: Streams, op: Op)
    requires Step(t, s, s', v, op) && Documented(s) && (forall r :: Agree(t, r))
    requires AnalysisOp(op) ==> TimelyAt(s, op)
    ensures Documented(s')
  {
    StepKeepsUnique(t, s, s', v, op);
    StepKeepsDecisions(t, s, s', v, op);
    PlanChargesInPlace(v, t, op);
    CommitKeepsChargesInPlace(s, Plan(v, t, op));
    AppliedContiguous(s, Plan(v, t, op));
    hide AnalysisAfter, LedgerAfter, Agree, Timely, UniqueIds, Contiguous, DecisionsOk, ChargesInPlace, AllLawful,
         ChargesOk,
         Guard, Plan, Applied, StaleView;
    forall r ensures Agree(s', r) && AllLawful(s', r) && ChargesOk(s', r) {
      StepAgrees(t, s, s', v, op, r);
      StepKeepsLawful(t, s, s', v, op, r);
      StepKeepsCharges(t, s, s', v, op, r);
    }
  }

  /** Along every run of timely commits, every event of every analysis is accounted for. */
  lemma {:induction false} TimelyRunDocumented(run: seq<Streams>, i: nat)
    requires TimelyRun(run) && i < |run|
    ensures Documented(run[i])
  {
    hide Step;
    if i > 0 {
      hide Documented, Agree;
      TimelyRunDocumented(run, i - 1);
      assert TimelyStep(run, i);
      var v, op :| StepFrom(run, i, v, op) && (AnalysisOp(op) ==> TimelyAt(run[i - 1], op));
      var j :| 0 <= j < i && Step(run[j], run[i - 1], run[i], v, op);
      forall r ensures Agree(run[j], r) {
        TimelyRunAgrees(run, j, r);
      }
      StepKeepsDocumented(run[j], run[i - 1], run[i], v, op);
    }
  }
}
