/** The commits of analysis coordinators, each planned on what its client has read so far. */
module AnalysisSteps {
  import opened EventJournal
  import opened Questionnaire
  import opened AnalysisModel

  /** When an analysis is ended without a charge. */
  datatype Occasion = RunCancelled | BeforeDispatch | AfterDecision(decision: Evidence) | AfterObservation

  datatype Op =
    | Start(runId: Id, snapshot: Id, source: Id, budget: Budget, sourceCount: nat, intakeEventId: Id, id: Id)
    | Reserve(runId: Id, request: Id, reservationId: Id, runVersion: nat, id: Id, ledgerId: Id)
    | Observe(runId: Id, reservation: Event, observations: seq<Id>, uncertainties: seq<Uncertainty>, usage: Usage,
              id: Id, ledgerId: Id)
    | Settle(runId: Id, reservation: Event, outcome: Option<Outcome>, usage: Usage, runEventId: Id,
             endsRun: Option<nat>,
             id: Id, ledgerId: Id)
    | Release(runId: Id, actor: Actor, id: Id, ledgerId: Id)
    | Reconcile(runId: Id, reservation: Event, knownNoEffect: bool, usage: Usage, id: Id)
    | Revise(runId: Id, actor: Actor, id: Id)
    | Exhaust(runId: Id, afterObservation: bool, id: Id)
    | ReviseBudget(runId: Id, budget: Budget, id: Id)
    | Complete(runId: Id, round: nat, id: Id)
    | Close(runId: Id, occasion: Occasion, ending: Payload, runEventId: Id, id: Id)
    | Ask(packet: Packet, id: Id)
    | Decide(decision: Evidence, verdict: Payload, id: Id)
    | Elsewhere(runId: Id, payload: Payload, id: Id)

  function Analysis(v: Streams, r: Id): seq<Event> { Read(v, AnalysisStream(r)) }

  function StateAt(v: Streams, r: Id): Option<AnalysisState> { AnalysisAfter(r, Analysis(v, r)) }

  function LedgerAt(v: Streams, r: Id): Option<Ledger> { LedgerAfter(r, Read(v, BudgetStream(r))) }

  predicate AcceptedAs(v: Streams, decision: Evidence, optionId: OptionId) {
    var es := Read(v, DecisionStream(decision));
    Acceptance(es).Some? && Acceptance(es).value.payload.optionId == optionId
  }

  predicate AcceptedBy(v: Streams, decision: Evidence, optionId: OptionId) {
    && AcceptedAs(v, decision, optionId)
    && Acceptance(Read(v, DecisionStream(decision))).value.payload.actor.kind == Operator
  }

  /** The questionnaire a round's uncertainties are put into. */
  function QuestionnaireFor(r: Id, round: nat, us: seq<Uncertainty>): Option<Evidence> {
    var canonical := CanonicalUncertainties(us);
    if canonical.None? then None else
    var again := CanonicalUncertainties(canonical.value);
    if again.None? then None else Some(QuestionnaireEvidence(r, round, again.value))
  }

  /** The answer a revision records: the accepted combination, unfolded question by question. */
  function AnswerOf(decision: Evidence, accepted: Event, packet: Packet, us: seq<Uncertainty>): Answer
    requires accepted.payload.Decided? && accepted.payload.optionId.Combination?
  {
    var selections := accepted.payload.optionId.selections;
    var meanings := Meanings(us, selections);
    Answer(decision, accepted.eventId, accepted.payload.optionId, accepted.payload.actor, accepted.payload.proof,
           packet, selections, meanings, (packet, accepted.payload.optionId, meanings))
  }

  // ---------- Guards ----------

  predicate Live(st: AnalysisState) {
    st.started.Some? && st.budget.Some? && !st.completed && !st.cancelled && st.terminal.None?
  }

  predicate Idle(st: AnalysisState) {
    Live(st) && st.reservation.None? && st.exhaustion.None?
  }

  /** The client's own reservation: an event of the stream it has read. */
  predicate OwnReservation(v: Streams, r: Id, reservation: Event) {
    reservation in Analysis(v, r) && reservation.payload.Reserved?
  }

  predicate RevisionReady(v: Streams, st: AnalysisState, op: Op)
    requires op.Revise?
  {
    var latest := UnansweredMaterial(st);
    && Idle(st) && latest.Some? && latest.value.payload.Observed?
    && var us := latest.value.payload.uncertainties;
    && var decision := QuestionnaireFor(op.runId, latest.value.payload.round, us);
    && decision.Some?
    && var es := Read(v, DecisionStream(decision.value));
    && PacketOf(es).Some? && Acceptance(es).Some?
    && Acceptance(es).value.payload.actor.kind == Operator && Acceptance(es).value.payload.optionId.Combination?
    && var vectors := Combined(us, st.budget.value.maxQuestionnaireOptions);
    && vectors.Some? && Acceptance(es).value.payload.optionId.selections in vectors.value
  }

  predicate BudgetRevisionReady(v: Streams, t: Streams, st: AnalysisState, op: Op)
    requires op.ReviseBudget?
  {
    && st.exhaustion.Some? && st.budget.Some? && st.exhaustion.value.payload.Exhausted?
    && LedgerAt(t, op.runId).Some? && Covers(op.budget, LedgerAt(t, op.runId).value.consumed)
    && StrictlyHigher(op.budget, st.budget.value) && op.budget.maxQuestionnaireOptions <= COMBINATION_CAP
    && AcceptedAs(v, st.exhaustion.value.payload.evidence, AwaitRevision)
    && AcceptedBy(v, RevisionEvidence(op.runId, st.exhaustion.value.eventId, op.budget), ApplyRevision)
  }

  /** What a client checks before it commits: `v` is what it has read, `t` the journal at its later read
    * of the ledger. */
  predicate Guard(v: Streams, t: Streams, op: Op) {
    if op.Ask? then Genuine(op.packet)
    else if op.Decide? then Decisive(Read(v, DecisionStream(op.decision)), op.decision, op.verdict)
    else if op.Elsewhere? then op.payload.IntakeCompleted? || op.payload.RunTerminal? || op.payload.RunEvent?
    else StateAt(v, op.runId).Some? && AnalysisGuard(v, t, StateAt(v, op.runId).value, op)
  }

  predicate AnalysisGuard(v: Streams, t: Streams, st: AnalysisState, op: Op)
    requires !op.Ask? && !op.Decide? && !op.Elsewhere?
  {
    var ledger := LedgerAt(t, op.runId);
    match op
    case Start(r, _, _, _, _, intake, _) =>
      && st.started.None? && !st.cancelled && st.terminal.None? && op.budget.maxQuestionnaireOptions <= COMBINATION_CAP
      && exists i :: 0 <= i < |Read(v, RunStream(r))| && IsIntake(Read(v, RunStream(r))[i], r, intake)
    case Reserve(r, _, _, _, _, _) =>
      && Idle(st) && LatestAnswered(st) && st.started.value.Started?
      && BudgetReason(st.observed, st.budget.value, true).None?
      && ledger.Some? && ledger.value.pending.None? && ledger.value.consumed == SumUsage(st.observed)
      && Remaining(st.budget.value, ledger.value.consumed).Some?
    case Observe(r, reservation, _, _, _, _, _) =>
      OwnReservation(v, r, reservation) && ledger.Some? && Pending(ledger.value)
    case Settle(r, reservation, _, _, _, _, _, _) => ledger.Some? && Pending(ledger.value)
    case Release(_, actor, _, _) =>
      && actor.kind == Operator && st.reconciliation.Some? && st.reservation.Some?
      && st.reconciliation.value.payload.ReconciliationRequired? && st.reconciliation.value.payload.knownNoEffect
      && ledger.Some? && Pending(ledger.value)
    case Reconcile(r, reservation, _, _, _) => OwnReservation(v, r, reservation)
    case Revise(_, _, _) => RevisionReady(v, st, op)
    case Exhaust(_, afterObservation, _) =>
      && st.budget.Some? && BudgetReason(st.observed, st.budget.value, !afterObservation).Some?
      && (!afterObservation ==> Idle(st) && LatestAnswered(st))
    case ReviseBudget(_, _, _) => BudgetRevisionReady(v, t, st, op)
    case Complete(_, round, _) =>
      && st.started.Some? && st.started.value.Started? && st.budget.Some?
      && BudgetReason(st.observed, st.budget.value, false).None?
      && 1 <= round <= |st.observed| && !HasMaterial(UncertaintiesOf(st.observed[round - 1]))
    case Close(r, occasion, ending, _, _) =>
      && (ending.Cancelled? || ending.Terminated?) && ending.runId == r && EndedBy(ending) == op.runEventId
      && (occasion == RunCancelled ==> !st.cancelled && !st.completed && st.reservation.None?)
      && (occasion == BeforeDispatch ==> Idle(st))
      && (occasion.AfterDecision? ==>
            Refused(Read(v, DecisionStream(occasion.decision))) && OwnQuestion(v, r, occasion.decision))
      && (occasion == AfterObservation ==> |st.observed| > 0)
  }

  /** The event of the run an ending follows. */
  function EndedBy(ending: Payload): Id
    requires ending.Cancelled? || ending.Terminated?
  {
    if ending.Cancelled? then ending.cancellationEventId else ending.runTerminalEventId
  }

  predicate IsIntake(event: Event, r: Id, id: Id) {
    event.eventId == id && event.payload.IntakeCompleted? && event.correlationId == r
  }

  /** In this state the coordinator waits for decision `d`: about its recorded exhaustion, or about what the
    * latest round leaves open. */
  predicate WaitsFor(st: AnalysisState, r: Id, d: Evidence) {
    || (st.exhaustion.Some? && st.exhaustion.value.payload.Exhausted? && st.exhaustion.value.payload.evidence == d)
    || (Idle(st) && UnansweredMaterial(st).Some?
        && var latest := UnansweredMaterial(st).value;
        latest.payload.Observed? && QuestionnaireFor(r, latest.payload.round, latest.payload.uncertainties) == Some(d))
  }

  predicate WaitsAt(a: seq<Event>, r: Id, d: Evidence) {
    AnalysisAfter(r, a).Some? && WaitsFor(AnalysisAfter(r, a).value, r, d)
  }

  /** An earlier reading of this analysis asked for the decision. */
  predicate OwnQuestion(v: Streams, r: Id, d: Evidence) {
    exists n :: 0 <= n <= |Analysis(v, r)| && WaitsAt(Analysis(v, r)[..n], r, d)
  }

  /** The decision is over, and not in favour of going on. */
  predicate Refused(decision: seq<Event>) {
    |decision| > 1 && (decision[1].payload.Decided? ==> decision[1].payload.optionId == CancelAnalysis)
  }

  predicate Pending(ledger: Ledger) {
    ledger.pending.Some? && ledger.pending.value.payload.BudgetReserved?
  }

  /** A packet as the coordinator asks it, named by the evidence it carries. */
  predicate Genuine(packet: Packet) {
    match packet.evidence
    case QuestionnaireEvidence(r, round, us) =>
      && packet.runId == r && packet.questions == us && CanonicalUncertainties(us) == Some(us)
      && (packet.material <==> HasMaterial(us))
    case ExhaustionEvidence(_, _, _) => packet.options == [AwaitRevision, CancelAnalysis] && packet.material
    case RevisionEvidence(r, _, _) => packet.options == [ApplyRevision] && packet.runId == r && packet.material
  }

  /** What the attention protocol guarantees of a decision: one outcome, an offered option, and an
    * operator whenever the question is material. */
  predicate Decisive(decision: seq<Event>, evidence: Evidence, verdict: Payload) {
    && PacketOf(decision).Some? && |decision| == 1
    && var packet := PacketOf(decision).value;
    verdict.Dismissed? || (verdict.Decided? && verdict.decision == evidence && verdict.runId == packet.runId
                           && verdict.optionId in packet.options
                              && (packet.material ==> verdict.actor.kind == Operator))
  }

  // ---------- Plans ----------

  function AnalysisWrite(v: Streams, r: Id, id: Id, payload: Payload, cause: Option<Id>): Write<StreamId, Payload> {
    Write(AnalysisStream(r), |Analysis(v, r)|, [NewEvent(id, payload, cause, r)])
  }

  function ChargeWrite(t: Streams, r: Id, usage: Usage, analysisId: Id, ledgerId: Id): Write<StreamId, Payload>
    requires LedgerAt(t, r).Some? && Pending(LedgerAt(t, r).value)
  {
    var pending := LedgerAt(t, r).value.pending.value;
    Write(BudgetStream(r), |Read(t, BudgetStream(r))|,
          [NewEvent(ledgerId, BudgetCharged(r, pending.payload.reservationId, pending.eventId, analysisId, usage),
                    Some(pending.eventId), r)])
  }

  function ReserveWrites(v: Streams, t: Streams, st: AnalysisState, op: Op): Commit
    requires op.Reserve? && Live(st) && st.started.value.Started? && LedgerAt(t, op.runId).Some?
    requires Remaining(st.budget.value, LedgerAt(t, op.runId).value.consumed).Some?
  {
    var r, round := op.runId, |st.observed| + 1;
    var limits := Remaining(st.budget.value, LedgerAt(t, r).value.consumed).value;
    [AnalysisWrite(v, r, op.id, Reserved(r, round, op.request, st.started.value.source, st.budget.value,
                                         op.reservationId, op.ledgerId, op.runVersion), LastId(Analysis(v, r))),
     Write(BudgetStream(r), |Read(t, BudgetStream(r))|,
           [NewEvent(op.ledgerId, BudgetReserved(r, op.reservationId, round, limits, |Analysis(v, r)| + 1, op.id),
                     LastId(Read(t, BudgetStream(r))), r)]),
     Write(RunStream(r), op.runVersion, [])]
  }

  /** The event an operation appends to its analysis stream, and what caused it. */
  function AnalysisEvent(v: Streams, st: AnalysisState, op: Op): (Payload, Option<Id>)
    requires op.Start? || op.Observe? || op.Settle? || op.Release? || op.Reconcile? || op.Revise? || op.Exhaust?
             || op.ReviseBudget? || op.Complete? || op.Close?
    requires op.Observe? || op.Reconcile? ==> op.reservation.payload.Reserved?
    requires op.Release? ==> st.reservation.Some? && st.reconciliation.Some?
    requires op.Revise? ==> RevisionReady(v, st, op)
    requires op.Exhaust? ==> st.budget.Some? && BudgetReason(st.observed, st.budget.value, !op.afterObservation).Some?
    requires op.ReviseBudget? ==>
               && st.exhaustion.Some? && st.budget.Some?
               && var evidence := RevisionEvidence(op.runId, st.exhaustion.value.eventId, op.budget);
               Acceptance(Read(v, DecisionStream(evidence))).Some?
    requires op.Complete? ==> st.started.Some? && st.started.value.Started? && |st.observed| > 0
  {
    var r := op.runId;
    match op
    case Start(_, snapshot, source, budget, count, intake, _) =>
        (Started(r, snapshot, source, budget, count), Some(intake))
    case Observe(_, own, observations, uncertainties, usage, _, _) =>
      (Observed(r, own.payload.round, observations, uncertainties, usage, own.payload.source, own.eventId),
       Some(own.eventId))
    case Settle(_, own, outcome, usage, runEventId, _, _, _) =>
      (if outcome.None? then Cancelled(r, runEventId)
       else Terminated(r, outcome.value, runEventId, own.eventId, usage), Some(runEventId))
    case Release(_, actor, _, _) =>
      (ReconciliationResolved(r, st.reservation.value.eventId, st.reconciliation.value.eventId, actor),
       Some(st.reconciliation.value.eventId))
    case Reconcile(_, own, knownNoEffect, usage, _) =>
      (ReconciliationRequired(r, own.eventId, knownNoEffect, usage), Some(own.eventId))
    case Revise(_, _, _) =>
      var latest := UnansweredMaterial(st).value;
      var decision := QuestionnaireFor(r, latest.payload.round, latest.payload.uncertainties).value;
      var es := Read(v, DecisionStream(decision));
      (Revised(r, latest.payload.round,
               AnswerOf(decision, Acceptance(es).value, PacketOf(es).value,
                        CanonicalUncertainties(latest.payload.uncertainties).value)),
                          Some(Acceptance(es).value.eventId))
    case Exhaust(_, afterObservation, _) =>
      var reason := BudgetReason(st.observed, st.budget.value, !afterObservation).value;
      (Exhausted(r, |st.observed|, reason, ExhaustionEvidence(reason, st.budget.value, SumUsage(st.observed))),
       LastId(Analysis(v, r)))
    case ReviseBudget(_, budget, _) =>
      var evidence := RevisionEvidence(r, st.exhaustion.value.eventId, budget);
      var accepted := Acceptance(Read(v, DecisionStream(evidence))).value;
      (BudgetRevised(r, st.budget.value, budget, st.exhaustion.value.eventId, accepted.eventId, accepted.payload.actor,
                     evidence), Some(accepted.eventId))
    case Complete(_, _, _) =>
      var last := st.observed[|st.observed| - 1];
      (Completed(r, |st.observed|, CountObservations(st.observed), Payloads(Analysis(v, r)), st.started.value.source,
                 last.eventId, SumUsage(st.observed)), Some(last.eventId))
    case Close(_, _, ending, runEventId, _) => (ending, Some(runEventId))
  }

  function Plan(v: Streams, t: Streams, op: Op): Commit
    requires Guard(v, t, op)
  {
    if op.Ask? then
      [Write(DecisionStream(op.packet.evidence), 0, [NewEvent(op.id, Asked(op.packet), None, op.packet.runId)])]
    else if op.Decide? then
      [Write(DecisionStream(op.decision), 1,
             [NewEvent(op.id, op.verdict, None, PacketOf(Read(v, DecisionStream(op.decision))).value.runId)])]
    else if op.Elsewhere? then
      [Write(RunStream(op.runId), |Read(v, RunStream(op.runId))|, [NewEvent(op.id, op.payload, None, op.runId)])]
    else if op.Reserve? then ReserveWrites(v, t, StateAt(v, op.runId).value, op)
    else AnalysisWrites(v, t, StateAt(v, op.runId).value, op)
  }

  function AnalysisWrites(v: Streams, t: Streams, st: AnalysisState, op: Op): Commit
    requires !op.Ask? && !op.Decide? && !op.Elsewhere? && !op.Reserve? && AnalysisGuard(v, t, st, op)
  {
    var event := AnalysisEvent(v, st, op);
    [AnalysisWrite(v, op.runId, op.id, event.0, event.1)]
    + (if Charges(op) then [ChargeWrite(t, op.runId, ChargedUsage(op), op.id, op.ledgerId)] else [])
    + (if op.Observe? then [Write(RunStream(op.runId), op.reservation.payload.runVersion, [])] else [])
    + (if op.Settle? && op.endsRun.Some? then
         [Write(RunStream(op.runId), op.endsRun.value,
                [NewEvent(op.runEventId, RunTerminal, Some(op.id), op.runId)])] else [])
  }

  predicate Charges(op: Op) {
    op.Observe? || op.Settle? || op.Release?
  }

  function ChargedUsage(op: Op): Usage
    requires Charges(op)
  {
    if op.Release? then NoUsage else op.usage
  }

  /** The random event identities of a commit are new to the journal and to each other. */
  ghost predicate NewIds(s: Streams, op: Op) {
    && Unused(s, op.id)
    && ((Charges(op) || op.Reserve?) ==> Unused(s, op.ledgerId) && op.ledgerId != op.id)
    && (op.Settle? && op.endsRun.Some? ==>
          Unused(s, op.runEventId) && op.runEventId != op.id && op.runEventId != op.ledgerId)
  }

  ghost predicate Unused(s: Streams, id: Id) {
    forall x, i :: 0 <= i < |Read(s, x)| ==> Read(s, x)[i].eventId != id
  }

  predicate AnalysisOp(op: Op) {
    !op.Ask? && !op.Decide? && !op.Elsewhere?
  }

  /** One commit: the streams of `v` as read by the client at any earlier moments, the ledger as it was in the
    * journal `t`, after the client had read the analysis, and the version check against the journal `s`. */
  ghost predicate Step(t: Streams, s: Streams, s': Streams, v: Streams, op: Op) {
    && StaleView(v, s) && StaleView(t, s) && (AnalysisOp(op) ==> Analysis(v, op.runId) <= Analysis(t, op.runId))
    && Guard(v, t, op) && NewIds(s, op)
    && Accepts(s, Plan(v, t, op)) && s' == Applied(s, Plan(v, t, op))
  }

  ghost predicate StepFrom(run: seq<Streams>, i: nat, v: Streams, op: Op)
    requires 0 < i < |run|
  {
    exists j :: 0 <= j < i && Step(run[j], run[i - 1], run[i], v, op)
  }

  /** Step `i` of a run: some client read the ledger at an earlier state `j`. */
  ghost predicate Next(run: seq<Streams>, i: nat)
    requires 0 < i < |run|
  {
    exists v, op :: StepFrom(run, i, v, op)
  }

  ghost predicate Run(run: seq<Streams>) {
    && |run| > 0 && run[0] == map[]
    && forall i :: 0 < i < |run| ==> Next(run, i)
  }
}
