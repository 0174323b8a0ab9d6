/** The two streams of an analysis, its rounds and its shared budget ledger, and their strict replays. */
module AnalysisModel {
  import opened EventJournal
  import opened Questionnaire

  datatype Usage = Usage(inputTokens: nat, outputTokens: nat, inputBytes: nat, outputBytes: nat, durationMs: nat,
                         costUsdNano: nat, receipt: Id)

  const NoUsage := Usage(0, 0, 0, 0, 0, 0, 0)

  /** Numbers add up; the receipt is the last one. */
  function Add(a: Usage, b: Usage): Usage {
    Usage(a.inputTokens + b.inputTokens, a.outputTokens + b.outputTokens, a.inputBytes + b.inputBytes,
          a.outputBytes + b.outputBytes, a.durationMs + b.durationMs, a.costUsdNano + b.costUsdNano, b.receipt)
  }

  predicate SameNumbers(a: Usage, b: Usage) {
    a.(receipt := 0) == b.(receipt := 0)
  }

  datatype Budget = Budget(maxRounds: nat, maxObservations: nat, maxQuestions: nat, maxOptionsPerQuestion: nat,
                           maxQuestionnaireOptions: nat, maxOutputBytes: nat, maxDurationMs: nat, maxInputTokens: nat,
                           maxOutputTokens: nat, maxCostUsdNano: nat)

  /** No budget allows a questionnaire more combined options than this. */
  const COMBINATION_CAP := 64

  datatype Limits = Limits(durationMs: nat, outputBytes: nat, inputTokens: nat, outputTokens: nat, costUsdNano: nat)

  datatype ActorKind = Operator | Service
  datatype Actor = Actor(actorId: Id, kind: ActorKind)

  datatype Reason = Rounds | Observations | Questions | Options | Output | Duration | InputTokens | OutputTokens | Cost
  datatype Outcome = TimedOut | Failed

  /** Digests of structured values are the values: a decision is named by the evidence it is about. */
  datatype Evidence =
    | QuestionnaireEvidence(runId: Id, round: nat, uncertainties: seq<Uncertainty>)
    | ExhaustionEvidence(reason: Reason, budget: Budget, usage: Usage)
    | RevisionEvidence(runId: Id, exhaustionEventId: Id, budget: Budget)

  datatype OptionId = Combination(selections: seq<Selection>) | AwaitRevision | CancelAnalysis | ApplyRevision

  datatype Packet = Packet(evidence: Evidence, runId: Id, questions: seq<Uncertainty>, options: seq<OptionId>,
                           material: bool)

  datatype Meaning = Meaning(uncertainty: Uncertainty, selected: Choice)

  datatype Answer = Answer(decision: Evidence, decisionEventId: Id, optionId: OptionId, actor: Actor, evidence: Id,
                           packet: Packet, selections: seq<Selection>, meanings: seq<Meaning>,
                           meaningDigest: (Packet, OptionId, seq<Meaning>))

  datatype StreamId =
    | AnalysisStream(runId: Id)
    | BudgetStream(runId: Id)
    | RunStream(runId: Id)
    | DecisionStream(decision: Evidence)

  datatype Payload =
    | Started(runId: Id, snapshot: Id, source: Id, budget: Budget, sourceCount: nat)
    | Reserved(runId: Id, round: nat, request: Id, source: Id, budget: Budget, reservationId: Id, budgetEventId: Id,
               runVersion: nat)
    | Observed(runId: Id, round: nat, observations: seq<Id>, uncertainties: seq<Uncertainty>, usage: Usage, source: Id,
               reservationEventId: Id)
    | Revised(runId: Id, round: nat, answer: Answer)
    | Exhausted(runId: Id, round: nat, reason: Reason, evidence: Evidence)
    | BudgetRevised(runId: Id, priorBudget: Budget, budget: Budget, exhaustionEventId: Id, decisionEventId: Id,
                    actor: Actor, evidence: Evidence)
    | Completed(runId: Id, rounds: nat, observationCount: nat, history: seq<Payload>, source: Id,
                finalObservationEventId: Id, totalUsage: Usage)
    | Cancelled(runId: Id, cancellationEventId: Id)
    | Terminated(runId: Id, outcome: Outcome, runTerminalEventId: Id, reservationEventId: Id, usage: Usage)
    | ReconciliationRequired(runId: Id, reservationEventId: Id, knownNoEffect: bool, usage: Usage)
    | ReconciliationResolved(runId: Id, reservationEventId: Id, reconciliationEventId: Id, actor: Actor)
    | BudgetReserved(runId: Id, reservationId: Id, round: nat, limits: Limits, analysisVersion: nat,
                     analysisEventId: Id)
    | BudgetCharged(runId: Id, reservationId: Id, reservationEventId: Id, analysisEventId: Id, usage: Usage)
    | IntakeCompleted
    | RunTerminal
    | RunEvent(tag: Id)
    | Asked(packet: Packet)
    | Decided(decision: Evidence, runId: Id, optionId: OptionId, actor: Actor, proof: Id)
    | Dismissed

  type Event = StoredEvent<StreamId, Payload>
  type Streams = Store<StreamId, Payload>
  type Commit = seq<Write<StreamId, Payload>>

  // ---------- Replay of the analysis stream ----------

  datatype AnalysisState = AnalysisState(started: Option<Payload>, budget: Option<Budget>, reservation: Option<Event>,
                                         exhaustion: Option<Event>, observed: seq<Event>, answers: seq<Answer>,
                                         completed: bool, cancelled: bool, terminal: Option<Outcome>,
                                         reconciliation: Option<Event>)
  {
    predicate Ended() { completed || cancelled }
    predicate Closed() { cancelled || terminal.Some? }
  }

  const Fresh := AnalysisState(None, None, None, None, [], [], false, false, None, None)

  predicate Placed(event: Event, stream: StreamId, version: nat, runId: Id) {
    event.streamId == stream && event.streamVersion == version && event.correlationId == runId
  }

  /** The event at position `at`, after `prior`. */
  function Advance(runId: Id, st: AnalysisState, prior: Option<Id>, event: Event, at: nat): Option<AnalysisState> {
    if !Placed(event, AnalysisStream(runId), at + 1, runId) || st.Ended() then None else
    match event.payload
    case Started(run, _, _, budget, _) =>
      if at != 0 || run != runId then None else Some(st.(started := Some(event.payload), budget := Some(budget)))
    case Reserved(run, _, _, _, _, _, _, _) =>
      if st.reservation.Some? || st.exhaustion.Some? || prior.None? || event.causationId != prior
          || run != runId then None
      else Some(st.(reservation := Some(event)))
    case Observed(run, round, _, _, _, _, reservationEventId) =>
      if st.reservation.None? || event.causationId != Some(st.reservation.value.eventId)
         || reservationEventId != st.reservation.value.eventId || round != |st.observed| + 1 || run != runId then None
      else Some(st.(observed := st.observed + [event], reservation := None))
    case Revised(run, round, answer) =>
      if round == 0 || round != |st.observed| || event.causationId != Some(answer.decisionEventId)
          || run != runId then None
      else Some(st.(answers := st.answers + [answer]))
    case Exhausted(run, _, _, _) =>
      if prior.None? || event.causationId != prior || run != runId then None
      else Some(st.(exhaustion := Some(event),
                    reservation := if st.reservation.Some? && event.causationId == Some(st.reservation.value.eventId)
                      then None else st.reservation))
    case BudgetRevised(run, priorBudget, budget, exhaustionEventId, decisionEventId, _, _) =>
      if st.exhaustion.None? || exhaustionEventId != st.exhaustion.value.eventId
         || event.causationId != Some(decisionEventId) || st.budget != Some(priorBudget) || run != runId then None
      else Some(st.(budget := Some(budget), exhaustion := None))
    case Completed(run, _, _, _, _, _, _) => if run != runId then None else Some(st.(completed := true))
    case Cancelled(run, _) => if run != runId then None else Some(st.(cancelled := true, reservation := None))
    case Terminated(run, outcome, _, _, _) =>
      if run != runId then None else Some(st.(terminal := Some(outcome), reservation := None))
    case ReconciliationRequired(run, _, _, _) => if run != runId then None else Some(st.(reconciliation := Some(event)))
    case ReconciliationResolved(run, _, _, _) =>
      if run != runId then None else Some(st.(reservation := None, reconciliation := None))
    case _ => None
  }

  function LastId(events: seq<Event>): Option<Id> {
    if events == [] then None else Some(events[|events| - 1].eventId)
  }

  function AnalysisAfter(runId: Id, events: seq<Event>): Option<AnalysisState> {
    if events == [] then Some(Fresh) else
    var front := events[..|events| - 1];
    var before := AnalysisAfter(runId, front);
    if before.None? then None else Advance(runId, before.value, LastId(front), events[|events| - 1], |front|)
  }

  method ProjectAnalysis(runId: Id, events: seq<Event>) returns (result: Option<AnalysisState>)
    ensures result == AnalysisAfter(runId, events)
  {
    var st := Fresh;
    for n := 0 to |events|
      invariant AnalysisAfter(runId, events[..n]) == Some(st)
    {
      var step := Advance(runId, st, LastId(events[..n]), events[n], n);
      assert events[..n + 1][..n] == events[..n];
      assert AnalysisAfter(runId, events[..n + 1]) == step;
      if step.None? {
        BrokenStaysBroken(runId, events, n + 1);
        return None;
      }
      st := step.value;
    }
    assert events[..|events|] == events;
    result := Some(st);
  }

  lemma {:induction false} BrokenStaysBroken(runId: Id, events: seq<Event>, n: nat)
    requires n <= |events| && AnalysisAfter(runId, events[..n]).None?
    ensures AnalysisAfter(runId, events).None?
  {
    if n == |events| {
      assert events[..n] == events;
    } else {
      var front := events[..|events| - 1];
      assert front[..n] == events[..n];
      BrokenStaysBroken(runId, front, n);
    }
  }

  lemma AnalysisSnoc(runId: Id, events: seq<Event>, event: Event)
    requires AnalysisAfter(runId, events).Some?
    ensures AnalysisAfter(runId, events + [event]) ==
            Advance(runId, AnalysisAfter(runId, events).value, LastId(events), event, |events|)
  {
    assert (events + [event])[..|events|] == events;
  }

  // ---------- Replay of the ledger ----------

  datatype Ledger = Ledger(consumed: Usage, pending: Option<Event>)

  function AdvanceLedger(runId: Id, ledger: Ledger, prior: Option<Id>, event: Event, at: nat): Option<Ledger> {
    if !Placed(event, BudgetStream(runId), at + 1, runId) || event.causationId != prior then None else
    match event.payload
    case BudgetReserved(run, _, _, _, _, _) =>
      if ledger.pending.Some? || run != runId then None else Some(ledger.(pending := Some(event)))
    case BudgetCharged(run, reservationId, reservationEventId, _, usage) =>
      if ledger.pending.None? || !ledger.pending.value.payload.BudgetReserved? || run != runId
         || reservationId != ledger.pending.value.payload.reservationId
         || reservationEventId != ledger.pending.value.eventId
         || event.causationId != Some(ledger.pending.value.eventId) then None
      else Some(Ledger(Add(ledger.consumed, usage), None))
    case _ => None
  }

  function LedgerAfter(runId: Id, events: seq<Event>): Option<Ledger> {
    if events == [] then Some(Ledger(NoUsage, None)) else
    var front := events[..|events| - 1];
    var before := LedgerAfter(runId, front);
    if before.None? then None else AdvanceLedger(runId, before.value, LastId(front), events[|events| - 1], |front|)
  }

  method ProjectAnalysisBudget(runId: Id, events: seq<Event>) returns (result: Option<Ledger>)
    ensures result == LedgerAfter(runId, events)
  {
    var consumed: Usage, pending: Option<Event> := NoUsage, None;
    for n := 0 to |events|
      invariant LedgerAfter(runId, events[..n]) == Some(Ledger(consumed, pending))
    {
      var step := AdvanceLedger(runId, Ledger(consumed, pending), LastId(events[..n]), events[n], n);
      assert events[..n + 1][..n] == events[..n];
      assert LedgerAfter(runId, events[..n + 1]) == step;
      if step.None? {
        BrokenLedgerStaysBroken(runId, events, n + 1);
        return None;
      }
      consumed, pending := step.value.consumed, step.value.pending;
    }
    assert events[..|events|] == events;
    result := Some(Ledger(consumed, pending));
  }

  lemma {:induction false} BrokenLedgerStaysBroken(runId: Id, events: seq<Event>, n: nat)
    requires n <= |events| && LedgerAfter(runId, events[..n]).None?
    ensures LedgerAfter(runId, events).None?
  {
    if n == |events| {
      assert events[..n] == events;
    } else {
      var front := events[..|events| - 1];
      assert front[..n] == events[..n];
      BrokenLedgerStaysBroken(runId, front, n);
    }
  }

  lemma LedgerSnoc(runId: Id, events: seq<Event>, event: Event)
    requires LedgerAfter(runId, events).Some?
    ensures LedgerAfter(runId, events + [event]) ==
            AdvanceLedger(runId, LedgerAfter(runId, events).value, LastId(events), event, |events|)
  {
    assert (events + [event])[..|events|] == events;
  }

  /** A ledger alternates: each reservation is followed by the one charge that consumes it. */
  lemma {:induction false} LedgerAlternates(runId: Id, events: seq<Event>, j: nat)
    requires LedgerAfter(runId, events).Some? && j < |events|
    ensures j % 2 == 0 ==> events[j].payload.BudgetReserved?
    ensures j % 2 == 1 ==>
              && events[j].payload.BudgetCharged? && events[j - 1].payload.BudgetReserved?
              && events[j].payload.reservationEventId == events[j - 1].eventId
              && events[j].payload.reservationId == events[j - 1].payload.reservationId
    ensures LedgerAfter(runId, events).value.pending ==
            if |events| % 2 == 1 then Some(events[|events| - 1]) else None
  {
    var front := events[..|events| - 1];
    if j < |front| {
      LedgerAlternates(runId, front, j);
      assert front[j] == events[j];
      if j > 0 { assert front[j - 1] == events[j - 1]; }
    } else if |front| > 0 {
      LedgerAlternates(runId, front, |front| - 1);
      assert front[|front| - 1] == events[j - 1];
    }
  }

  // ---------- Budget arithmetic ----------

  function UsageOf(event: Event): Usage {
    if event.payload.Observed? then event.payload.usage else NoUsage
  }

  function SumUsage(observed: seq<Event>): Usage {
    if observed == [] then NoUsage
    else Add(SumUsage(observed[..|observed| - 1]), UsageOf(observed[|observed| - 1]))
  }

  predicate AllObserved(rounds: seq<Event>) {
    forall i :: 0 <= i < |rounds| ==> rounds[i].payload.Observed?
  }

  /** The rounds of a stream, in order. */
  function RoundsOf(events: seq<Event>): (rounds: seq<Event>)
    ensures AllObserved(rounds)
  {
    if events == [] then [] else
    var front, last := RoundsOf(events[..|events| - 1]), events[|events| - 1];
    if last.payload.Observed? then front + [last] else front
  }

  predicate RoundsNumbered(observed: seq<Event>) {
    forall i :: 0 <= i < |observed| ==> observed[i].payload.Observed? && observed[i].payload.round == i + 1
  }

  function UncertaintiesOf(event: Event): seq<Uncertainty> {
    if event.payload.Observed? then event.payload.uncertainties else []
  }

  function ObservationsOf(event: Event): seq<Id> {
    if event.payload.Observed? then event.payload.observations else []
  }

  function CountObservations(observed: seq<Event>): nat {
    if observed == [] then 0
    else CountObservations(observed[..|observed| - 1]) + |ObservationsOf(observed[|observed| - 1])|
  }

  function CountQuestions(observed: seq<Event>): nat {
    if observed == [] then 0
    else CountQuestions(observed[..|observed| - 1]) + |UncertaintiesOf(observed[|observed| - 1])|
  }

  predicate QuestionnairesFit(observed: seq<Event>, budget: Budget) {
    forall i :: 0 <= i < |observed| ==>
      Fits(UncertaintiesOf(observed[i]), budget.maxQuestions, budget.maxOptionsPerQuestion,
           budget.maxQuestionnaireOptions)
  }

  /** Usage may exceed the limits reserved for it; then the analysis is exhausted, for the first reason found. */
  function BudgetReason(observed: seq<Event>, budget: Budget, beforeInvocation: bool): Option<Reason> {
    var usage := SumUsage(observed);
    if (if beforeInvocation then |observed| >= budget.maxRounds else |observed| > budget.maxRounds) then Some(Rounds)
    else if CountObservations(observed) > budget.maxObservations then Some(Observations)
    else if CountQuestions(observed) > budget.maxQuestions then Some(Questions)
    else if !QuestionnairesFit(observed, budget) then Some(Options)
    else if usage.outputBytes > budget.maxOutputBytes then Some(Output)
    else if usage.durationMs > budget.maxDurationMs then Some(Duration)
    else if usage.inputTokens > budget.maxInputTokens then Some(InputTokens)
    else if usage.outputTokens > budget.maxOutputTokens then Some(OutputTokens)
    else if usage.costUsdNano > budget.maxCostUsdNano then Some(Cost)
    else None
  }

  predicate Covers(budget: Budget, usage: Usage) {
    && usage.durationMs <= budget.maxDurationMs && usage.outputBytes <= budget.maxOutputBytes
    && usage.inputTokens <= budget.maxInputTokens && usage.outputTokens <= budget.maxOutputTokens
    && usage.costUsdNano <= budget.maxCostUsdNano
  }

  function Remaining(budget: Budget, consumed: Usage): Option<Limits> {
    if consumed.durationMs >= budget.maxDurationMs || consumed.outputBytes >= budget.maxOutputBytes
       || consumed.inputTokens >= budget.maxInputTokens || consumed.outputTokens >= budget.maxOutputTokens
       || consumed.costUsdNano > budget.maxCostUsdNano
    then None
    else Some(Limits(budget.maxDurationMs - consumed.durationMs, budget.maxOutputBytes - consumed.outputBytes,
                     budget.maxInputTokens - consumed.inputTokens, budget.maxOutputTokens - consumed.outputTokens,
                     budget.maxCostUsdNano - consumed.costUsdNano))
  }

  predicate NoLower(next: Budget, prior: Budget) {
    && next.maxRounds >= prior.maxRounds && next.maxObservations >= prior.maxObservations
    && next.maxQuestions >= prior.maxQuestions && next.maxOptionsPerQuestion >= prior.maxOptionsPerQuestion
    && next.maxQuestionnaireOptions >= prior.maxQuestionnaireOptions && next.maxOutputBytes >= prior.maxOutputBytes
    && next.maxDurationMs >= prior.maxDurationMs && next.maxInputTokens >= prior.maxInputTokens
    && next.maxOutputTokens >= prior.maxOutputTokens && next.maxCostUsdNano >= prior.maxCostUsdNano
  }

  predicate StrictlyHigher(next: Budget, prior: Budget) {
    NoLower(next, prior) && next != prior
  }

  predicate HasMaterial(us: seq<Uncertainty>) {
    exists i :: 0 <= i < |us| && us[i].material
  }

  /** The latest round, when it still needs an operator's answer: answers and rounds are counted. */
  function UnansweredMaterial(st: AnalysisState): Option<Event> {
    if |st.observed| == 0 || |st.answers| >= |st.observed| then None else
    var latest := st.observed[|st.observed| - 1];
    if HasMaterial(UncertaintiesOf(latest)) then Some(latest) else None
  }

  /** The latest answer on record is an answer to the latest round. */
  predicate RoundAnswered(st: AnalysisState) {
    |st.answers| > 0 && st.answers[|st.answers| - 1].decision.QuestionnaireEvidence?
    && st.answers[|st.answers| - 1].decision.round == |st.observed|
  }

  /** Nothing keeps a coordinator from the next round: nothing material is open, or it has just recorded the
    * operator's answer. */
  predicate LatestAnswered(st: AnalysisState) {
    UnansweredMaterial(st).None? || RoundAnswered(st)
  }

  // ---------- Decisions ----------

  function PacketOf(decision: seq<Event>): Option<Packet> {
    if |decision| > 0 && decision[0].payload.Asked? then Some(decision[0].payload.packet) else None
  }

  /** The accepting event of a decision stream. */
  function Acceptance(decision: seq<Event>): Option<Event> {
    if |decision| > 1 && decision[1].payload.Decided? then Some(decision[1]) else None
  }

  function Combinations(vectors: seq<seq<Selection>>): seq<OptionId> {
    seq(|vectors|, i requires 0 <= i < |vectors| => Combination(vectors[i]))
  }

  /** What answering `us` by `selections` means, question by question. */
  function Meanings(us: seq<Uncertainty>, selections: seq<Selection>): seq<Meaning> {
    seq(|us|, i requires 0 <= i < |us| => Meaning(us[i], Selected(us[i], selections)))
  }

  function SelectedId(u: Uncertainty, selections: seq<Selection>): Option<Id> {
    if selections == [] then None
    else if selections[0].uncertaintyId == u.uncertaintyId then Some(selections[0].optionId)
    else SelectedId(u, selections[1..])
  }

  function OptionNamed(options: seq<Choice>, id: Id): Option<Choice> {
    if options == [] then None
    else if options[0].optionId == id then Some(options[0])
    else OptionNamed(options[1..], id)
  }

  function Selected(u: Uncertainty, selections: seq<Selection>): Choice {
    var id := SelectedId(u, selections);
    var choice := if id.Some? then OptionNamed(u.options, id.value) else None;
    if choice.Some? then choice.value else Choice(0, 0)
  }

  function Payloads(events: seq<Event>): seq<Payload> {
    seq(|events|, i requires 0 <= i < |events| => events[i].payload)
  }
}
