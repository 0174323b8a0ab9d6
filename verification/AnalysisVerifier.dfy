/** The strict replay that turns a completed analysis into completion evidence, and what it establishes. */
module AnalysisVerifier {
  import opened EventJournal
  import opened Questionnaire
  import opened AnalysisModel

  datatype VerifierState = VerifierState(started: Option<Payload>, budget: Option<Budget>, reservation: Option<Event>,
                                         last: Option<Event>, rounds: nat, observations: nat, totalUsage: Usage,
                                         completed: Option<Event>, exhausted: Option<Event>, materialAnswered: bool,
                                         observationIds: set<Id>, uncertaintyIds: set<Id>)

  const Unverified := VerifierState(None, None, None, None, 0, 0, NoUsage, None, None, true, {}, {})

  /** The first event of the whole journal with this identity. */
  function FindEvent(all: seq<Event>, id: Id): (found: Option<Event>)
    ensures found.Some? ==> found.value in all && found.value.eventId == id
    ensures found.None? <==> forall e :: e in all ==> e.eventId != id
  {
    if all == [] then None
    else if all[0].eventId == id then Some(all[0])
    else FindEvent(all[1..], id)
  }

  predicate ChargesFor(event: Event, analysisEventId: Id) {
    event.payload.BudgetCharged? && event.payload.analysisEventId == analysisEventId
  }

  function FindCharge(all: seq<Event>, analysisEventId: Id): (found: Option<Event>)
    ensures found.Some? ==> found.value in all && ChargesFor(found.value, analysisEventId)
    ensures found.None? <==> forall e :: e in all ==> !ChargesFor(e, analysisEventId)
  {
    if all == [] then None
    else if ChargesFor(all[0], analysisEventId) then Some(all[0])
    else FindCharge(all[1..], analysisEventId)
  }

  predicate NoneRepeated(ids: seq<Id>) {
    forall i, j :: 0 <= i < j < |ids| ==> ids[i] != ids[j]
  }

  /** The identities are new, to the rounds before and to each other. */
  predicate NewTo(ids: seq<Id>, known: set<Id>) {
    NoneRepeated(ids) && forall i :: 0 <= i < |ids| ==> ids[i] !in known
  }

  function Ids(ids: seq<Id>): set<Id> {
    set i | 0 <= i < |ids| :: ids[i]
  }

  function QuestionIds(us: seq<Uncertainty>): seq<Id> {
    seq(|us|, i requires 0 <= i < |us| => us[i].uncertaintyId)
  }

  function SelectionIds(selections: seq<Selection>): seq<Id> {
    seq(|selections|, i requires 0 <= i < |selections| => selections[i].uncertaintyId)
  }

  predicate IntakeCaused(all: seq<Event>, runId: Id, event: Event) {
    && event.causationId.Some?
    && var intake := FindEvent(all, event.causationId.value);
    intake.Some? && intake.value.payload.IntakeCompleted? && intake.value.correlationId == runId
  }

  predicate Backed(all: seq<Event>, runId: Id, event: Event)
    requires event.payload.Reserved?
  {
    var found := FindEvent(all, event.payload.budgetEventId);
    && found.Some? && found.value.payload.BudgetReserved?
    && var reserved := found.value.payload;
    && reserved.runId == runId && reserved.reservationId == event.payload.reservationId
    && reserved.analysisEventId == event.eventId && reserved.analysisVersion == event.streamVersion
  }

  predicate ChargedExactly(all: seq<Event>, runId: Id, event: Event, reservationId: Id)
    requires event.payload.Observed?
  {
    var charge := FindCharge(all, event.eventId);
    && charge.Some? && charge.value.payload.runId == runId && charge.value.payload.reservationId == reservationId
    && charge.value.payload.usage == event.payload.usage
  }

  /** The revision is the operator's durable answer to exactly the questionnaire of the last round. */
  predicate AnswersRound(s: Streams, runId: Id, last: Event, event: Event)
    requires event.payload.Revised? && last.payload.Observed?
  {
    var answer, us := event.payload.answer, last.payload.uncertainties;
    var decision := Read(s, DecisionStream(answer.decision));
    var found, packet := FindEvent(decision, answer.decisionEventId), PacketOf(decision);
    && found.Some? && found.value.payload.Decided? && event.causationId == Some(found.value.eventId)
    && var accepted := found.value.payload;
    && accepted.runId == runId && accepted.decision == answer.decision && accepted.optionId == answer.optionId
    && accepted.actor == answer.actor && accepted.proof == answer.evidence
    && packet.Some? && packet.value.runId == runId && packet.value.questions == us
    && answer.packet == packet.value
    && CanonicalUncertainties(us).Some?
    && packet.value.evidence == QuestionnaireEvidence(runId, last.payload.round, CanonicalUncertainties(us).value)
    && Combined(us, COMBINATION_CAP).Some? && answer.optionId.Combination?
    && answer.optionId.selections in Combined(us, COMBINATION_CAP).value
    && answer.selections == answer.optionId.selections
    && (HasMaterial(us) ==> accepted.actor.kind == Operator)
    && answer.meanings == Meanings(us, answer.selections)
    && answer.meaningDigest == (packet.value, answer.optionId, answer.meanings)
    && SelectionIds(answer.selections) == QuestionIds(us)
    && (forall i :: 0 <= i < |answer.selections| ==>
          exists k :: 0 <= k < |us| && Selects(answer.selections[i], us[k]))
  }

  predicate RaisesBudget(s: Streams, all: seq<Event>, runId: Id, exhausted: Event, prior: Budget, used: Usage,
                         event: Event)
    requires event.payload.BudgetRevised?
  {
    var revision := event.payload;
    var found := FindEvent(all, revision.decisionEventId);
    && revision.exhaustionEventId == exhausted.eventId && revision.priorBudget == prior
    && event.causationId == Some(revision.decisionEventId) && StrictlyHigher(revision.budget, revision.priorBudget)
    && found.Some? && found.value.payload.Decided?
    && var accepted, packet := found.value.payload, PacketOf(Read(s, found.value.streamId));
    && accepted.runId == runId && accepted.optionId == ApplyRevision && accepted.actor.kind == Operator
    && accepted.actor == revision.actor
    && packet.Some? && packet.value.evidence == RevisionEvidence(runId, exhausted.eventId, revision.budget)
    && revision.evidence == packet.value.evidence
    && Covers(revision.budget, used)
  }

  function VerifyStep(s: Streams, all: seq<Event>, runId: Id, vs: VerifierState, before: seq<Event>, event: Event)
    : Option<VerifierState>
  {
    var prior := LastId(before);
    if !Placed(event, AnalysisStream(runId), |before| + 1, runId) || vs.completed.Some? then None else
    match event.payload
    case Started(run, _, _, budget, _) =>
      if |before| != 0 || run != runId || !IntakeCaused(all, runId, event) then None
      else Some(vs.(started := Some(event.payload), budget := Some(budget)))
    case Reserved(run, round, _, source, budget, _, _, _) =>
      if vs.started.None? || !vs.started.value.Started? || vs.reservation.Some? || vs.exhausted.Some?
         || !vs.materialAnswered || prior.None? || event.causationId != prior || run != runId
         || round != vs.rounds + 1 || source != vs.started.value.source || vs.budget != Some(budget)
         || !Backed(all, runId, event) then None
      else Some(vs.(reservation := Some(event)))
    case Observed(run, round, observations, uncertainties, usage, source, reservationEventId) =>
      if vs.reservation.None? || !vs.reservation.value.payload.Reserved?
         || event.causationId != Some(vs.reservation.value.eventId) || run != runId
         || round != vs.reservation.value.payload.round || reservationEventId != vs.reservation.value.eventId
         || source != vs.reservation.value.payload.source
         || !ChargedExactly(all, runId, event, vs.reservation.value.payload.reservationId)
         || !NewTo(observations, vs.observationIds) || !NewTo(QuestionIds(uncertainties), vs.uncertaintyIds) then None
      else Some(vs.(rounds := vs.rounds + 1, observations := vs.observations + |observations|,
                    observationIds := vs.observationIds + Ids(observations),
                    uncertaintyIds := vs.uncertaintyIds + Ids(QuestionIds(uncertainties)),
                    totalUsage := Add(vs.totalUsage, usage), last := Some(event),
                    materialAnswered := !HasMaterial(uncertainties), reservation := None, exhausted := None))
    case Revised(run, _, _) =>
      if vs.last.None? || !vs.last.value.payload.Observed? || run != runId || vs.materialAnswered
         || !AnswersRound(s, runId, vs.last.value, event) then None
      else Some(vs.(materialAnswered := true))
    case Exhausted(run, _, _, _) =>
      if run != runId || prior.None? || event.causationId != prior then None
      else Some(vs.(exhausted := Some(event),
                    reservation := if vs.reservation.Some? && event.causationId == Some(vs.reservation.value.eventId)
                      then None else vs.reservation))
    case BudgetRevised(run, _, budget, _, _, _, _) =>
      if vs.exhausted.None? || run != runId || vs.budget.None?
         || !RaisesBudget(s, all, runId, vs.exhausted.value, vs.budget.value, vs.totalUsage, event) then None
      else Some(vs.(budget := Some(budget), exhausted := None))
    case ReconciliationRequired(run, reservationEventId, _, _) =>
      if vs.reservation.None? || run != runId || reservationEventId != vs.reservation.value.eventId
         || event.causationId != Some(vs.reservation.value.eventId) then None
      else Some(vs)
    case ReconciliationResolved(run, reservationEventId, reconciliationEventId, actor) =>
      if vs.reservation.None? || run != runId || reservationEventId != vs.reservation.value.eventId
         || actor.kind != Operator || event.causationId != Some(reconciliationEventId) then None
      else Some(vs.(reservation := None))
    case Completed(run, rounds, count, history, source, finalObservationEventId, totalUsage) =>
      if vs.reservation.Some? || vs.exhausted.Some? || !vs.materialAnswered || vs.last.None? || vs.observations == 0
         || HasMaterial(UncertaintiesOf(vs.last.value)) || run != runId
         || event.causationId != Some(vs.last.value.eventId) || finalObservationEventId != vs.last.value.eventId
         || rounds != vs.rounds || count != vs.observations
         || vs.started.None? || !vs.started.value.Started? || source != vs.started.value.source
         || totalUsage != vs.totalUsage || history != Payloads(before)
         || vs.budget.None? || !Covers(vs.budget.value, vs.totalUsage) then None
      else Some(vs.(completed := Some(event)))
    case _ => None
  }

  function VerifyAfter(s: Streams, all: seq<Event>, runId: Id, events: seq<Event>): Option<VerifierState> {
    if events == [] then Some(Unverified) else
    var front := events[..|events| - 1];
    var before := VerifyAfter(s, all, runId, front);
    if before.None? then None else VerifyStep(s, all, runId, before.value, front, events[|events| - 1])
  }

  /** The replay accepts the analysis of `runId`. */
  predicate Verifies(s: Streams, all: seq<Event>, runId: Id) {
    var events := Read(s, AnalysisStream(runId));
    && |events| >= 4 && VerifyAfter(s, all, runId, events).Some?
    && VerifyAfter(s, all, runId, events).value.completed.Some?
    && VerifyAfter(s, all, runId, events).value.started.Some?
  }

  datatype Verified = Verified(runId: Id, completionEventId: Id, history: seq<Payload>, source: Id)

  method VerifyAnalysisReplay(s: Streams, all: seq<Event>, runId: Id) returns (result: Option<Verified>)
    ensures result.Some? <==> Verifies(s, all, runId)
    ensures result.Some? ==>
              var events := Read(s, AnalysisStream(runId));
              var completion := events[|events| - 1];
              completion.payload.Completed? && result.value.completionEventId == completion.eventId
              && result.value.history == Payloads(events[..|events| - 1]) && result.value.runId == runId
  {
    var events := Read(s, AnalysisStream(runId));
    if |events| < 4 {
      return None;
    }
    var vs := Unverified;
    for n := 0 to |events|
      invariant VerifyAfter(s, all, runId, events[..n]) == Some(vs)
    {
      var step := VerifyStep(s, all, runId, vs, events[..n], events[n]);
      assert events[..n + 1][..n] == events[..n];
      assert VerifyAfter(s, all, runId, events[..n + 1]) == step;
      if step.None? {
        RejectedStaysRejected(s, all, runId, events, n + 1);
        return None;
      }
      vs := step.value;
    }
    assert events[..|events|] == events;
    CompletionIsLast(s, all, runId, events);
    if vs.completed.None? || vs.started.None? {
      return None;
    }
    var completion := vs.completed.value;
    result := Some(Verified(runId, completion.eventId, completion.payload.history, vs.started.value.source));
  }

  lemma {:induction false} RejectedStaysRejected(s: Streams, all: seq<Event>, runId: Id, events: seq<Event>, n: nat)
    requires n <= |events| && VerifyAfter(s, all, runId, events[..n]).None?
    ensures VerifyAfter(s, all, runId, events).None?
  {
    if n == |events| {
      assert events[..n] == events;
    } else {
      var front := events[..|events| - 1];
      assert front[..n] == events[..n];
      RejectedStaysRejected(s, all, runId, front, n);
    }
  }

  lemma VerifySnoc(s: Streams, all: seq<Event>, runId: Id, events: seq<Event>, n: nat)
    requires n < |events| && VerifyAfter(s, all, runId, events).Some?
    ensures VerifyAfter(s, all, runId, events[..n]).Some? && VerifyAfter(s, all, runId, events[..n + 1]).Some?
    ensures VerifyAfter(s, all, runId, events[..n + 1]) ==
            VerifyStep(s, all, runId, VerifyAfter(s, all, runId, events[..n]).value, events[..n], events[n])
  {
    assert events[..n + 1][..n] == events[..n];
    if VerifyAfter(s, all, runId, events[..n]).None? {
      RejectedStaysRejected(s, all, runId, events, n);
    }
    if VerifyAfter(s, all, runId, events[..n + 1]).None? {
      RejectedStaysRejected(s, all, runId, events, n + 1);
    }
  }

  /** Completion ends the stream, and records what came before it. */
  lemma CompletionIsLast(s: Streams, all: seq<Event>, runId: Id, events: seq<Event>)
    requires VerifyAfter(s, all, runId, events).Some?
    ensures var vs := VerifyAfter(s, all, runId, events).value;
      && (vs.started.Some? ==> vs.started.value.Started?)
      && (vs.completed.Some? ==>
            |events| > 0 && vs.completed.value == events[|events| - 1] && vs.completed.value.payload.Completed?
            && vs.completed.value.payload.history == Payloads(events[..|events| - 1]))
  {
    if events != [] {
      CompletionIsLast(s, all, runId, events[..|events| - 1]);
    }
    hide IntakeCaused, Backed, ChargedExactly, AnswersRound, RaisesBudget;
  }

  /** Completion evidence is handed out once: preparing verifies the replay, consuming forgets the handle. */
  class Completions {
    var pending: map<Id, Verified>
    var used: set<Id>

    constructor ()
      ensures pending == map[] && used == {}
    {
      pending := map[];
      used := {};
    }

    method PrepareAnalysisCompletion(s: Streams, all: seq<Event>, runId: Id, handle: Id) returns (r: Option<Id>)
      requires handle !in used
      modifies this
      ensures r.Some? <==> Verifies(s, all, runId)
      ensures r.Some? ==> r.value == handle && used == old(used) + {handle} && handle in pending
                          && pending[handle].runId == runId && pending == old(pending)[handle := pending[handle]]
      ensures r.None? ==> pending == old(pending) && used == old(used)
    {
      var verified := VerifyAnalysisReplay(s, all, runId);
      if verified.None? {
        return None;
      }
      pending := pending[handle := verified.value];
      used := used + {handle};
      r := Some(handle);
    }

    method ConsumeAnalysisCompletion(handle: Id) returns (r: Option<Verified>)
      modifies this
      ensures r.Some? <==> handle in old(pending)
      ensures r.Some? ==> r.value == old(pending)[handle]
      ensures handle !in pending && pending == old(pending) - {handle} && used == old(used)
    {
      if handle !in pending {
        return None;
      }
      r := Some(pending[handle]);
      pending := pending - {handle};
    }
  }
}
