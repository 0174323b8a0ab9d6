/** Which analyses the strict replay accepts, said of their events alone. */
module AnalysisAcceptance {
  import opened EventJournal
  import opened Questionnaire
  import opened Sorting
  import opened AnalysisModel
  import opened AnalysisVerifier
  import opened AnalysisBounds
  import opened AnalysisRecord
  import Soundness = AnalysisSoundness

  // ---------- Looking up other events ----------

  predicate FirstAt(all: seq<Event>, i: nat, id: Id) {
    i < |all| && all[i].eventId == id && forall j :: 0 <= j < i ==> all[j].eventId != id
  }

  predicate FirstChargeAt(all: seq<Event>, i: nat, analysisEventId: Id) {
    && i < |all| && all[i].payload.BudgetCharged? && all[i].payload.analysisEventId == analysisEventId
    && forall j :: 0 <= j < i && all[j].payload.BudgetCharged? ==> all[j].payload.analysisEventId != analysisEventId
  }

  lemma {:induction false} FoundFirst(all: seq<Event>, id: Id) returns (i: nat)
    requires FindEvent(all, id).Some?
    ensures FirstAt(all, i, id) && FindEvent(all, id) == Some(all[i])
  {
    if all[0].eventId == id {
      i := 0;
    } else {
      var k := FoundFirst(all[1..], id);
      i := k + 1;
      assert forall j :: 0 < j < |all| ==> all[j] == all[1..][j - 1];
    }
  }

  lemma FirstIsFound(all: seq<Event>, i: nat, id: Id)
    requires FirstAt(all, i, id)
    ensures FindEvent(all, id) == Some(all[i])
  {
    assert all[i] in all;
    var k := FoundFirst(all, id);
    assert k == i;
  }

  lemma {:induction false} FoundFirstCharge(all: seq<Event>, id: Id) returns (i: nat)
    requires FindCharge(all, id).Some?
    ensures FirstChargeAt(all, i, id) && FindCharge(all, id) == Some(all[i])
  {
    if ChargesFor(all[0], id) {
      i := 0;
    } else {
      var k := FoundFirstCharge(all[1..], id);
      i := k + 1;
      assert forall j :: 0 < j < |all| ==> all[j] == all[1..][j - 1];
    }
  }

  lemma FirstChargeIsFound(all: seq<Event>, i: nat, id: Id)
    requires FirstChargeAt(all, i, id)
    ensures FindCharge(all, id) == Some(all[i])
  {
    assert all[i] in all && ChargesFor(all[i], id);
    var k := FoundFirstCharge(all, id);
    assert k == i;
  }

  /** The intake of the run caused the event. */
  predicate AfterIntake(all: seq<Event>, r: Id, e: Event) {
    && e.causationId.Some?
    && exists i :: 0 <= i < |all| && FirstAt(all, i, e.causationId.value) && all[i].payload.IntakeCompleted?
                   && all[i].correlationId == r
  }

  /** The ledger holds the reservation this one names, and it names this one. */
  predicate BackedBy(all: seq<Event>, i: nat, r: Id, e: Event)
    requires e.payload.Reserved?
  {
    && FirstAt(all, i, e.payload.budgetEventId) && all[i].payload.BudgetReserved? && all[i].payload.runId == r
    && all[i].payload.reservationId == e.payload.reservationId && all[i].payload.analysisEventId == e.eventId
    && all[i].payload.analysisVersion == e.streamVersion
  }

  /** The ledger charged exactly the usage of the round, on its reservation. */
  predicate ChargedBy(all: seq<Event>, i: nat, r: Id, e: Event, reservationId: Id)
    requires e.payload.Observed?
  {
    && FirstChargeAt(all, i, e.eventId) && all[i].payload.runId == r
    && all[i].payload.reservationId == reservationId && all[i].payload.usage == e.payload.usage
  }

  lemma LookupsExactly(all: seq<Event>, r: Id, e: Event, reservationId: Id)
    ensures IntakeCaused(all, r, e) <==> AfterIntake(all, r, e)
    ensures e.payload.Reserved? ==> (Backed(all, r, e) <==> exists i :: 0 <= i < |all| && BackedBy(all, i, r, e))
    ensures e.payload.Observed? ==>
              (ChargedExactly(all, r, e, reservationId) <==>
                 exists i :: 0 <= i < |all| && ChargedBy(all, i, r, e, reservationId))
  {
    hide FirstAt, FirstChargeAt, FindEvent, FindCharge;
    IntakeExactly(all, r, e);
    if e.payload.Reserved? {
      BackedExactly(all, r, e);
    }
    if e.payload.Observed? {
      ChargeExactly(all, r, e, reservationId);
    }
  }

  lemma FirstInside(all: seq<Event>, i: nat, id: Id)
    requires FirstAt(all, i, id)
    ensures i < |all|
  {
  }

  lemma IntakeExactly(all: seq<Event>, r: Id, e: Event)
    ensures IntakeCaused(all, r, e) <==> AfterIntake(all, r, e)
  {
    hide FirstAt;
    if IntakeCaused(all, r, e) {
      var i := FoundFirst(all, e.causationId.value);
      FirstInside(all, i, e.causationId.value);
    }
    if AfterIntake(all, r, e) {
      var i :| 0 <= i < |all| && FirstAt(all, i, e.causationId.value) && all[i].payload.IntakeCompleted?
               && all[i].correlationId == r;
      FirstIsFound(all, i, e.causationId.value);
    }
  }

  lemma BackedExactly(all: seq<Event>, r: Id, e: Event)
    requires e.payload.Reserved?
    ensures Backed(all, r, e) <==> exists i :: 0 <= i < |all| && BackedBy(all, i, r, e)
  {
    if Backed(all, r, e) {
      var i := FoundFirst(all, e.payload.budgetEventId);
      assert BackedBy(all, i, r, e);
    }
    if i :| 0 <= i < |all| && BackedBy(all, i, r, e) {
      FirstIsFound(all, i, e.payload.budgetEventId);
    }
  }

  lemma ChargeExactly(all: seq<Event>, r: Id, e: Event, reservationId: Id)
    requires e.payload.Observed?
    ensures ChargedExactly(all, r, e, reservationId) <==>
              exists i :: 0 <= i < |all| && ChargedBy(all, i, r, e, reservationId)
  {
    if ChargedExactly(all, r, e, reservationId) {
      var i := FoundFirstCharge(all, e.eventId);
      assert ChargedBy(all, i, r, e, reservationId);
    }
    if i :| 0 <= i < |all| && ChargedBy(all, i, r, e, reservationId) {
      FirstChargeIsFound(all, i, e.eventId);
    }
  }

  // ---------- Answers and revised budgets ----------

  /** The `i`-th event of the decision is the one the answer names, and says what the answer says. */
  predicate DecidedIn(decision: seq<Event>, i: nat, r: Id, answer: Answer) {
    && FirstAt(decision, i, answer.decisionEventId)
    && decision[i].payload == Decided(answer.decision, r, answer.optionId, answer.actor, answer.evidence)
  }

  /** The packet asks exactly the questions of this round. */
  predicate AsksRound(packet: Packet, r: Id, round: nat, us: seq<Uncertainty>) {
    && packet.runId == r && packet.questions == us && CanonicalUncertainties(us).Some?
    && packet.evidence == QuestionnaireEvidence(r, round, CanonicalUncertainties(us).value)
  }

  /** The answer is the one the decision holds, to the questions of the round. */
  predicate FromDecision(decision: seq<Event>, r: Id, round: nat, us: seq<Uncertainty>, e: Event)
    requires e.payload.Revised?
  {
    var answer := e.payload.answer;
    && decision != [] && decision[0].payload == Asked(answer.packet) && AsksRound(answer.packet, r, round, us)
    && (exists i :: 0 <= i < |decision| && DecidedIn(decision, i, r, answer))
    && e.causationId == Some(answer.decisionEventId)
  }

  /** The event records the durable answer to the round: one offered option for each of its questions, in the order
    * asked and in canonical order, by an operator where anything is material, with what it means. */
  predicate AnsweredAs(s: Streams, r: Id, round: Event, e: Event)
    requires e.payload.Revised? && round.payload.Observed?
  {
    var answer, us := e.payload.answer, round.payload.uncertainties;
    var decision := Read(s, DecisionStream(answer.decision));
    && FromDecision(decision, r, round.payload.round, us, e) && answer.optionId == Combination(answer.selections)
    && Combined(us, 64).Some?
    && Answers(answer.selections, us) && Answers(answer.selections, CanonicalUncertainties(us).value)
    && ((exists u :: u in us && u.material) ==> answer.actor.kind == Operator)
    && answer.meanings == Meanings(us, answer.selections)
    && answer.meaningDigest == (answer.packet, answer.optionId, answer.meanings)
  }

  /** The `i`-th event of the journal is an operator's acceptance of the proposed budget. */
  predicate AppliedIn(s: Streams, all: seq<Event>, i: nat, r: Id, revision: Payload)
    requires revision.BudgetRevised?
  {
    && FirstAt(all, i, revision.decisionEventId) && all[i].payload.Decided? && all[i].payload.runId == r
    && all[i].payload.optionId == ApplyRevision && all[i].payload.actor == revision.actor
    && revision.actor.kind == Operator
    && var decision := Read(s, all[i].streamId);
    && decision != [] && decision[0].payload.Asked? && decision[0].payload.packet.evidence == revision.evidence
  }

  /** The event raises the exhausted budget to one an operator accepted, and that covers what was used. */
  predicate RaisedAs(s: Streams, all: seq<Event>, r: Id, exhausted: Event, prior: Budget, used: Usage, e: Event)
    requires e.payload.BudgetRevised?
  {
    var revision := e.payload;
    && revision.exhaustionEventId == exhausted.eventId && revision.priorBudget == prior
    && e.causationId == Some(revision.decisionEventId)
    && revision.evidence == RevisionEvidence(r, exhausted.eventId, revision.budget)
    && (exists i :: 0 <= i < |all| && AppliedIn(s, all, i, r, revision))
    && StrictlyHigher(revision.budget, prior) && Covers(revision.budget, used)
  }

  lemma RaisesExactly(s: Streams, all: seq<Event>, r: Id, exhausted: Event, prior: Budget, used: Usage, e: Event)
    requires e.payload.BudgetRevised?
    ensures RaisesBudget(s, all, r, exhausted, prior, used, e) <==> RaisedAs(s, all, r, exhausted, prior, used, e)
  {
    hide Covers, StrictlyHigher;
    if RaisesBudget(s, all, r, exhausted, prior, used, e) {
      var i := FoundFirst(all, e.payload.decisionEventId);
      assert AppliedIn(s, all, i, r, e.payload);
    }
    if RaisedAs(s, all, r, exhausted, prior, used, e) {
      var i :| 0 <= i < |all| && AppliedIn(s, all, i, r, e.payload);
      FirstIsFound(all, i, e.payload.decisionEventId);
    }
  }

  lemma OneOfThisName(us: seq<Uncertainty>, i: nat, k: nat)
    requires Unambiguous(us) && i < |us| && k < |us| && us[i].uncertaintyId == us[k].uncertaintyId
    ensures i == k
  {
    assert QuestionKey()(us[i]) == QuestionKey()(us[k]);
  }

  /** Answering in order is answering question by question. */
  lemma AnswersInOrder(us: seq<Uncertainty>, v: seq<Selection>)
    requires Unambiguous(us)
    ensures Answers(v, us) <==>
              && SelectionIds(v) == QuestionIds(us)
              && forall i :: 0 <= i < |v| ==> exists k :: 0 <= k < |us| && Selects(v[i], us[k])
  {
    if SelectionIds(v) == QuestionIds(us)
       && forall i :: 0 <= i < |v| ==> exists k :: 0 <= k < |us| && Selects(v[i], us[k]) {
      assert |SelectionIds(v)| == |v| && |QuestionIds(us)| == |us|;
      forall i | 0 <= i < |v| ensures Selects(v[i], us[i]) {
        var k :| 0 <= k < |us| && Selects(v[i], us[k]);
        assert SelectionIds(v)[i] == QuestionIds(us)[i];
        OneOfThisName(us, i, k);
      }
    }
    if Answers(v, us) {
      assert forall i :: 0 <= i < |v| ==> Selects(v[i], us[i]);
      assert SelectionIds(v) == QuestionIds(us);
    }
  }

  lemma SelectionsExactly(us: seq<Uncertainty>, v: seq<Selection>)
    requires Combined(us, COMBINATION_CAP).Some?
    ensures Answers(v, us) && Answers(v, CanonicalUncertainties(us).value) <==>
              && v in Combined(us, COMBINATION_CAP).value && SelectionIds(v) == QuestionIds(us)
              && forall i :: 0 <= i < |v| ==> exists k :: 0 <= k < |us| && Selects(v[i], us[k])
  {
    CombinedIsExact(us, COMBINATION_CAP, v);
    assert Unambiguous(us);
    hide Combined, CanonicalUncertainties, Answers, Unambiguous;
    AnswersInOrder(us, v);
  }

  lemma MaterialIsMember(us: seq<Uncertainty>)
    ensures HasMaterial(us) <==> exists u :: u in us && u.material
  {
  }

  lemma FromDecisionExactly(decision: seq<Event>, r: Id, round: nat, us: seq<Uncertainty>, e: Event)
    requires e.payload.Revised?
    ensures var answer := e.payload.answer;
      var found, packet := FindEvent(decision, answer.decisionEventId), PacketOf(decision);
      FromDecision(decision, r, round, us, e) <==>
        && found.Some? && found.value.payload.Decided? && e.causationId == Some(found.value.eventId)
        && found.value.payload.runId == r && found.value.payload.decision == answer.decision
        && found.value.payload.optionId == answer.optionId && found.value.payload.actor == answer.actor
        && found.value.payload.proof == answer.evidence
        && packet.Some? && packet.value.runId == r && packet.value.questions == us && answer.packet == packet.value
        && CanonicalUncertainties(us).Some?
        && packet.value.evidence == QuestionnaireEvidence(r, round, CanonicalUncertainties(us).value)
  {
    DecidedExactly(decision, r, e.payload.answer);
    hide CanonicalUncertainties, FindEvent, DecidedIn;
  }

  lemma AnswersExactly(s: Streams, r: Id, round: Event, e: Event)
    requires e.payload.Revised? && round.payload.Observed?
    ensures AnswersRound(s, r, round, e) <==> AnsweredAs(s, r, round, e)
  {
    hide Meanings, HasMaterial, FindEvent, Selects;
    var answer, us := e.payload.answer, round.payload.uncertainties;
    MaterialIsMember(us);
    FromDecisionExactly(Read(s, DecisionStream(answer.decision)), r, round.payload.round, us, e);
    if Combined(us, COMBINATION_CAP).Some? {
      SelectionsExactly(us, answer.selections);
    }
  }

  lemma DecidedExactly(decision: seq<Event>, r: Id, answer: Answer)
    ensures (exists i :: 0 <= i < |decision| && DecidedIn(decision, i, r, answer)) <==>
              FindEvent(decision, answer.decisionEventId).Some?
              && FindEvent(decision, answer.decisionEventId).value.payload
                   == Decided(answer.decision, r, answer.optionId, answer.actor, answer.evidence)
  {
    if FindEvent(decision, answer.decisionEventId).Some? {
      var i := FoundFirst(decision, answer.decisionEventId);
      if decision[i].payload == Decided(answer.decision, r, answer.optionId, answer.actor, answer.evidence) {
        assert DecidedIn(decision, i, r, answer);
      }
    }
    if i :| 0 <= i < |decision| && DecidedIn(decision, i, r, answer) {
      FirstIsFound(decision, i, answer.decisionEventId);
    }
  }

  // ---------- What the replay has seen so far ----------

  /** The exhaustion at `k` still stands: nothing was revised, or observed, since. */
  predicate Stands(a: seq<Event>, k: nat) {
    && k < |a| && a[k].payload.Exhausted?
    && forall j :: k < j < |a| ==>
         !a[j].payload.Exhausted? && !a[j].payload.BudgetRevised? && !a[j].payload.Observed?
  }

  predicate AnyStands(a: seq<Event>) {
    exists k :: 0 <= k < |a| && Stands(a, k)
  }

  /** The round at `k` is the latest, asks something material, and has no answer yet. */
  predicate Asking(a: seq<Event>, k: nat) {
    && k < |a| && a[k].payload.Observed? && HasMaterial(a[k].payload.uncertainties)
    && forall j :: k < j < |a| ==> !a[j].payload.Observed? && !a[j].payload.Revised?
  }

  predicate AnyAsking(a: seq<Event>) {
    exists k :: 0 <= k < |a| && Asking(a, k)
  }

  function AllIds(rounds: seq<Event>): set<Id> {
    if rounds == [] then {} else AllIds(rounds[..|rounds| - 1]) + Ids(ObservationsOf(rounds[|rounds| - 1]))
  }

  function AllQuestions(rounds: seq<Event>): set<Id> {
    if rounds == [] then {}
    else AllQuestions(rounds[..|rounds| - 1]) + Ids(QuestionIds(UncertaintiesOf(rounds[|rounds| - 1])))
  }

  ghost predicate Seen(a: seq<Event>, vs: VerifierState) {
    SeenStart(a, vs) && SeenRounds(a, vs) && SeenReservation(a, vs) && SeenExhaustion(a, vs) && SeenAnswers(a, vs)
  }

  predicate SeenStart(a: seq<Event>, vs: VerifierState) {
    && vs.started == (if a != [] && a[0].payload.Started? then Some(a[0].payload) else None)
    && vs.budget == InForce(a) && (vs.completed.Some? <==> Completes(a))
  }

  predicate SeenRounds(a: seq<Event>, vs: VerifierState) {
    var rounds := RoundsOf(a);
    && vs.rounds == |rounds| && vs.observations == CountObservations(rounds) && vs.totalUsage == SumUsage(rounds)
    && vs.last == (if rounds == [] then None else Some(rounds[|rounds| - 1]))
    && vs.observationIds == AllIds(rounds) && vs.uncertaintyIds == AllQuestions(rounds)
  }

  ghost predicate SeenReservation(a: seq<Event>, vs: VerifierState) {
    && (vs.reservation.Some? <==> AnyOpen(a))
    && forall k :: 0 <= k < |a| && Open(a, k) ==> vs.reservation == Some(a[k])
  }

  ghost predicate SeenExhaustion(a: seq<Event>, vs: VerifierState) {
    && (vs.exhausted.Some? <==> AnyStands(a))
    && forall k :: 0 <= k < |a| && Stands(a, k) ==> vs.exhausted == Some(a[k])
  }

  ghost predicate SeenAnswers(a: seq<Event>, vs: VerifierState) {
    && (vs.materialAnswered <==> !AnyAsking(a))
    && forall k :: 0 <= k < |a| && Asking(a, k) ==> vs.last == Some(a[k])
  }

  // ---------- Which event is accepted next ----------

  /** The reservation is for the next round of a started analysis with nothing open, under the budget in force. */
  predicate ReservesNext(all: seq<Event>, r: Id, a: seq<Event>, n: nat)
    requires n < |a| && a[n].payload.Reserved?
  {
    var e, before := a[n], a[..n];
    && n > 0 && a[0].payload.Started? && e.payload.source == a[0].payload.source
    && !AnyOpen(before) && !AnyStands(before) && !AnyAsking(before) && CausedByPrevious(a, n)
    && e.payload.round == |RoundsOf(before)| + 1 && InForce(before) == Some(e.payload.budget)
    && exists i :: 0 <= i < |all| && BackedBy(all, i, r, e)
  }

  /** The round is the one reserved, charged as used, and brings new observations and new questions. */
  predicate ObservesReserved(all: seq<Event>, r: Id, before: seq<Event>, k: nat, e: Event)
    requires e.payload.Observed?
  {
    && Open(before, k) && e.causationId == Some(before[k].eventId)
    && e.payload.reservationEventId == before[k].eventId
    && e.payload.round == before[k].payload.round && e.payload.source == before[k].payload.source
    && (exists i :: 0 <= i < |all| && ChargedBy(all, i, r, e, before[k].payload.reservationId))
    && NewTo(e.payload.observations, AllIds(RoundsOf(before)))
    && NewTo(QuestionIds(e.payload.uncertainties), AllQuestions(RoundsOf(before)))
  }

  /** The completion repeats what is on record, within the budget in force, and nothing is open. */
  predicate CompletesRecord(a: seq<Event>, n: nat)
    requires n < |a| && a[n].payload.Completed?
  {
    var e, before, rounds := a[n], a[..n], RoundsOf(a[..n]);
    && !AnyOpen(before) && !AnyStands(before) && !AnyAsking(before)
    && rounds != [] && CountObservations(rounds) > 0
    && !HasMaterial(rounds[|rounds| - 1].payload.uncertainties)
    && e.causationId == Some(rounds[|rounds| - 1].eventId)
    && e.payload.finalObservationEventId == rounds[|rounds| - 1].eventId
    && e.payload.rounds == |rounds| && e.payload.observationCount == CountObservations(rounds)
    && a[0].payload.Started? && e.payload.source == a[0].payload.source
    && e.payload.totalUsage == SumUsage(rounds) && e.payload.history == Payloads(before)
    && InForce(before).Some? && Covers(InForce(before).value, SumUsage(rounds))
  }

  /** The replay accepts the event at `n` after those before it. */
  ghost predicate Acceptable(s: Streams, all: seq<Event>, r: Id, a: seq<Event>, n: nat)
    requires n < |a|
  {
    var e, before := a[n], a[..n];
    && e.streamId == AnalysisStream(r) && e.streamVersion == n + 1 && e.correlationId == r
    && !Completes(before) && OfRun(r, e.payload)
    && match e.payload
       case Started(_, _, _, _, _) => n == 0 && AfterIntake(all, r, e)
       case Reserved(_, _, _, _, _, _, _, _) => ReservesNext(all, r, a, n)
       case Observed(_, _, _, _, _, _, _) => exists k :: 0 <= k < n && ObservesReserved(all, r, before, k, e)
       case Revised(_, _, _) => exists k :: 0 <= k < n && Asking(before, k) && AnsweredAs(s, r, before[k], e)
       case Exhausted(_, _, _, _) => CausedByPrevious(a, n)
       case BudgetRevised(_, _, _, _, _, _, _) =>
         && InForce(before).Some?
         && exists k :: 0 <= k < n && Stands(before, k)
              && RaisedAs(s, all, r, before[k], InForce(before).value, SumUsage(RoundsOf(before)), e)
       case ReconciliationRequired(_, reservationEventId, _, _) =>
         && e.causationId == Some(reservationEventId)
         && exists k :: 0 <= k < n && Open(before, k) && before[k].eventId == reservationEventId
       case ReconciliationResolved(_, reservationEventId, reconciliationEventId, actor) =>
         && e.causationId == Some(reconciliationEventId) && actor.kind == Operator
         && exists k :: 0 <= k < n && Open(before, k) && before[k].eventId == reservationEventId
       case Completed(_, _, _, _, _, _, _) => CompletesRecord(a, n)
       case _ => false
  }

  // ---------- One more event ----------

  lemma StandsSnoc(a: seq<Event>, e: Event, k: nat)
    ensures k < |a| ==> (Stands(a + [e], k) <==>
                           Stands(a, k) && !e.payload.Exhausted? && !e.payload.BudgetRevised? && !e.payload.Observed?)
    ensures k == |a| ==> (Stands(a + [e], k) <==> e.payload.Exhausted?)
  {
    var longer := a + [e];
    assert longer[|a|] == e && forall j :: 0 <= j < |a| ==> longer[j] == a[j];
  }

  lemma AskingSnoc(a: seq<Event>, e: Event, k: nat)
    ensures k < |a| ==> (Asking(a + [e], k) <==> Asking(a, k) && !e.payload.Observed? && !e.payload.Revised?)
    ensures k == |a| ==> (Asking(a + [e], k) <==> e.payload.Observed? && HasMaterial(e.payload.uncertainties))
  {
    var longer := a + [e];
    assert longer[|a|] == e && forall j :: 0 <= j < |a| ==> longer[j] == a[j];
    hide HasMaterial;
  }

  lemma IdsSnoc(rounds: seq<Event>, e: Event)
    ensures AllIds(rounds + [e]) == AllIds(rounds) + Ids(ObservationsOf(e))
    ensures AllQuestions(rounds + [e]) == AllQuestions(rounds) + Ids(QuestionIds(UncertaintiesOf(e)))
  {
    assert (rounds + [e])[..|rounds|] == rounds;
  }

  lemma StepSeesStart(s: Streams, all: seq<Event>, r: Id, a: seq<Event>, vs: VerifierState, e: Event)
    requires SeenStart(a, vs) && VerifyStep(s, all, r, vs, a, e).Some?
    ensures SeenStart(a + [e], VerifyStep(s, all, r, vs, a, e).value)
  {
    hide InForce, RoundsOf, Completes, Cancels, IntakeCaused, Backed, ChargedExactly, AnswersRound, RaisesBudget,
         Covers, NewTo, Payloads, Ids, QuestionIds, HasMaterial, Add;
    PartsSnoc(a, e);
    EndingSnoc(a, e);
    assert a != [] ==> (a + [e])[0] == a[0];
    assert a == [] ==> (a + [e])[0] == e;
  }

  lemma StepSeesRounds(s: Streams, all: seq<Event>, r: Id, a: seq<Event>, vs: VerifierState, e: Event)
    requires SeenRounds(a, vs) && VerifyStep(s, all, r, vs, a, e).Some?
    ensures SeenRounds(a + [e], VerifyStep(s, all, r, vs, a, e).value)
  {
    hide InForce, RoundsOf, SumUsage, CountObservations, AllIds, AllQuestions, IntakeCaused, Backed, ChargedExactly,
         AnswersRound, RaisesBudget, Covers, NewTo, Payloads, Ids,
         QuestionIds, HasMaterial, Add;
    PartsSnoc(a, e);
    Soundness.RoundsSnoc(RoundsOf(a), e);
    IdsSnoc(RoundsOf(a), e);
  }

  lemma StepSeesReservation(s: Streams, all: seq<Event>, r: Id, a: seq<Event>, vs: VerifierState, e: Event)
    requires SeenReservation(a, vs) && VerifyStep(s, all, r, vs, a, e).Some?
    ensures SeenReservation(a + [e], VerifyStep(s, all, r, vs, a, e).value)
  {
    var longer, vs' := a + [e], VerifyStep(s, all, r, vs, a, e).value;
    assert longer[|a|] == e && forall j :: 0 <= j < |a| ==> longer[j] == a[j];
    forall k: nat
      ensures k < |a| ==> (Open(longer, k) <==> Open(a, k) && !AnalysisRecord.Closes(e, a[k]) && !e.payload.Reserved?)
      ensures k == |a| ==> (Open(longer, k) <==> e.payload.Reserved?)
    {
      OpenSnoc(a, e, k);
    }
    hide Open, IntakeCaused, Backed, ChargedExactly, AnswersRound, RaisesBudget, Covers, NewTo, Payloads, Ids,
         QuestionIds, HasMaterial, Add;
    if vs'.reservation.Some? && !e.payload.Reserved? {
      var k :| 0 <= k < |a| && Open(a, k);
      assert Open(longer, k);
    }
    assert e.payload.Reserved? ==> Open(longer, |a|);
  }

  lemma StepSeesExhaustion(s: Streams, all: seq<Event>, r: Id, a: seq<Event>, vs: VerifierState, e: Event)
    requires SeenExhaustion(a, vs) && VerifyStep(s, all, r, vs, a, e).Some?
    ensures SeenExhaustion(a + [e], VerifyStep(s, all, r, vs, a, e).value)
  {
    var longer, vs' := a + [e], VerifyStep(s, all, r, vs, a, e).value;
    assert longer[|a|] == e && forall j :: 0 <= j < |a| ==> longer[j] == a[j];
    forall k: nat
      ensures k < |a| ==> (Stands(longer, k) <==> Stands(a, k) && !e.payload.Exhausted? && !e.payload.BudgetRevised?
                                                  && !e.payload.Observed?)
      ensures k == |a| ==> (Stands(longer, k) <==> e.payload.Exhausted?)
    {
      StandsSnoc(a, e, k);
    }
    hide Stands, IntakeCaused, Backed, ChargedExactly, AnswersRound, RaisesBudget, Covers, NewTo, Payloads, Ids,
         QuestionIds, HasMaterial, Add;
    if vs'.exhausted.Some? && !e.payload.Exhausted? {
      var k :| 0 <= k < |a| && Stands(a, k);
      assert Stands(longer, k);
    }
    assert e.payload.Exhausted? ==> Stands(longer, |a|);
  }

  lemma StepSeesAnswers(s: Streams, all: seq<Event>, r: Id, a: seq<Event>, vs: VerifierState, e: Event)
    requires SeenAnswers(a, vs) && VerifyStep(s, all, r, vs, a, e).Some?
    ensures SeenAnswers(a + [e], VerifyStep(s, all, r, vs, a, e).value)
  {
    var longer, vs' := a + [e], VerifyStep(s, all, r, vs, a, e).value;
    assert longer[|a|] == e && forall j :: 0 <= j < |a| ==> longer[j] == a[j];
    forall k: nat
      ensures k < |a| ==> (Asking(longer, k) <==> Asking(a, k) && !e.payload.Observed? && !e.payload.Revised?)
      ensures k == |a| ==> (Asking(longer, k) <==> e.payload.Observed? && HasMaterial(e.payload.uncertainties))
    {
      AskingSnoc(a, e, k);
    }
    hide Asking, IntakeCaused, Backed, ChargedExactly, AnswersRound, RaisesBudget, Covers, NewTo, Payloads, Ids,
         QuestionIds, HasMaterial, Add;
    if !vs'.materialAnswered && !e.payload.Observed? {
      var k :| 0 <= k < |a| && Asking(a, k);
      assert Asking(longer, k);
    }
    assert e.payload.Observed? && HasMaterial(e.payload.uncertainties) ==> Asking(longer, |a|);
  }

  lemma StepSees(s: Streams, all: seq<Event>, r: Id, a: seq<Event>, vs: VerifierState, e: Event)
    requires Seen(a, vs) && VerifyStep(s, all, r, vs, a, e).Some?
    ensures Seen(a + [e], VerifyStep(s, all, r, vs, a, e).value)
  {
    hide VerifyStep, SeenStart, SeenRounds, SeenReservation, SeenExhaustion, SeenAnswers;
    StepSeesStart(s, all, r, a, vs, e);
    StepSeesRounds(s, all, r, a, vs, e);
    StepSeesReservation(s, all, r, a, vs, e);
    StepSeesExhaustion(s, all, r, a, vs, e);
    StepSeesAnswers(s, all, r, a, vs, e);
  }

  /** What is open, standing or asking, named. */
  lemma Witnesses(a: seq<Event>, vs: VerifierState)
    requires Seen(a, vs)
    ensures vs.reservation.Some? ==> exists k :: 0 <= k < |a| && Open(a, k) && vs.reservation == Some(a[k])
    ensures vs.exhausted.Some? ==> exists k :: 0 <= k < |a| && Stands(a, k) && vs.exhausted == Some(a[k])
    ensures !vs.materialAnswered ==> exists k :: 0 <= k < |a| && Asking(a, k) && vs.last == Some(a[k])
  {
    hide Open, Stands, Asking, SeenStart, SeenRounds;
  }

  lemma StartedAccepts(s: Streams, all: seq<Event>, r: Id, a: seq<Event>, vs: VerifierState, e: Event)
    requires Seen(a, vs) && (e.payload.Started? || e.payload.Exhausted?)
    ensures VerifyStep(s, all, r, vs, a, e).Some? <==> Acceptable(s, all, r, a + [e], |a|)
  {
    hide InForce, RoundsOf, Completes, SumUsage, CountObservations, AllIds, AllQuestions, IntakeCaused, Backed,
         ChargedExactly, AnswersRound, RaisesBudget, Covers, NewTo, Payloads, Ids, QuestionIds, HasMaterial, Add,
         AfterIntake, BackedBy, ChargedBy, AnsweredAs, RaisedAs, Open, Stands, Asking;
    var longer := a + [e];
    assert longer[..|a|] == a && longer[|a|] == e && (a != [] ==> longer[|a| - 1] == a[|a| - 1] && longer[0] == a[0]);
    LookupsExactly(all, r, e, 0);
  }

  lemma ReservedAccepts(s: Streams, all: seq<Event>, r: Id, a: seq<Event>, vs: VerifierState, e: Event)
    requires Seen(a, vs) && e.payload.Reserved?
    ensures VerifyStep(s, all, r, vs, a, e).Some? <==> Acceptable(s, all, r, a + [e], |a|)
  {
    hide InForce, RoundsOf, Completes, SumUsage, CountObservations, AllIds, AllQuestions, IntakeCaused, Backed,
         ChargedExactly, AnswersRound, RaisesBudget, Covers, NewTo, Payloads, Ids, QuestionIds, HasMaterial, Add,
         AfterIntake, BackedBy, ChargedBy, AnsweredAs, RaisedAs, Open, Stands, Asking;
    var longer := a + [e];
    assert longer[..|a|] == a && longer[|a|] == e && (a != [] ==> longer[|a| - 1] == a[|a| - 1] && longer[0] == a[0]);
    LookupsExactly(all, r, e, 0);
  }

  lemma OpenIsReserved(a: seq<Event>, k: nat)
    requires Open(a, k)
    ensures k < |a| && a[k].payload.Reserved?
  {
  }

  lemma ObservedAccepts(s: Streams, all: seq<Event>, r: Id, a: seq<Event>, vs: VerifierState, e: Event)
    requires Seen(a, vs) && e.payload.Observed?
    ensures VerifyStep(s, all, r, vs, a, e).Some? <==> Acceptable(s, all, r, a + [e], |a|)
  {
    hide InForce, RoundsOf, Completes, SumUsage, CountObservations, AllIds, AllQuestions, IntakeCaused, Backed,
         ChargedExactly, AnswersRound, RaisesBudget, Covers, NewTo, Payloads, Ids, QuestionIds, HasMaterial, Add,
         AfterIntake, BackedBy, ChargedBy, AnsweredAs, RaisedAs, Open, Stands, Asking;
    hide SeenExhaustion, SeenAnswers, ReservesNext, CompletesRecord;
    var longer := a + [e];
    assert longer[..|a|] == a && longer[|a|] == e && (a != [] ==> longer[|a| - 1] == a[|a| - 1] && longer[0] == a[0]);
    Witnesses(a, vs);
    if vs.reservation.Some? {
      var k :| 0 <= k < |a| && Open(a, k) && vs.reservation == Some(a[k]);
      OpenIsReserved(a, k);
      LookupsExactly(all, r, e, a[k].payload.reservationId);
      assert VerifyStep(s, all, r, vs, a, e).Some? ==> ObservesReserved(all, r, longer[..|a|], k, e);
    }
  }

  lemma RevisedAccepts(s: Streams, all: seq<Event>, r: Id, a: seq<Event>, vs: VerifierState, e: Event)
    requires Seen(a, vs) && e.payload.Revised?
    ensures VerifyStep(s, all, r, vs, a, e).Some? <==> Acceptable(s, all, r, a + [e], |a|)
  {
    hide InForce, RoundsOf, Completes, SumUsage, CountObservations, AllIds, AllQuestions, IntakeCaused, Backed,
         ChargedExactly, AnswersRound, RaisesBudget, Covers, NewTo, Payloads, Ids, QuestionIds, HasMaterial, Add,
         AfterIntake, BackedBy, ChargedBy, AnsweredAs, RaisedAs, Open, Stands, Asking;
    hide SeenReservation, SeenExhaustion, ReservesNext, ObservesReserved, CompletesRecord;
    var longer := a + [e];
    assert longer[..|a|] == a && longer[|a|] == e && (a != [] ==> longer[|a| - 1] == a[|a| - 1] && longer[0] == a[0]);
    Witnesses(a, vs);
    if vs.last.Some? && vs.last.value.payload.Observed? {
      AnswersExactly(s, r, vs.last.value, e);
    }
  }

  lemma BudgetRevisedAccepts(s: Streams, all: seq<Event>, r: Id, a: seq<Event>, vs: VerifierState, e: Event)
    requires Seen(a, vs) && e.payload.BudgetRevised?
    ensures VerifyStep(s, all, r, vs, a, e).Some? <==> Acceptable(s, all, r, a + [e], |a|)
  {
    hide InForce, RoundsOf, Completes, SumUsage, CountObservations, AllIds, AllQuestions, IntakeCaused, Backed,
         ChargedExactly, AnswersRound, RaisesBudget, Covers, NewTo, Payloads, Ids, QuestionIds, HasMaterial, Add,
         AfterIntake, BackedBy, ChargedBy, AnsweredAs, RaisedAs, Open, Stands, Asking;
    hide SeenReservation, SeenAnswers, ReservesNext, ObservesReserved, CompletesRecord;
    var longer := a + [e];
    assert longer[..|a|] == a && longer[|a|] == e && (a != [] ==> longer[|a| - 1] == a[|a| - 1] && longer[0] == a[0]);
    Witnesses(a, vs);
    if vs.exhausted.Some? && vs.budget.Some? {
      RaisesExactly(s, all, r, vs.exhausted.value, vs.budget.value, vs.totalUsage, e);
    }
  }

  lemma ReconciledAccepts(s: Streams, all: seq<Event>, r: Id, a: seq<Event>, vs: VerifierState, e: Event)
    requires Seen(a, vs) && (e.payload.ReconciliationRequired? || e.payload.ReconciliationResolved?)
    ensures VerifyStep(s, all, r, vs, a, e).Some? <==> Acceptable(s, all, r, a + [e], |a|)
  {
    hide InForce, RoundsOf, Completes, SumUsage, CountObservations, AllIds, AllQuestions, IntakeCaused, Backed,
         ChargedExactly, AnswersRound, RaisesBudget, Covers, NewTo, Payloads, Ids, QuestionIds, HasMaterial, Add,
         AfterIntake, BackedBy, ChargedBy, AnsweredAs, RaisedAs, Open, Stands, Asking;
    hide SeenRounds, SeenExhaustion, SeenAnswers, ReservesNext, ObservesReserved, CompletesRecord;
    var longer := a + [e];
    assert longer[..|a|] == a && longer[|a|] == e && (a != [] ==> longer[|a| - 1] == a[|a| - 1] && longer[0] == a[0]);
    Witnesses(a, vs);
  }

  lemma CompletedAccepts(s: Streams, all: seq<Event>, r: Id, a: seq<Event>, vs: VerifierState, e: Event)
    requires Seen(a, vs) && e.payload.Completed?
    ensures VerifyStep(s, all, r, vs, a, e).Some? <==> Acceptable(s, all, r, a + [e], |a|)
  {
    hide InForce, RoundsOf, Completes, SumUsage, CountObservations, AllIds, AllQuestions, IntakeCaused, Backed,
         ChargedExactly, AnswersRound, RaisesBudget, Covers, NewTo, Payloads, Ids, QuestionIds, HasMaterial, Add,
         AfterIntake, BackedBy, ChargedBy, AnsweredAs, RaisedAs, Open, Stands, Asking;
    var longer := a + [e];
    assert longer[..|a|] == a && longer[|a|] == e && (a != [] ==> longer[|a| - 1] == a[|a| - 1] && longer[0] == a[0]);
  }

  /** The replay takes the next event exactly when it is acceptable. */
  lemma StepAccepts(s: Streams, all: seq<Event>, r: Id, a: seq<Event>, vs: VerifierState, e: Event)
    requires Seen(a, vs)
    ensures VerifyStep(s, all, r, vs, a, e).Some? <==> Acceptable(s, all, r, a + [e], |a|)
  {
    hide Seen, VerifyStep;
    match e.payload
    case Started(_, _, _, _, _) => StartedAccepts(s, all, r, a, vs, e);
    case Exhausted(_, _, _, _) => StartedAccepts(s, all, r, a, vs, e);
    case Reserved(_, _, _, _, _, _, _, _) => ReservedAccepts(s, all, r, a, vs, e);
    case Observed(_, _, _, _, _, _, _) => ObservedAccepts(s, all, r, a, vs, e);
    case Revised(_, _, _) => RevisedAccepts(s, all, r, a, vs, e);
    case BudgetRevised(_, _, _, _, _, _, _) => BudgetRevisedAccepts(s, all, r, a, vs, e);
    case ReconciliationRequired(_, _, _, _) => ReconciledAccepts(s, all, r, a, vs, e);
    case ReconciliationResolved(_, _, _, _) => ReconciledAccepts(s, all, r, a, vs, e);
    case Completed(_, _, _, _, _, _, _) => CompletedAccepts(s, all, r, a, vs, e);
    case _ => NeverAccepted(s, all, r, a, vs, e);
  }

  lemma NeverAccepted(s: Streams, all: seq<Event>, r: Id, a: seq<Event>, vs: VerifierState, e: Event)
    requires !e.payload.Started? && !e.payload.Exhausted? && !e.payload.Reserved? && !e.payload.Observed?
    requires !e.payload.Revised? && !e.payload.BudgetRevised? && !e.payload.ReconciliationRequired?
    requires !e.payload.ReconciliationResolved? && !e.payload.Completed?
    ensures VerifyStep(s, all, r, vs, a, e).None? && !Acceptable(s, all, r, a + [e], |a|)
  {
    assert (a + [e])[|a|] == e;
  }

  lemma AcceptablePrefix(s: Streams, all: seq<Event>, r: Id, a: seq<Event>, e: Event, n: nat)
    requires n < |a|
    ensures Acceptable(s, all, r, a + [e], n) == Acceptable(s, all, r, a, n)
  {
    var longer := a + [e];
    assert longer[..n] == a[..n] && longer[n] == a[n] && longer[0] == a[0] && (n > 0 ==> longer[n - 1] == a[n - 1]);
    hide Completes, OfRun, AfterIntake, AnyOpen, AnyStands, AnyAsking, RoundsOf, InForce, BackedBy, ObservesReserved,
         AnsweredAs, RaisedAs, Open, Stands, Asking, CountObservations, SumUsage, HasMaterial, Payloads, Covers;
  }

  lemma NothingSeen(s: Streams, all: seq<Event>, r: Id)
    ensures VerifyAfter(s, all, r, []) == Some(Unverified) && Seen([], Unverified)
  {
  }

  /** The replay accepts a stream exactly when every event of it is acceptable after those before it. */
  lemma {:induction false} AcceptedExactly(s: Streams, all: seq<Event>, r: Id, a: seq<Event>)
    ensures VerifyAfter(s, all, r, a).Some? <==> forall n :: 0 <= n < |a| ==> Acceptable(s, all, r, a, n)
    ensures VerifyAfter(s, all, r, a).Some? ==> Seen(a, VerifyAfter(s, all, r, a).value)
  {
    hide Acceptable, Seen, VerifyStep;
    if a == [] {
      NothingSeen(s, all, r);
    } else {
      var m := |a| - 1;
      var front, e := a[..m], a[m];
      AcceptedExactly(s, all, r, front);
      assert a == front + [e];
      forall n | 0 <= n < m ensures Acceptable(s, all, r, a, n) == Acceptable(s, all, r, front, n) {
        AcceptablePrefix(s, all, r, front, e, n);
      }
      if VerifyAfter(s, all, r, front).Some? {
        StepAccepts(s, all, r, front, VerifyAfter(s, all, r, front).value, e);
        if VerifyAfter(s, all, r, a).Some? {
          StepSees(s, all, r, front, VerifyAfter(s, all, r, front).value, e);
        }
      }
    }
  }

  /** A completed analysis verifies exactly when it has at least four events, each acceptable after those before it,
    * and was completed. */
  lemma VerifiesExactly(s: Streams, all: seq<Event>, r: Id)
    ensures var a := Read(s, AnalysisStream(r));
      Verifies(s, all, r) <==>
        && |a| >= 4 && (forall n :: 0 <= n < |a| ==> Acceptable(s, all, r, a, n)) && Completes(a)
  {
    var a := Read(s, AnalysisStream(r));
    hide Acceptable, VerifyAfter, Completes;
    AcceptedExactly(s, all, r, a);
    if |a| >= 4 && VerifyAfter(s, all, r, a).Some? && Completes(a) {
      StartedFirst(s, all, r, a);
    }
  }

  lemma StartedFirst(s: Streams, all: seq<Event>, r: Id, a: seq<Event>)
    requires Completes(a) && forall n :: 0 <= n < |a| ==> Acceptable(s, all, r, a, n)
    ensures a[0].payload.Started?
  {
    hide AnyOpen, AnyStands, AnyAsking, RoundsOf, InForce, CountObservations, SumUsage, Payloads, Covers, HasMaterial;
    var n :| 0 <= n < |a| && a[n].payload.Completed?;
    assert Acceptable(s, all, r, a, n);
  }
}
