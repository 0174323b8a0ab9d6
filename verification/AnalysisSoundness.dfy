/** What an accepted replay establishes, whoever wrote the journal. */
module AnalysisSoundness {
  import opened EventJournal
  import opened Questionnaire
  import opened AnalysisModel
  import opened AnalysisVerifier

  /** The budgets in force, one after the other. */
  function Budgets(events: seq<Event>): seq<Budget> {
    if events == [] then [] else
    var front, last := Budgets(events[..|events| - 1]), events[|events| - 1];
    if last.payload.Started? || last.payload.BudgetRevised? then front + [last.payload.budget] else front
  }

  predicate NeverLower(budgets: seq<Budget>) {
    forall i, j :: 0 <= i < j < |budgets| ==> NoLower(budgets[j], budgets[i])
  }

  predicate ClosesReservation(event: Event, reservation: Event) {
    || (event.payload.Observed? && event.payload.reservationEventId == reservation.eventId)
    || (event.payload.ReconciliationResolved? && event.payload.reservationEventId == reservation.eventId)
    || (event.payload.Exhausted? && event.causationId == Some(reservation.eventId))
  }

  /** What one event does to the counters. */
  lemma StepCounts(s: Streams, all: seq<Event>, runId: Id, vs: VerifierState, before: seq<Event>, event: Event)
    requires VerifyStep(s, all, runId, vs, before, event).Some?
    requires vs.reservation.Some? ==> vs.reservation.value.payload.Reserved?
                                      && vs.reservation.value.payload.round == vs.rounds + 1
    ensures var vs' := VerifyStep(s, all, runId, vs, before, event).value;
      && (vs'.reservation.Some? ==> vs'.reservation.value.payload.Reserved?
                                    && vs'.reservation.value.payload.round == vs'.rounds + 1)
      && (if event.payload.Observed? then
            && event.payload.round == vs.rounds + 1 && vs'.rounds == vs.rounds + 1 && vs'.last == Some(event)
            && vs'.observations == vs.observations + |ObservationsOf(event)|
            && vs'.totalUsage == Add(vs.totalUsage, UsageOf(event))
          else
            vs'.rounds == vs.rounds && vs'.last == vs.last && vs'.observations == vs.observations
            && vs'.totalUsage == vs.totalUsage)
  {
    hide IntakeCaused, Backed, ChargedExactly, AnswersRound, RaisesBudget, Covers, StrictlyHigher, Payloads, Ids, NewTo;
  }

  lemma RoundsSnoc(rounds: seq<Event>, e: Event)
    ensures SumUsage(rounds + [e]) == Add(SumUsage(rounds), UsageOf(e))
    ensures CountObservations(rounds + [e]) == CountObservations(rounds) + |ObservationsOf(e)|
  {
    assert (rounds + [e])[..|rounds|] == rounds;
  }

  predicate Counts(vs: VerifierState, rounds: seq<Event>) {
    && RoundsNumbered(rounds) && vs.rounds == |rounds|
    && vs.observations == CountObservations(rounds) && vs.totalUsage == SumUsage(rounds)
    && vs.last == (if rounds == [] then None else Some(rounds[|rounds| - 1]))
    && (vs.reservation.Some? ==> vs.reservation.value.payload.Reserved?
                                 && vs.reservation.value.payload.round == |rounds| + 1)
  }

  lemma CountsGrow(s: Streams, all: seq<Event>, runId: Id, vs: VerifierState, before: seq<Event>, event: Event,
                   rounds: seq<Event>)
    requires Counts(vs, rounds) && VerifyStep(s, all, runId, vs, before, event).Some?
    ensures Counts(VerifyStep(s, all, runId, vs, before, event).value,
                   if event.payload.Observed? then rounds + [event] else rounds)
  {
    hide VerifyStep, SumUsage, CountObservations, Add, UsageOf, ObservationsOf;
    StepCounts(s, all, runId, vs, before, event);
    RoundsSnoc(rounds, event);
  }

  lemma VerifyUnfolds(s: Streams, all: seq<Event>, runId: Id, events: seq<Event>)
    requires events != [] && VerifyAfter(s, all, runId, events).Some?
    ensures var front, last := events[..|events| - 1], events[|events| - 1];
      && VerifyAfter(s, all, runId, front).Some?
      && VerifyAfter(s, all, runId, events)
           == VerifyStep(s, all, runId, VerifyAfter(s, all, runId, front).value, front, last)
      && RoundsOf(events)
           == (if last.payload.Observed? then RoundsOf(front) + [last] else RoundsOf(front))
  {
    hide VerifyStep;
  }

  lemma NothingCounted(s: Streams, all: seq<Event>, runId: Id)
    ensures VerifyAfter(s, all, runId, []).Some? && Counts(VerifyAfter(s, all, runId, []).value, RoundsOf([]))
  {
  }

  /** The counters of the replay are those of the rounds it has seen. */
  lemma {:induction false} CountersAreTheRounds(s: Streams, all: seq<Event>, runId: Id, events: seq<Event>)
    requires VerifyAfter(s, all, runId, events).Some?
    ensures Counts(VerifyAfter(s, all, runId, events).value, RoundsOf(events))
  {
    hide *;
    if events == [] {
      NothingCounted(s, all, runId);
    } else {
      var n := |events| - 1;
      VerifyUnfolds(s, all, runId, events);
      CountersAreTheRounds(s, all, runId, events[..n]);
      CountsGrow(s, all, runId, VerifyAfter(s, all, runId, events[..n]).value, events[..n], events[n],
                 RoundsOf(events[..n]));
    }
  }

  /** Every reservation but the one still open is closed by a later event. */
  lemma {:induction false} ReservationsClose(s: Streams, all: seq<Event>, runId: Id, events: seq<Event>, i: nat)
    requires VerifyAfter(s, all, runId, events).Some? && i < |events| && events[i].payload.Reserved?
    ensures || VerifyAfter(s, all, runId, events).value.reservation == Some(events[i])
            || exists j :: i < j < |events| && ClosesReservation(events[j], events[i])
  {
    var n := |events| - 1;
    if i < n {
      var front := events[..n];
      ReservationsClose(s, all, runId, front, i);
      hide IntakeCaused, Backed, ChargedExactly, AnswersRound, RaisesBudget, Covers, StrictlyHigher, Payloads, Ids,
           NewTo;
      if exists j :: i < j < n && ClosesReservation(front[j], front[i]) {
        var j :| i < j < n && ClosesReservation(front[j], front[i]);
        assert ClosesReservation(events[j], events[i]);
      } else {
        assert VerifyAfter(s, all, runId, front).value.reservation == Some(events[i]);
        assert VerifyAfter(s, all, runId, events).value.reservation == Some(events[i])
               || ClosesReservation(events[n], events[i]);
      }
    }
  }

  /** Every round was charged to the ledger at exactly its own usage. */
  lemma RoundsAreCharged(s: Streams, all: seq<Event>, runId: Id, events: seq<Event>, i: nat)
    requires VerifyAfter(s, all, runId, events).Some? && i < |events| && events[i].payload.Observed?
    ensures exists charge :: charge in all && charge.payload.BudgetCharged?
              && charge.payload.analysisEventId == events[i].eventId && charge.payload.runId == runId
              && charge.payload.usage == events[i].payload.usage
  {
    VerifySnoc(s, all, runId, events, i);
    assert FindCharge(all, events[i].eventId).value in all;
  }

  lemma HigherIsTransitive(a: Budget, b: Budget, c: Budget)
    requires NoLower(a, b) && NoLower(b, c)
    ensures NoLower(a, c)
  {
  }

  /** The budgets so far never decreased, and the last of them is in force. */
  predicate InForce(vs: VerifierState, budgets: seq<Budget>) {
    && NeverLower(budgets) && (budgets == [] <==> vs.budget.None?)
    && (budgets != [] ==> vs.budget == Some(budgets[|budgets| - 1]))
  }

  lemma HigherThanAll(budgets: seq<Budget>, next: Budget)
    requires NeverLower(budgets) && (budgets != [] ==> NoLower(next, budgets[|budgets| - 1]))
    ensures NeverLower(budgets + [next])
  {
    hide NoLower;
    forall i | 0 <= i < |budgets| ensures NoLower(next, budgets[i]) {
      if i < |budgets| - 1 {
        HigherIsTransitive(next, budgets[|budgets| - 1], budgets[i]);
      }
    }
  }

  /** What one event does to the budget in force. */
  lemma StepBudget(s: Streams, all: seq<Event>, runId: Id, vs: VerifierState, before: seq<Event>, event: Event)
    requires VerifyStep(s, all, runId, vs, before, event).Some?
    ensures var vs' := VerifyStep(s, all, runId, vs, before, event).value;
      && (if event.payload.Started? then before == [] && vs'.budget == Some(event.payload.budget)
          else if event.payload.BudgetRevised? then
            vs.budget.Some? && vs'.budget == Some(event.payload.budget)
              && NoLower(event.payload.budget, vs.budget.value)
          else vs'.budget == vs.budget)
  {
    hide IntakeCaused, Backed, ChargedExactly, AnswersRound, Covers, NoLower, Payloads, Ids, NewTo;
  }

  lemma BudgetsUnfold(events: seq<Event>)
    requires events != []
    ensures var last := events[|events| - 1];
      Budgets(events) == if last.payload.Started? || last.payload.BudgetRevised?
        then Budgets(events[..|events| - 1]) + [last.payload.budget] else Budgets(events[..|events| - 1])
  {
  }

  lemma NoBudget()
    ensures Budgets([]) == []
  {
  }

  lemma BudgetsGrow(s: Streams, all: seq<Event>, runId: Id, vs: VerifierState, before: seq<Event>, event: Event,
                    budgets: seq<Budget>)
    requires InForce(vs, budgets) && VerifyStep(s, all, runId, vs, before, event).Some?
             && (before == [] ==> budgets == [])
    ensures InForce(VerifyStep(s, all, runId, vs, before, event).value,
                    if event.payload.Started? || event.payload.BudgetRevised? then budgets + [event.payload.budget]
                    else budgets)
  {
    hide VerifyStep, NoLower;
    StepBudget(s, all, runId, vs, before, event);
    if event.payload.Started? || event.payload.BudgetRevised? {
      HigherThanAll(budgets, event.payload.budget);
    }
  }

  lemma NothingInForce(s: Streams, all: seq<Event>, runId: Id)
    ensures VerifyAfter(s, all, runId, []).Some? && InForce(VerifyAfter(s, all, runId, []).value, Budgets([]))
  {
  }

  lemma {:induction false} BudgetsOnlyGrow(s: Streams, all: seq<Event>, runId: Id, events: seq<Event>)
    requires VerifyAfter(s, all, runId, events).Some?
    ensures InForce(VerifyAfter(s, all, runId, events).value, Budgets(events))
  {
    hide *;
    if events == [] {
      NothingInForce(s, all, runId);
    } else {
      var n := |events| - 1;
      VerifyUnfolds(s, all, runId, events);
      BudgetsUnfold(events);
      NoBudget();
      BudgetsOnlyGrow(s, all, runId, events[..n]);
      BudgetsGrow(s, all, runId, VerifyAfter(s, all, runId, events[..n]).value, events[..n], events[n],
                  Budgets(events[..n]));
    }
  }

  predicate AnsweredBetween(s: Streams, runId: Id, events: seq<Event>, i: nat, j: nat)
    requires i < j <= |events| && events[i].payload.Observed?
  {
    exists k :: i < k < j && events[k].payload.Revised? && AnswersRound(s, runId, events[i], events[k])
  }

  lemma {:induction false} MaterialRoundsAreAnswered(s: Streams, all: seq<Event>, runId: Id, events: seq<Event>, i: nat)
    requires VerifyAfter(s, all, runId, events).Some? && i < |events|
    requires events[i].payload.Observed? && HasMaterial(events[i].payload.uncertainties)
    ensures var vs := VerifyAfter(s, all, runId, events).value;
      || AnsweredBetween(s, runId, events, i, |events|)
      || (vs.last == Some(events[i]) && !vs.materialAnswered && vs.reservation.None?)
  {
    var n := |events| - 1;
    hide IntakeCaused, Backed, ChargedExactly, AnswersRound, RaisesBudget, Covers, StrictlyHigher, Payloads, Ids, NewTo;
    if i < n {
      var front := events[..n];
      MaterialRoundsAreAnswered(s, all, runId, front, i);
      if AnsweredBetween(s, runId, front, i, n) {
        var k :| i < k < n && front[k].payload.Revised? && AnswersRound(s, runId, front[i], front[k]);
        assert events[k].payload.Revised? && AnswersRound(s, runId, events[i], events[k]);
      } else {
        var before := VerifyAfter(s, all, runId, front).value;
        assert VerifyAfter(s, all, runId, events) == VerifyStep(s, all, runId, before, front, events[n]);
        assert before.last == Some(events[i]) && !before.materialAnswered && before.reservation.None?;
        if events[n].payload.Revised? {
          assert AnswersRound(s, runId, events[i], events[n]);
        }
      }
    }
  }

  /** No analyzer ran on an unanswered material question: between a material round and any later
    * reservation lies the operator's answer to it. */
  lemma MaterialBeforeReservation(s: Streams, all: seq<Event>, runId: Id, events: seq<Event>, i: nat, j: nat)
    requires VerifyAfter(s, all, runId, events).Some? && i < j < |events|
    requires events[i].payload.Observed? && HasMaterial(events[i].payload.uncertainties) && events[j].payload.Reserved?
    ensures exists k :: i < k < j && events[k].payload.Revised? && events[k].payload.answer.actor.kind == Operator
              && AnswersRound(s, runId, events[i], events[k])
  {
    VerifySnoc(s, all, runId, events, j);
    MaterialRoundsAreAnswered(s, all, runId, events[..j], i);
    hide IntakeCaused, Backed, ChargedExactly, RaisesBudget, Covers, StrictlyHigher, Payloads, Ids, NewTo, VerifyAfter;
    var k :| i < k < j && events[..j][k].payload.Revised? && AnswersRound(s, runId, events[..j][i], events[..j][k]);
    assert AnswersRound(s, runId, events[i], events[k]);
  }

  /** Soundness of completion evidence. */
  lemma VerifierIsSound(s: Streams, all: seq<Event>, runId: Id)
    requires Verifies(s, all, runId)
    ensures var events := Read(s, AnalysisStream(runId));
      && var rounds, budgets := RoundsOf(events), Budgets(events);
      && RoundsNumbered(rounds) && |rounds| > 0 && CountObservations(rounds) > 0
      && !HasMaterial(UncertaintiesOf(rounds[|rounds| - 1]))
      && NeverLower(budgets) && |budgets| > 0 && Covers(budgets[|budgets| - 1], SumUsage(rounds))
      && (forall i :: 0 <= i < |events| && events[i].payload.Reserved? ==>
            exists j :: i < j < |events| && ClosesReservation(events[j], events[i]))
  {
    var events := Read(s, AnalysisStream(runId));
    var n := |events| - 1;
    CompletionIsLast(s, all, runId, events);
    CountersAreTheRounds(s, all, runId, events);
    BudgetsOnlyGrow(s, all, runId, events);
    CompletedChecks(s, all, runId, events);
    forall i | 0 <= i < |events| && events[i].payload.Reserved?
      ensures exists j :: i < j < |events| && ClosesReservation(events[j], events[i])
    {
      ReservationsClose(s, all, runId, events, i);
    }
    hide VerifyAfter, Covers, NoLower, HasMaterial;
  }

  lemma CompletedChecks(s: Streams, all: seq<Event>, runId: Id, events: seq<Event>)
    requires VerifyAfter(s, all, runId, events).Some? && VerifyAfter(s, all, runId, events).value.completed.Some?
    ensures var vs := VerifyAfter(s, all, runId, events).value;
      && vs.reservation.None? && vs.last.Some? && vs.observations > 0 && vs.budget.Some?
      && !HasMaterial(UncertaintiesOf(vs.last.value)) && Covers(vs.budget.value, vs.totalUsage)
  {
    CompletionIsLast(s, all, runId, events);
    hide IntakeCaused, Backed, ChargedExactly, AnswersRound, RaisesBudget, Covers, StrictlyHigher, Ids, NewTo;
  }
}
