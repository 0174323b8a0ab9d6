/** The budget of an analysis, read off its events: what was used, what is allowed, and what follows for
  * reservations and exhaustions in every run. */
module AnalysisBounds {
  import opened EventJournal
  import opened Questionnaire
  import opened AnalysisModel
  import opened AnalysisSteps
  import opened AnalysisLedger

  // ---------- Measures ----------

  function UsagePart(limit: Reason, usage: Usage): nat {
    match limit
    case Output => usage.outputBytes
    case Duration => usage.durationMs
    case InputTokens => usage.inputTokens
    case OutputTokens => usage.outputTokens
    case Cost => usage.costUsdNano
    case _ => 0
  }

  /** What one round adds to the measure of a limit. */
  function Part(limit: Reason, round: Payload): nat
    requires round.Observed?
  {
    match limit
    case Rounds => 1
    case Observations => |round.observations|
    case Questions => |round.uncertainties|
    case Options => 0
    case _ => UsagePart(limit, round.usage)
  }

  function Used(limit: Reason, rounds: seq<Event>): nat
    requires AllObserved(rounds)
  {
    if rounds == [] then 0
    else Part(limit, rounds[0].payload) + Used(limit, rounds[1..])
  }

  function Allowed(limit: Reason, budget: Budget): nat {
    match limit
    case Rounds => budget.maxRounds
    case Observations => budget.maxObservations
    case Questions => budget.maxQuestions
    case Options => budget.maxQuestionnaireOptions
    case Output => budget.maxOutputBytes
    case Duration => budget.maxDurationMs
    case InputTokens => budget.maxInputTokens
    case OutputTokens => budget.maxOutputTokens
    case Cost => budget.maxCostUsdNano
  }

  /** A question without options or with too many of them, or more complete answers than allowed. */
  predicate Unanswerable(us: seq<Uncertainty>, budget: Budget) {
    || (exists k :: 0 <= k < |us| && !(1 <= |us[k].options| <= budget.maxOptionsPerQuestion))
    || (us != [] && |Vectors(us)| > budget.maxQuestionnaireOptions)
  }

  /** The rounds have used up the limit: before a further invocation a full count of rounds is enough. */
  predicate Reached(limit: Reason, rounds: seq<Event>, budget: Budget, before: bool)
    requires AllObserved(rounds)
  {
    match limit
    case Rounds => |rounds| > budget.maxRounds || (before && |rounds| == budget.maxRounds)
    case Options => exists i :: 0 <= i < |rounds| && Unanswerable(rounds[i].payload.uncertainties, budget)
    case _ => Used(limit, rounds) > Allowed(limit, budget)
  }

  /** The order in which limits are reported. */
  function Rank(limit: Reason): nat {
    match limit
    case Rounds => 0
    case Observations => 1
    case Questions => 2
    case Options => 3
    case Output => 4
    case Duration => 5
    case InputTokens => 6
    case OutputTokens => 7
    case Cost => 8
  }

  predicate FirstReached(limit: Reason, rounds: seq<Event>, budget: Budget, before: bool)
    requires AllObserved(rounds)
  {
    && Reached(limit, rounds, budget, before)
    && forall other: Reason :: Rank(other) < Rank(limit) ==> !Reached(other, rounds, budget, before)
  }

  // ---------- Sums ----------

  function InputBytes(rounds: seq<Event>): nat
    requires AllObserved(rounds)
  {
    if rounds == [] then 0 else rounds[0].payload.usage.inputBytes + InputBytes(rounds[1..])
  }

  lemma {:induction false} InputBytesSnoc(rounds: seq<Event>, e: Event)
    requires AllObserved(rounds) && e.payload.Observed?
    ensures InputBytes(rounds + [e]) == InputBytes(rounds) + e.payload.usage.inputBytes
  {
    if rounds == [] {
      assert [] + [e] == [e] && [e][1..] == [];
    } else {
      InputBytesSnoc(rounds[1..], e);
      assert (rounds + [e])[1..] == rounds[1..] + [e];
    }
  }

  lemma {:induction false} UsedSnoc(limit: Reason, rounds: seq<Event>, e: Event)
    requires AllObserved(rounds) && e.payload.Observed?
    ensures Used(limit, rounds + [e]) == Used(limit, rounds) + Part(limit, e.payload)
  {
    if rounds == [] {
      assert [] + [e] == [e] && [e][1..] == [];
    } else {
      UsedSnoc(limit, rounds[1..], e);
      assert (rounds + [e])[1..] == rounds[1..] + [e];
    }
  }

  /** The usage summed by the coordinator is, field by field, the sum over the rounds; its receipt is the last. */
  lemma {:induction false} SumPerField(rounds: seq<Event>)
    requires AllObserved(rounds)
    ensures var sum := SumUsage(rounds);
      && sum.outputBytes == Used(Output, rounds) && sum.durationMs == Used(Duration, rounds)
      && sum.inputTokens == Used(InputTokens, rounds) && sum.outputTokens == Used(OutputTokens, rounds)
      && sum.costUsdNano == Used(Cost, rounds) && sum.inputBytes == InputBytes(rounds)
    ensures CountObservations(rounds) == Used(Observations, rounds)
    ensures CountQuestions(rounds) == Used(Questions, rounds)
    ensures |rounds| == Used(Rounds, rounds)
    ensures rounds != [] ==> SumUsage(rounds).receipt == rounds[|rounds| - 1].payload.usage.receipt
  {
    if rounds != [] {
      var front, e := rounds[..|rounds| - 1], rounds[|rounds| - 1];
      SumPerField(front);
      assert rounds == front + [e];
      forall limit: Reason ensures Used(limit, rounds) == Used(limit, front) + Part(limit, e.payload) {
        UsedSnoc(limit, front, e);
      }
      InputBytesSnoc(front, e);
    }
  }

  lemma {:induction false} RoundWithinTotal(rounds: seq<Event>, i: nat)
    requires AllObserved(rounds) && i < |rounds|
    ensures |rounds[i].payload.uncertainties| <= Used(Questions, rounds)
  {
    if i > 0 {
      RoundWithinTotal(rounds[1..], i - 1);
    }
  }

  /** The options of the rounds fit exactly when no round is unanswerable within its limits. */
  lemma OptionsReached(rounds: seq<Event>, budget: Budget)
    requires AllObserved(rounds) && Used(Questions, rounds) <= budget.maxQuestions
    ensures Reached(Options, rounds, budget, true) <==> !QuestionnairesFit(rounds, budget)
  {
    hide Product, Vectors, Used;
    forall i | 0 <= i < |rounds|
      ensures Unanswerable(rounds[i].payload.uncertainties, budget) <==>
              !Fits(UncertaintiesOf(rounds[i]), budget.maxQuestions, budget.maxOptionsPerQuestion,
                    budget.maxQuestionnaireOptions)
    {
      RoundWithinTotal(rounds, i);
    }
  }

  /** The same limits in the terms of the coordinator's sums. */
  predicate Tested(limit: Reason, rounds: seq<Event>, budget: Budget, before: bool) {
    match limit
    case Rounds => if before then |rounds| >= budget.maxRounds else |rounds| > budget.maxRounds
    case Observations => CountObservations(rounds) > budget.maxObservations
    case Questions => CountQuestions(rounds) > budget.maxQuestions
    case Options => !QuestionnairesFit(rounds, budget)
    case Output => SumUsage(rounds).outputBytes > budget.maxOutputBytes
    case Duration => SumUsage(rounds).durationMs > budget.maxDurationMs
    case InputTokens => SumUsage(rounds).inputTokens > budget.maxInputTokens
    case OutputTokens => SumUsage(rounds).outputTokens > budget.maxOutputTokens
    case Cost => SumUsage(rounds).costUsdNano > budget.maxCostUsdNano
  }

  lemma ReachedIsTested(limit: Reason, rounds: seq<Event>, budget: Budget, before: bool)
    requires AllObserved(rounds)
    ensures (limit == Options && Reached(Questions, rounds, budget, before))
            || (Reached(limit, rounds, budget, before) <==> Tested(limit, rounds, budget, before))
  {
    SumPerField(rounds);
    if limit == Options {
      if Used(Questions, rounds) <= budget.maxQuestions {
        OptionsReached(rounds, budget);
      }
    }
    hide Used, SumUsage, CountObservations, CountQuestions, QuestionnairesFit, Unanswerable;
  }

  lemma FirstTested(rounds: seq<Event>, budget: Budget, before: bool)
    ensures BudgetReason(rounds, budget, before).None? ==> forall limit :: !Tested(limit, rounds, budget, before)
    ensures BudgetReason(rounds, budget, before).Some? ==>
              var reason := BudgetReason(rounds, budget, before).value;
              && Tested(reason, rounds, budget, before)
              && forall other :: Rank(other) < Rank(reason) ==> !Tested(other, rounds, budget, before)
  {
    hide SumUsage, CountObservations, CountQuestions, QuestionnairesFit;
  }

  /** The reason given for an exhausted budget is the first limit that is reached, and there is none exactly when no
    * limit is. */
  lemma ReasonIsFirstReached(rounds: seq<Event>, budget: Budget, before: bool)
    requires AllObserved(rounds)
    ensures BudgetReason(rounds, budget, before).None? <==>
            forall limit: Reason :: !Reached(limit, rounds, budget, before)
    ensures BudgetReason(rounds, budget, before).Some? ==>
              FirstReached(BudgetReason(rounds, budget, before).value, rounds, budget, before)
  {
    FirstTested(rounds, budget, before);
    forall limit: Reason
      ensures (limit == Options && Reached(Questions, rounds, budget, before))
              || (Reached(limit, rounds, budget, before) <==> Tested(limit, rounds, budget, before))
    {
      ReachedIsTested(limit, rounds, budget, before);
    }
    hide Reached, Tested, BudgetReason;
  }

  // ---------- Budgets compared ----------

  /** The limits a ledger is held against. */
  predicate Metered(limit: Reason) {
    limit in {Output, Duration, InputTokens, OutputTokens, Cost}
  }

  /** A budget covers a usage exactly when every metered part of it is allowed. */
  lemma CoversExactly(budget: Budget, usage: Usage)
    ensures Covers(budget, usage) <==>
              forall limit: Reason :: Metered(limit) ==> UsagePart(limit, usage) <= Allowed(limit, budget)
  {
    if forall limit: Reason :: Metered(limit) ==> UsagePart(limit, usage) <= Allowed(limit, budget) {
      assert UsagePart(Output, usage) <= Allowed(Output, budget);
      assert UsagePart(Duration, usage) <= Allowed(Duration, budget);
      assert UsagePart(InputTokens, usage) <= Allowed(InputTokens, budget);
      assert UsagePart(OutputTokens, usage) <= Allowed(OutputTokens, budget);
      assert UsagePart(Cost, usage) <= Allowed(Cost, budget);
    }
  }

  /** A revised budget lowers no limit and raises at least one. */
  lemma HigherExactly(next: Budget, prior: Budget)
    ensures StrictlyHigher(next, prior) <==>
              && (forall limit: Reason :: Allowed(limit, prior) <= Allowed(limit, next))
              && prior.maxOptionsPerQuestion <= next.maxOptionsPerQuestion
              && (prior.maxOptionsPerQuestion < next.maxOptionsPerQuestion
                  || exists limit: Reason :: Allowed(limit, prior) < Allowed(limit, next))
  {
    if forall limit: Reason :: Allowed(limit, prior) <= Allowed(limit, next) {
      assert Allowed(Rounds, prior) <= Allowed(Rounds, next);
      assert Allowed(Observations, prior) <= Allowed(Observations, next);
      assert Allowed(Questions, prior) <= Allowed(Questions, next);
      assert Allowed(Options, prior) <= Allowed(Options, next);
      assert Allowed(Output, prior) <= Allowed(Output, next);
      assert Allowed(Duration, prior) <= Allowed(Duration, next);
      assert Allowed(InputTokens, prior) <= Allowed(InputTokens, next);
      assert Allowed(OutputTokens, prior) <= Allowed(OutputTokens, next);
      assert Allowed(Cost, prior) <= Allowed(Cost, next);
    }
  }

  /** Something is left for a further invocation exactly when no metered limit is used up; the cost may just be. */
  lemma RemainingExactly(budget: Budget, consumed: Usage)
    ensures Remaining(budget, consumed).Some? <==>
              && (forall limit: Reason :: Metered(limit) && limit != Cost ==>
                    UsagePart(limit, consumed) < Allowed(limit, budget))
              && UsagePart(Cost, consumed) <= Allowed(Cost, budget)
  {
    if forall limit: Reason :: Metered(limit) && limit != Cost ==> UsagePart(limit, consumed) < Allowed(limit, budget) {
      assert UsagePart(Output, consumed) < Allowed(Output, budget);
      assert UsagePart(Duration, consumed) < Allowed(Duration, budget);
      assert UsagePart(InputTokens, consumed) < Allowed(InputTokens, budget);
      assert UsagePart(OutputTokens, consumed) < Allowed(OutputTokens, budget);
    }
  }

  // ---------- What the stream says ----------

  /** The budget in force: that of the start, or of the latest revision. */
  function InForce(a: seq<Event>): Option<Budget> {
    if a == [] then None
    else
      var last := a[|a| - 1].payload;
      if last.Started? || last.BudgetRevised? then Some(last.budget) else InForce(a[..|a| - 1])
  }

  /** The answers recorded, in order. */
  function AnswersOf(a: seq<Event>): seq<Answer> {
    if a == [] then []
    else AnswersOf(a[..|a| - 1]) + (if a[|a| - 1].payload.Revised? then [a[|a| - 1].payload.answer] else [])
  }

  lemma AdvanceParts(r: Id, st: AnalysisState, prior: Option<Id>, e: Event, at: nat)
    requires Advance(r, st, prior, e, at).Some?
    ensures var st' := Advance(r, st, prior, e, at).value;
      && st'.observed == (if e.payload.Observed? then st.observed + [e] else st.observed)
      && st'.answers == (if e.payload.Revised? then st.answers + [e.payload.answer] else st.answers)
      && st'.budget == (if e.payload.Started? || e.payload.BudgetRevised? then Some(e.payload.budget) else st.budget)
  {
  }

  lemma {:induction false} StateShows(r: Id, a: seq<Event>)
    requires AnalysisAfter(r, a).Some?
    ensures AnalysisAfter(r, a).value.observed == RoundsOf(a) && AnalysisAfter(r, a).value.budget == InForce(a)
    ensures AnalysisAfter(r, a).value.answers == AnswersOf(a)
  {
    hide Advance;
    if a != [] {
      var front := a[..|a| - 1];
      StateShows(r, front);
      AdvanceParts(r, AnalysisAfter(r, front).value, LastId(front), a[|a| - 1], |front|);
    }
  }

  /** Nothing keeps the next round waiting: the latest one asks nothing material, there is an answer to every round,
    * or the latest answer is to the latest round. */
  predicate NothingOpen(a: seq<Event>) {
    var rounds, answers := RoundsOf(a), AnswersOf(a);
    || rounds == [] || |answers| >= |rounds|
    || (forall u :: u in rounds[|rounds| - 1].payload.uncertainties ==> !u.material)
    || (answers != [] && answers[|answers| - 1].decision.QuestionnaireEvidence?
        && answers[|answers| - 1].decision.round == |rounds|)
  }

  // ---------- Reservations and exhaustions ----------

  /** A reservation is for the next round, with nothing open, and within the budget it carries on every count. */
  predicate ReservedWithin(before: seq<Event>, e: Payload)
    requires e.Reserved?
  {
    && Some(e.budget) == InForce(before) && NothingOpen(before)
    && e.round == |RoundsOf(before)| + 1 <= e.budget.maxRounds
    && (forall limit: Reason :: limit != Options ==> Used(limit, RoundsOf(before)) <= Allowed(limit, e.budget))
    && (forall i :: 0 <= i < |RoundsOf(before)| ==> !Unanswerable(RoundsOf(before)[i].payload.uncertainties, e.budget))
  }

  /** An exhaustion names the first limit that the rounds have reached, and its evidence is what they used. */
  predicate ExhaustedBy(before: seq<Event>, e: Payload, invoking: bool)
    requires e.Exhausted?
  {
    && InForce(before).Some? && e.round == |RoundsOf(before)|
    && FirstReached(e.reason, RoundsOf(before), InForce(before).value, invoking)
    && e.evidence.ExhaustionEvidence? && e.evidence.reason == e.reason && e.evidence.budget == InForce(before).value
    && e.evidence.usage.outputBytes == Used(Output, RoundsOf(before))
    && e.evidence.usage.durationMs == Used(Duration, RoundsOf(before))
    && e.evidence.usage.inputTokens == Used(InputTokens, RoundsOf(before))
    && e.evidence.usage.outputTokens == Used(OutputTokens, RoundsOf(before))
    && e.evidence.usage.costUsdNano == Used(Cost, RoundsOf(before))
  }

  predicate BoundedAt(a: seq<Event>, n: nat)
    requires n < |a|
  {
    && (a[n].payload.Reserved? ==> ReservedWithin(a[..n], a[n].payload))
    && (a[n].payload.Exhausted? ==> exists invoking :: ExhaustedBy(a[..n], a[n].payload, invoking))
  }

  predicate Bounded(a: seq<Event>) {
    forall n :: 0 <= n < |a| ==> BoundedAt(a, n)
  }

  lemma BoundedSnoc(a: seq<Event>, e: Event)
    requires Bounded(a)
    requires e.payload.Reserved? ==> ReservedWithin(a, e.payload)
    requires e.payload.Exhausted? ==> exists invoking :: ExhaustedBy(a, e.payload, invoking)
    ensures Bounded(a + [e])
  {
    hide ReservedWithin, ExhaustedBy;
    var longer := a + [e];
    forall n | 0 <= n < |longer| ensures BoundedAt(longer, n) {
      assert longer[..n] == a[..n];
      assert n == |a| ==> a[..n] == a;
      assert n < |a| ==> longer[n] == a[n] && BoundedAt(a, n);
    }
  }

  lemma ReserveLeavesNothingOpen(v: Streams, t: Streams, op: Op)
    requires op.Reserve? && Guard(v, t, op)
    ensures NothingOpen(Analysis(v, op.runId))
  {
    StateShows(op.runId, Analysis(v, op.runId));
    hide AnalysisAfter, LedgerAfter, SumUsage, Remaining, BudgetReason, RoundsOf, AnswersOf;
  }

  lemma ReserveIsBounded(v: Streams, t: Streams, op: Op)
    requires op.Reserve? && Guard(v, t, op)
    ensures var e := Plan(v, t, op)[0].events[0].payload;
      e.Reserved? && ReservedWithin(Analysis(v, op.runId), e)
  {
    var a := Analysis(v, op.runId);
    var st := StateAt(v, op.runId).value;
    StateShows(op.runId, a);
    ReasonIsFirstReached(RoundsOf(a), st.budget.value, true);
    ReserveLeavesNothingOpen(v, t, op);
    hide NothingOpen, AnswersOf, AnalysisAfter, LedgerAfter, SumUsage, Remaining, LatestAnswered, BudgetReason, Used,
         RoundsOf, InForce, Unanswerable;
    ReachedParts(RoundsOf(a), st.budget.value);
  }

  lemma UnreachedIsWithin(limit: Reason, rounds: seq<Event>, budget: Budget)
    requires AllObserved(rounds) && limit != Options && !Reached(limit, rounds, budget, true)
    ensures Used(limit, rounds) <= Allowed(limit, budget)
  {
    SumPerField(rounds);
    hide Used, SumUsage, CountObservations, CountQuestions, Unanswerable;
  }

  lemma ReachedParts(rounds: seq<Event>, budget: Budget)
    requires AllObserved(rounds) && forall limit: Reason :: !Reached(limit, rounds, budget, true)
    ensures |rounds| < budget.maxRounds
    ensures forall limit: Reason :: limit != Options ==> Used(limit, rounds) <= Allowed(limit, budget)
    ensures forall i :: 0 <= i < |rounds| ==> !Unanswerable(rounds[i].payload.uncertainties, budget)
  {
    forall limit: Reason | limit != Options ensures Used(limit, rounds) <= Allowed(limit, budget) {
      assert !Reached(limit, rounds, budget, true);
      UnreachedIsWithin(limit, rounds, budget);
    }
    assert !Reached(Rounds, rounds, budget, true) && !Reached(Options, rounds, budget, true);
    hide Used, Allowed, Unanswerable;
  }

  lemma ExhaustIsBounded(v: Streams, t: Streams, op: Op)
    requires op.Exhaust? && Guard(v, t, op)
    ensures var e := OwnEvent(v, t, StateAt(v, op.runId).value, op).payload;
      e.Exhausted? && ExhaustedBy(Analysis(v, op.runId), e, !op.afterObservation)
  {
    var a := Analysis(v, op.runId);
    var st := StateAt(v, op.runId).value;
    StateShows(op.runId, a);
    ReasonIsFirstReached(RoundsOf(a), st.budget.value, !op.afterObservation);
    SumPerField(RoundsOf(a));
    hide AnalysisAfter, LedgerAfter, SumUsage, LatestAnswered, BudgetReason, Used, RoundsOf, InForce, Unanswerable,
         FirstReached;
  }

  lemma OtherEvents(v: Streams, t: Streams, op: Op)
    requires AnalysisOp(op) && !op.Reserve? && !op.Exhaust? && Guard(v, t, op)
    ensures var e := OwnEvent(v, t, StateAt(v, op.runId).value, op).payload;
      !e.Reserved? && !e.Exhausted?
  {
    hide AnalysisAfter, LedgerAfter, BudgetReason, RevisionReady, BudgetRevisionReady, OwnQuestion;
  }

  lemma StepIsBounded(t: Streams, s: Streams, s': Streams, v: Streams, op: Op, r: Id)
    requires Step(t, s, s', v, op) && Bounded(Analysis(s, r))
    ensures Bounded(Analysis(s', r))
  {
    hide AnalysisAfter, LedgerAfter, Plan, Guard, Step, AnalysisEvent, ReservedWithin, ExhaustedBy, Bounded, StaleView;
    if !AnalysisOp(op) {
      OtherOpsAreSilent(t, s, s', v, op, r);
    } else {
      OpCommits(t, s, s', v, op);
      if op.runId == r {
        OwnStepIsBounded(t, s, s', v, op);
      }
    }
  }

  lemma OwnStepIsBounded(t: Streams, s: Streams, s': Streams, v: Streams, op: Op)
    requires AnalysisOp(op) && Step(t, s, s', v, op) && Bounded(Analysis(s, op.runId))
    ensures Bounded(Analysis(s', op.runId))
  {
    hide AnalysisAfter, LedgerAfter, Plan, AnalysisEvent, AnalysisGuard, ReservedWithin, ExhaustedBy, Bounded,
         StaleView,
         Accepts, Applied, NewIds;
    OpCommits(t, s, s', v, op);
    if op.Reserve? {
      ReserveIsBounded(v, t, op);
    } else {
      PlanShapeUncharged(v, t, op);
      if op.Exhaust? {
        ExhaustIsBounded(v, t, op);
      } else {
        OtherEvents(v, t, op);
      }
    }
    var a := Analysis(s, op.runId);
    BoundedSnoc(a, Stored(AnalysisStream(op.runId), |a|, Plan(v, t, op)[0].events[0]));
  }

  /** In every journal of every run each reservation is for the next round and within its budget, and each recorded
    * exhaustion names the first limit that was reached. */
  lemma {:induction false} RunIsBounded(run: seq<Streams>, i: nat, r: Id)
    requires Run(run) && i < |run|
    ensures Bounded(Analysis(run[i], r))
  {
    hide Step;
    if i > 0 {
      hide Bounded;
      RunIsBounded(run, i - 1, r);
      assert Next(run, i);
      var v, op :| StepFrom(run, i, v, op);
      var k :| 0 <= k < i && Step(run[k], run[i - 1], run[i], v, op);
      StepIsBounded(run[k], run[i - 1], run[i], v, op, r);
    }
  }

  // ---------- What an invocation is granted ----------

  /** What the ledger has charged. */
  function Charged(limit: Reason, b: seq<Event>): nat {
    if b == [] then 0
    else Charged(limit, b[..|b| - 1]) +
         (if b[|b| - 1].payload.BudgetCharged? then UsagePart(limit, b[|b| - 1].payload.usage) else 0)
  }

  lemma {:induction false} LedgerShows(r: Id, b: seq<Event>)
    requires LedgerAfter(r, b).Some?
    ensures forall limit: Reason :: UsagePart(limit, LedgerAfter(r, b).value.consumed) == Charged(limit, b)
  {
    if b != [] {
      LedgerShows(r, b[..|b| - 1]);
    }
  }

  /** The limits of an invocation are exactly what is left of the budget; only the cost may have run out. */
  predicate GrantedRest(before: seq<Event>, limits: Limits, budget: Budget) {
    && limits.outputBytes > 0 && Charged(Output, before) + limits.outputBytes == budget.maxOutputBytes
    && limits.durationMs > 0 && Charged(Duration, before) + limits.durationMs == budget.maxDurationMs
    && limits.inputTokens > 0 && Charged(InputTokens, before) + limits.inputTokens == budget.maxInputTokens
    && limits.outputTokens > 0 && Charged(OutputTokens, before) + limits.outputTokens == budget.maxOutputTokens
    && Charged(Cost, before) + limits.costUsdNano == budget.maxCostUsdNano
  }

  /** The reservation of the analysis that this entry of the ledger belongs to. */
  predicate GrantedFor(a: seq<Event>, n: nat, before: seq<Event>, e: Payload)
    requires e.BudgetReserved?
  {
    && n < |a| && a[n].payload.Reserved? && a[n].eventId == e.analysisEventId && a[n].payload.round == e.round
    && GrantedRest(before, e.limits, a[n].payload.budget)
  }

  ghost predicate Granted(a: seq<Event>, b: seq<Event>) {
    forall m :: 0 <= m < |b| && b[m].payload.BudgetReserved? ==> exists n :: GrantedFor(a, n, b[..m], b[m].payload)
  }

  lemma GrantedSnoc(a: seq<Event>, b: seq<Event>, a': seq<Event>, added: seq<Event>)
    requires Granted(a, b) && a <= a' && |added| <= 1
    requires added != [] && added[0].payload.BudgetReserved? ==> exists n :: GrantedFor(a', n, b, added[0].payload)
    ensures Granted(a', b + added)
  {
    hide GrantedRest;
    var longer := b + added;
    forall m | 0 <= m < |longer| && longer[m].payload.BudgetReserved?
      ensures exists n :: GrantedFor(a', n, longer[..m], longer[m].payload)
    {
      if m < |b| {
        assert longer[..m] == b[..m] && longer[m] == b[m];
        var n :| GrantedFor(a, n, b[..m], b[m].payload);
        assert GrantedFor(a', n, longer[..m], longer[m].payload);
      } else {
        assert longer[..m] == b && longer[m] == added[0];
      }
    }
  }

  lemma ReserveIsGranted(v: Streams, t: Streams, op: Op)
    requires op.Reserve? && Guard(v, t, op)
    ensures var ws := Plan(v, t, op);
      && ws[1].events[0].payload.BudgetReserved? && ws[0].events[0].payload.Reserved?
      && ws[1].events[0].payload.analysisEventId == ws[0].events[0].eventId
      && ws[1].events[0].payload.round == ws[0].events[0].payload.round
      && GrantedRest(Read(t, BudgetStream(op.runId)), ws[1].events[0].payload.limits, ws[0].events[0].payload.budget)
  {
    LedgerShows(op.runId, Read(t, BudgetStream(op.runId)));
    var consumed := LedgerAt(t, op.runId).value.consumed;
    hide AnalysisAfter, LedgerAfter, SumUsage, LatestAnswered, BudgetReason, Charged;
    assert UsagePart(Output, consumed) == consumed.outputBytes && UsagePart(Duration, consumed) == consumed.durationMs;
    assert UsagePart(InputTokens, consumed) == consumed.inputTokens;
    assert UsagePart(OutputTokens, consumed) == consumed.outputTokens
           && UsagePart(Cost, consumed) == consumed.costUsdNano;
  }

  lemma ChargeIsCharge(v: Streams, t: Streams, op: Op)
    requires Charges(op) && Guard(v, t, op)
    ensures Plan(v, t, op)[1].events[0].payload.BudgetCharged?
  {
    PlanShapeUncharged(v, t, op);
    hide AnalysisAfter, LedgerAfter, Plan, AnalysisGuard;
  }

  lemma StepIsGranted(t: Streams, s: Streams, s': Streams, v: Streams, op: Op, r: Id)
    requires Step(t, s, s', v, op) && Granted(Analysis(s, r), Read(s, BudgetStream(r)))
    ensures Granted(Analysis(s', r), Read(s', BudgetStream(r)))
  {
    hide AnalysisAfter, LedgerAfter, Plan, Guard, Step, Granted, StaleView;
    if !AnalysisOp(op) {
      OtherOpsAreSilent(t, s, s', v, op, r);
    } else {
      OpCommits(t, s, s', v, op);
      if op.runId == r {
        OwnStepIsGranted(t, s, s', v, op);
      }
    }
  }

  lemma OwnStepIsGranted(t: Streams, s: Streams, s': Streams, v: Streams, op: Op)
    requires AnalysisOp(op) && Step(t, s, s', v, op) && Granted(Analysis(s, op.runId), Read(s, BudgetStream(op.runId)))
    ensures Granted(Analysis(s', op.runId), Read(s', BudgetStream(op.runId)))
  {
    hide AnalysisAfter, LedgerAfter, Plan, AnalysisGuard, GrantedRest, Granted, StaleView, Accepts, Applied, NewIds;
    OpCommits(t, s, s', v, op);
    var r, ws := op.runId, Plan(v, t, op);
    var a, b, a' := Analysis(s, r), Read(s, BudgetStream(r)), Analysis(s', r);
    var added := if Touches(op) then [Stored(BudgetStream(r), |b|, ws[1].events[0])] else [];
    if op.Reserve? {
      ReserveIsGranted(v, t, op);
      assert GrantedFor(a', |a|, b, added[0].payload);
    } else if Charges(op) {
      ChargeIsCharge(v, t, op);
    }
    GrantedSnoc(a, b, a', added);
    assert Read(s', BudgetStream(r)) == b + added;
  }

  /** In every journal of every run an invocation is granted exactly what the ledger has left of its budget. */
  lemma {:induction false} RunIsGranted(run: seq<Streams>, i: nat, r: Id)
    requires Run(run) && i < |run|
    ensures Granted(Analysis(run[i], r), Read(run[i], BudgetStream(r)))
  {
    hide Step;
    if i > 0 {
      hide Granted;
      RunIsGranted(run, i - 1, r);
      assert Next(run, i);
      var v, op :| StepFrom(run, i, v, op);
      var k :| 0 <= k < i && Step(run[k], run[i - 1], run[i], v, op);
      StepIsGranted(run[k], run[i - 1], run[i], v, op, r);
    }
  }
}
