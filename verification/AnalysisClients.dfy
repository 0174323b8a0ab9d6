/** What an analysis client knows of the journal while others commit, and how its commits extend the run. */
module AnalysisClients {
  import opened EventJournal
  import opened Questionnaire
  import opened AnalysisModel
  import opened AnalysisSteps
  import opened AnalysisLedger

  lemma ViewTrans(v: Streams, s: Streams, t: Streams)
    requires StaleView(v, s) && StaleView(s, t)
    ensures StaleView(v, t)
  {
    forall x ensures Read(v, x) <= Read(t, x) {
      assert Read(v, x) <= Read(s, x) <= Read(t, x);
    }
  }

  lemma ViewLearns(v: Streams, s: Streams, x: StreamId)
    requires StaleView(v, s)
    ensures StaleView(v[x := Read(s, x)], s)
  {
  }

  predicate UsesLedger(op: Op) {
    Charges(op) || op.Reserve? || op.ReviseBudget?
  }

  /** The client read the ledger at some moment after it had read the analysis. */
  ghost predicate LedgerKnown(history: seq<Streams>, known: Streams, r: Id) {
    exists j :: 0 <= j < |history| && LedgerReadAt(history, j, known, r)
  }

  ghost predicate LedgerReadAt(history: seq<Streams>, j: nat, known: Streams, r: Id)
    requires j < |history|
  {
    && Read(history[j], BudgetStream(r)) == Read(known, BudgetStream(r))
    && Analysis(known, r) <= Analysis(history[j], r)
  }

  lemma LedgerStaysKnown(past: seq<Streams>, now: seq<Streams>, known: Streams, view: Streams, r: Id)
    requires LedgerKnown(past, known, r) && past <= now
    requires Analysis(view, r) == Analysis(known, r) && Read(view, BudgetStream(r)) == Read(known, BudgetStream(r))
    ensures LedgerKnown(now, view, r)
  {
    var j :| 0 <= j < |past| && LedgerReadAt(past, j, known, r);
    assert LedgerReadAt(now, j, view, r);
  }

  /** A plan looks at the journal `t` only for the ledger, if at all. */
  lemma GuardIsLocal(v: Streams, t: Streams, u: Streams, op: Op)
    requires AnalysisOp(op) && UsesLedger(op) ==> Read(t, BudgetStream(op.runId)) == Read(u, BudgetStream(op.runId))
    ensures Guard(v, t, op) == Guard(v, u, op)
    ensures Guard(v, t, op) ==> Plan(v, t, op) == Plan(v, u, op)
  {
    hide AnalysisAfter, BudgetReason, RevisionReady, Remaining, SumUsage, Decisive, Genuine, AnalysisEvent, LedgerAfter;
    if AnalysisOp(op) && StateAt(v, op.runId).Some? {
      AnalysisGuardIsLocal(v, t, u, StateAt(v, op.runId).value, op);
      hide AnalysisGuard;
    }
  }

  lemma AnalysisGuardIsLocal(v: Streams, t: Streams, u: Streams, st: AnalysisState, op: Op)
    requires AnalysisOp(op) && (UsesLedger(op) ==> Read(t, BudgetStream(op.runId)) == Read(u, BudgetStream(op.runId)))
    ensures AnalysisGuard(v, t, st, op) == AnalysisGuard(v, u, st, op)
  {
    hide AnalysisAfter, BudgetReason, RevisionReady, Remaining, SumUsage, LedgerAfter;
    assert UsesLedger(op) ==> LedgerAt(t, op.runId) == LedgerAt(u, op.runId);
  }

  ghost predicate Moment(history: seq<Streams>, t: Streams) {
    exists j :: 0 <= j < |history| && history[j] == t
  }

  lemma RunExtends(history: seq<Streams>, s': Streams, t: Streams, v: Streams, op: Op)
    requires Run(history) && Moment(history, t) && Step(t, history[|history| - 1], s', v, op)
    ensures Run(history + [s'])
  {
    hide Step;
    var n := |history|;
    var run := history + [s'];
    var k :| 0 <= k < n && history[k] == t;
    assert Step(run[k], run[n - 1], run[n], v, op);
    assert StepFrom(run, n, v, op);
    forall i | 0 < i < |run| ensures Next(run, i) {
      if i < n {
        assert Next(history, i);
        var w, o :| StepFrom(history, i, w, o);
        var j :| 0 <= j < i && Step(history[j], history[i - 1], history[i], w, o);
        assert Step(run[j], run[i - 1], run[i], w, o);
        assert StepFrom(run, i, w, o);
      }
    }
  }

  lemma {:induction false} RunGrows(history: seq<Streams>, j: nat, i: nat)
    requires Run(history) && j <= i < |history|
    ensures StaleView(history[j], history[i])
  {
    if j < i {
      NextGrows(history, i);
      hide Run, StaleView;
      RunGrows(history, j, i - 1);
      ViewTrans(history[j], history[i - 1], history[i]);
    }
  }

  lemma NextGrows(history: seq<Streams>, i: nat)
    requires Run(history) && 0 < i < |history|
    ensures StaleView(history[i - 1], history[i])
  {
    hide Step, StaleView;
    assert Next(history, i);
    var v, op :| StepFrom(history, i, v, op);
    var k :| 0 <= k < i && Step(history[k], history[i - 1], history[i], v, op);
    StepExtends(history[k], history[i - 1], history[i], v, op);
  }

  lemma StepExtends(t: Streams, s: Streams, s': Streams, v: Streams, op: Op)
    requires Step(t, s, s', v, op)
    ensures StaleView(s, s')
  {
    hide Guard, Plan;
    AppliedExtends(s, Plan(v, t, op));
  }

  // ---------- What the replays remember ----------

  /** The events a state remembers are events of its stream, of the right kinds. */
  lemma {:induction false} Remembers(r: Id, a: seq<Event>)
    requires AnalysisAfter(r, a).Some?
    ensures var st := AnalysisAfter(r, a).value;
      && (st.reservation.Some? ==> st.reservation.value in a && st.reservation.value.payload.Reserved?)
      && (st.exhaustion.Some? ==> st.exhaustion.value in a && st.exhaustion.value.payload.Exhausted?)
      && (st.reconciliation.Some? ==>
            st.reconciliation.value in a && st.reconciliation.value.payload.ReconciliationRequired?)
      && (st.started.Some? ==> st.started.value.Started?)
      && (a == [] ==> st == Fresh)
  {
    if a != [] {
      Remembers(r, a[..|a| - 1]);
    }
  }

  lemma {:induction false} RemembersRounds(r: Id, a: seq<Event>)
    requires AnalysisAfter(r, a).Some?
    ensures forall e :: e in AnalysisAfter(r, a).value.observed ==> e in a && e.payload.Observed?
  {
    if a != [] {
      RemembersRounds(r, a[..|a| - 1]);
    }
  }

  /** A pending entry of a ledger is a reservation. */
  lemma PendingIsReserved(r: Id, b: seq<Event>)
    requires LedgerAfter(r, b).Some? && LedgerAfter(r, b).value.pending.Some?
    ensures Pending(LedgerAfter(r, b).value)
  {
    if b != [] {
      LedgerAlternates(r, b, |b| - 1);
    }
  }

  lemma MaterialIsKept(us: seq<Uncertainty>)
    requires CanonicalUncertainties(us).Some?
    ensures HasMaterial(CanonicalUncertainties(us).value) <==> HasMaterial(us)
  {
    var vs := CanonicalUncertainties(us).value;
    if HasMaterial(vs) {
      var i :| 0 <= i < |vs| && vs[i].material;
      assert vs[i] in vs;
      CanonicalAsksTheSame(us, vs[i]);
      var w :| w in us && vs[i] == w.(options := vs[i].options);
      var k :| 0 <= k < |us| && us[k] == w;
    }
    if HasMaterial(us) {
      var k :| 0 <= k < |us| && us[k].material;
      assert EachSorted(us)[k] in EachSorted(us);
      SortedMembers(EachSorted(us), EachSorted(us)[k]);
      var i :| 0 <= i < |vs| && vs[i] == EachSorted(us)[k];
    }
  }

  // ---------- What a journal shows ----------

  /** Since the ledger had `n` events, `usage` was charged. */
  ghost predicate ChargedSince(s: Streams, r: Id, n: nat, usage: Usage) {
    exists k :: n <= k < |Read(s, BudgetStream(r))| && IsCharge(Read(s, BudgetStream(r))[k], usage)
  }

  predicate IsCharge(e: Event, usage: Usage) {
    e.payload.BudgetCharged? && e.payload.usage == usage
  }

  lemma ChargeRemains(s: Streams, s': Streams, r: Id, n: nat, usage: Usage)
    requires ChargedSince(s, r, n, usage) && StaleView(s, s')
    ensures ChargedSince(s', r, n, usage)
  {
    var k :| n <= k < |Read(s, BudgetStream(r))| && IsCharge(Read(s, BudgetStream(r))[k], usage);
    assert Read(s, BudgetStream(r)) <= Read(s', BudgetStream(r));
    assert IsCharge(Read(s', BudgetStream(r))[k], usage);
  }

  /** The ending of an invocation: a cancellation, or an outcome of this reservation with its usage. */
  predicate EndsAs(e: Event, outcome: Option<Outcome>, reservation: Event, usage: Usage) {
    if outcome.None? then e.payload.Cancelled?
    else
      e.payload.Terminated? && e.payload.outcome == outcome.value
      && e.payload.reservationEventId == reservation.eventId && e.payload.usage == usage
  }

  ghost predicate EndingRecorded(s: Streams, r: Id, outcome: Option<Outcome>, reservation: Event, usage: Usage) {
    exists e :: e in Analysis(s, r) && EndsAs(e, outcome, reservation, usage)
  }

  /** An invocation is left to an operator. */
  ghost predicate Unresolved(s: Streams, r: Id) {
    exists e :: e in Analysis(s, r) && e.payload.ReconciliationRequired?
  }

  /** This invocation is, with what it used. */
  ghost predicate LeftToOperator(s: Streams, r: Id, usage: Usage) {
    exists e :: e in Analysis(s, r) && LeavesToOperator(e, usage)
  }

  predicate LeavesToOperator(e: Event, usage: Usage) {
    e.payload.ReconciliationRequired? && e.payload.usage == usage
  }

  /** The uncertainty about this reservation is on record, with what is known of its effect. */
  ghost predicate UncertaintyRecorded(s: Streams, r: Id, reservation: Event, knownNoEffect: bool, usage: Usage) {
    exists e :: e in Analysis(s, r) && e.payload == ReconciliationRequired(r, reservation.eventId, knownNoEffect, usage)
  }

  lemma UncertaintyIsLeft(s: Streams, s': Streams, r: Id, reservation: Event, knownNoEffect: bool, usage: Usage)
    requires UncertaintyRecorded(s, r, reservation, knownNoEffect, usage) && StaleView(s, s')
    ensures UncertaintyRecorded(s', r, reservation, knownNoEffect, usage) && LeftToOperator(s', r, usage)
  {
    var e :| e in Analysis(s, r) && e.payload == ReconciliationRequired(r, reservation.eventId, knownNoEffect, usage);
    assert Analysis(s, r) <= Analysis(s', r);
    assert e in Analysis(s', r) && LeavesToOperator(e, usage);
  }

  lemma UnresolvedRemains(s: Streams, s': Streams, r: Id)
    requires Unresolved(s, r) && StaleView(s, s')
    ensures Unresolved(s', r)
  {
    var e :| e in Analysis(s, r) && e.payload.ReconciliationRequired?;
    assert Analysis(s, r) <= Analysis(s', r);
    assert e in Analysis(s', r);
  }

  lemma LeftIsUnresolved(s: Streams, r: Id, usage: Usage)
    requires LeftToOperator(s, r, usage)
    ensures Unresolved(s, r)
  {
  }

  /** At length `n` of the analysis, `e` is the invocation it left to an operator. */
  predicate AwaitsOperator(a: seq<Event>, r: Id, n: nat, e: Event) {
    && n <= |a| && AnalysisAfter(r, a[..n]).Some? && AnalysisAfter(r, a[..n]).value.reconciliation == Some(e)
    && e.payload.ReconciliationRequired?
  }

  /** Between two journals the operator's word settled an invocation left to him: a release, which needs one
    * known to have had no effect, charged nothing, anything else the usage recorded for it. */
  ghost predicate SettledByOperator(before: Streams, now: Streams, r: Id, release: bool) {
    exists n, e :: |Analysis(before, r)| <= n && AwaitsOperator(Analysis(now, r), r, n, e)
      && (release ==> e.payload.knownNoEffect)
      && ChargedSince(now, r, |Read(before, BudgetStream(r))|, if release then NoUsage else e.payload.usage)
  }

  lemma OperatorSettles(before: Streams, first: Streams, now: Streams, r: Id, e: Event, release: bool)
    requires StaleView(before, first) && StaleView(first, now)
    requires StateAt(first, r).Some? && StateAt(first, r).value.reconciliation == Some(e)
    requires e.payload.ReconciliationRequired? && (release ==> e.payload.knownNoEffect)
    requires ChargedSince(now, r, |Read(before, BudgetStream(r))|, if release then NoUsage else e.payload.usage)
    ensures SettledByOperator(before, now, r, release)
  {
    hide AnalysisAfter, ChargedSince;
    assert Analysis(before, r) <= Analysis(first, r) <= Analysis(now, r);
    var n := |Analysis(first, r)|;
    assert Analysis(now, r)[..n] == Analysis(first, r);
    assert AwaitsOperator(Analysis(now, r), r, n, e);
  }

  /** Since the analysis had `n` events, the request was reserved, in both streams, naming each other. */
  ghost predicate ReservedSince(s: Streams, r: Id, n: nat, request: Id) {
    exists a, k :: n <= k < |Analysis(s, r)| && Analysis(s, r)[k] == a && IsReservation(s, r, a, request)
  }

  ghost predicate IsReservation(s: Streams, r: Id, a: Event, request: Id) {
    && a.payload.Reserved? && a.payload.request == request
    && exists b :: b in Read(s, BudgetStream(r)) && NameEachOther(a, b)
  }

  lemma ReservationRemains(s: Streams, s': Streams, r: Id, n: nat, request: Id)
    requires ReservedSince(s, r, n, request) && StaleView(s, s')
    ensures ReservedSince(s', r, n, request)
  {
    var a, k :| n <= k < |Analysis(s, r)| && Analysis(s, r)[k] == a && IsReservation(s, r, a, request);
    var b :| b in Read(s, BudgetStream(r)) && NameEachOther(a, b);
    assert Analysis(s, r) <= Analysis(s', r) && Read(s, BudgetStream(r)) <= Read(s', BudgetStream(r));
    assert b in Read(s', BudgetStream(r)) && Analysis(s', r)[k] == a;
    assert IsReservation(s', r, a, request);
  }

  /** The operator has been asked what a material round leaves open. */
  ghost predicate AskedAbout(s: Streams, r: Id, round: nat) {
    exists us :: HasMaterial(us) && Read(s, DecisionStream(QuestionnaireEvidence(r, round, us))) != []
  }

  ghost predicate AskedAboutBudget(s: Streams, r: Id) {
    exists e :: e in Analysis(s, r) && e.payload.Exhausted? && Read(s, DecisionStream(e.payload.evidence)) != []
  }

  ghost predicate CompletionRecorded(s: Streams, r: Id) {
    exists e :: e in Analysis(s, r) && e.payload.Completed?
  }

  lemma CompletionRemains(s: Streams, s': Streams, r: Id)
    requires CompletionRecorded(s, r) && StaleView(s, s')
    ensures CompletionRecorded(s', r)
  {
    var e :| e in Analysis(s, r) && e.payload.Completed?;
    assert Analysis(s, r) <= Analysis(s', r);
    assert e in Analysis(s', r);
  }

  /** Nothing is appended to a completed analysis that still replays. */
  lemma CompletedIsRecorded(s: Streams, r: Id)
    requires StateAt(s, r).Some? && StateAt(s, r).value.completed
    ensures CompletionRecorded(s, r)
  {
    var a := Analysis(s, r);
    assert a[|a| - 1] in a && a[|a| - 1].payload.Completed?;
  }

  /** A start stays, and stays the same. */
  lemma {:induction false} StartStays(r: Id, a: seq<Event>, b: seq<Event>)
    requires a <= b && AnalysisAfter(r, a).Some? && AnalysisAfter(r, b).Some?
    requires AnalysisAfter(r, a).value.started.Some?
    ensures AnalysisAfter(r, b).value.started == AnalysisAfter(r, a).value.started
    ensures AnalysisAfter(r, b).value.budget.Some? || AnalysisAfter(r, a).value.budget.None?
  {
    if |a| < |b| {
      StartStays(r, a, b[..|b| - 1]);
    } else {
      assert a == b;
    }
  }

  /** An observation of a replayable stream is the round of its number. */
  lemma {:induction false} RoundIsKept(r: Id, a: seq<Event>, e: Event)
    requires AnalysisAfter(r, a).Some? && e in a && e.payload.Observed?
    ensures var observed := AnalysisAfter(r, a).value.observed;
      1 <= e.payload.round <= |observed| && observed[e.payload.round - 1] == e
  {
    var n := |a| - 1;
    if e in a[..n] {
      RoundIsKept(r, a[..n], e);
    } else {
      assert e == a[n];
    }
  }
}
