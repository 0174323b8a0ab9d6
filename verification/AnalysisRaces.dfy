/** What happens when a commit is not timely: two clients, each following the rules, end one analysis twice. */
module AnalysisRaces {
  import opened EventJournal
  import opened Questionnaire
  import opened AnalysisModel
  import opened AnalysisSteps
  import opened AnalysisLedger
  import opened AnalysisClients

  /** A client that has just read everything commits one ending. */
  lemma EndNow(run: seq<Streams>, r: Id, op: Op) returns (s': Streams)
    requires Run(run) && op.Close? && op.runId == r && op.ending.Cancelled?
    requires Guard(run[|run| - 1], run[|run| - 1], op) && Unused(run[|run| - 1], op.id)
    ensures Run(run + [s'])
    ensures Analysis(s', r) == Analysis(run[|run| - 1], r)
              + [Stored(AnalysisStream(r), |Analysis(run[|run| - 1], r)|,
                        NewEvent(op.id, op.ending, Some(op.runEventId), r))]
    ensures forall d :: Read(s', DecisionStream(d)) == Read(run[|run| - 1], DecisionStream(d))
    ensures Read(s', BudgetStream(r)) == Read(run[|run| - 1], BudgetStream(r))
    ensures forall id :: Unused(run[|run| - 1], id) && id != op.id ==> Unused(s', id)
  {
    var s := run[|run| - 1];
    var event := NewEvent(op.id, op.ending, Some(op.runEventId), r);
    var ws := [Write(AnalysisStream(r), |Analysis(s, r)|, [event])];
    PlanOfEnding(s, op);
    s' := Applied(s, ws);
    OneWrite(s, r, event);
    hide Run, Guard, Plan, Applied, Unused;
    assert Step(s, s, s', s, op) by {
      hide AnalysisAfter;
    }
    assert Moment(run, s);
    RunExtends(run, s', s, s, op);
  }

  lemma PlanOfEnding(s: Streams, op: Op)
    requires op.Close? && op.ending.Cancelled? && Guard(s, s, op)
    ensures Plan(s, s, op) == [Write(AnalysisStream(op.runId), |Analysis(s, op.runId)|,
                                     [NewEvent(op.id, op.ending, Some(op.runEventId), op.runId)])]
    ensures Unused(s, op.id) ==> NewIds(s, op)
  {
    hide AnalysisAfter, LedgerAfter;
  }

  lemma OneWrite(s: Streams, r: Id, event: NewEvent<Payload>)
    ensures var ws := [Write(AnalysisStream(r), |Analysis(s, r)|, [event])];
      var s' := Applied(s, ws);
      && Accepts(s, ws)
      && Analysis(s', r) == Analysis(s, r) + [Stored(AnalysisStream(r), |Analysis(s, r)|, event)]
      && (forall d :: Read(s', DecisionStream(d)) == Read(s, DecisionStream(d)))
      && Read(s', BudgetStream(r)) == Read(s, BudgetStream(r))
      && (forall id :: Unused(s, id) && id != event.eventId ==> Unused(s', id))
  {
    var ws := [Write(AnalysisStream(r), |Analysis(s, r)|, [event])];
    var s' := Applied(s, ws);
    ExtendedStream(s, ws, 0);
    StampOne(AnalysisStream(r), |Analysis(s, r)|, event);
    forall x | x != AnalysisStream(r) ensures Read(s', x) == Read(s, x) {
      UntouchedStream(s, ws, x);
    }
  }

  /** In any run whose analysis `r` is live with no open reservation and has been refused its own question `d`,
    * one client may follow the run's cancellation and another, on a fresh reading, its own decision: both commits
    * are accepted, and the analysis no longer replays. */
  lemma EndedTwice(run: seq<Streams>, r: Id, d: Evidence, cancellation: Id, a: Id, b: Id) returns (longer: seq<Streams>)
    requires Run(run) && StateAt(run[|run| - 1], r).Some?
    requires var st := StateAt(run[|run| - 1], r).value; !st.Ended() && st.reservation.None?
    requires Refused(Read(run[|run| - 1], DecisionStream(d))) && OwnQuestion(run[|run| - 1], r, d)
    requires Unused(run[|run| - 1], a) && Unused(run[|run| - 1], b) && a != b
    ensures Run(longer) && run <= longer && |longer| == |run| + 2
    ensures StateAt(longer[|run|], r).Some? && StateAt(longer[|run|], r).value.cancelled
    ensures StateAt(longer[|run| + 1], r).None? && !TimelyRun(longer)
  {
    var s := run[|run| - 1];
    hide Run, Step, AnalysisAfter, LedgerAfter, Unused, OwnQuestion;
    var first := Close(r, RunCancelled, Cancelled(r, cancellation), cancellation, a);
    var s' := EndNow(run, r, first);
    AnalysisSnoc(r, Analysis(s, r), Stored(AnalysisStream(r), |Analysis(s, r)|,
                                           NewEvent(a, first.ending, Some(cancellation), r)));
    QuestionStays(s, s', r, d);
    var second := Close(r, AfterDecision(d), Cancelled(r, cancellation), cancellation, b);
    var s'' := EndNow(run + [s'], r, second);
    AnalysisSnoc(r, Analysis(s', r), Stored(AnalysisStream(r), |Analysis(s', r)|,
                                            NewEvent(b, second.ending, Some(cancellation), r)));
    longer := run + [s'] + [s''];
    NotTimely(longer, r);
  }

  /** In any run whose analysis `r` has a round behind it and the reservation of the next one open, the client of
    * that round may still follow an ending of the run: its commit is accepted, the analysis is cancelled, and the
    * ledger waits for a charge that can never come. */
  lemma EndedUnderway(run: seq<Streams>, r: Id, cancellation: Id, a: Id) returns (longer: seq<Streams>)
    requires Run(run) && Agree(run[|run| - 1], r) && Unused(run[|run| - 1], a) && StateAt(run[|run| - 1], r).Some?
    requires var st := StateAt(run[|run| - 1], r).value; !st.Ended() && st.reservation.Some? && |st.observed| > 0
    ensures Run(longer) && run <= longer && |longer| == |run| + 1 && !TimelyRun(longer)
    ensures var s' := longer[|run|];
      && StateAt(s', r).Some? && StateAt(s', r).value.cancelled && StateAt(s', r).value.reservation.None?
      && LedgerAt(s', r).Some? && LedgerAt(s', r).value.pending.Some? && !Agree(s', r)
  {
    var s := run[|run| - 1];
    OpenIsPending(s, r);
    hide Run, Step, AnalysisAfter, LedgerAfter, Unused, Agree;
    var op := Close(r, AfterObservation, Cancelled(r, cancellation), cancellation, a);
    var s' := EndNow(run, r, op);
    AnalysisSnoc(r, Analysis(s, r), Stored(AnalysisStream(r), |Analysis(s, r)|,
                                           NewEvent(a, op.ending, Some(cancellation), r)));
    longer := run + [s'];
    PendingDisagrees(longer, r);
  }

  lemma OpenIsPending(s: Streams, r: Id)
    requires Agree(s, r)
    ensures StateAt(s, r).Some? && LedgerAt(s, r).Some?
    ensures StateAt(s, r).value.reservation.Some? ==> LedgerAt(s, r).value.pending.Some?
  {
    hide WellKept, SumUsage;
  }

  lemma PendingDisagrees(run: seq<Streams>, r: Id)
    requires Run(run) && StateAt(run[|run| - 1], r).Some? && LedgerAt(run[|run| - 1], r).Some?
    requires StateAt(run[|run| - 1], r).value.reservation.None? && LedgerAt(run[|run| - 1], r).value.pending.Some?
    ensures !Agree(run[|run| - 1], r) && !TimelyRun(run)
  {
    hide WellKept, SumUsage, AnalysisAfter, LedgerAfter;
    if TimelyRun(run) {
      TimelyRunAgrees(run, |run| - 1, r);
    }
  }

  lemma QuestionStays(s: Streams, s': Streams, r: Id, d: Evidence)
    requires OwnQuestion(s, r, d) && Analysis(s, r) <= Analysis(s', r)
    ensures OwnQuestion(s', r, d)
  {
    hide WaitsAt;
    var n :| 0 <= n <= |Analysis(s, r)| && WaitsAt(Analysis(s, r)[..n], r, d);
    assert Analysis(s', r)[..n] == Analysis(s, r)[..n];
  }

  lemma NotTimely(run: seq<Streams>, r: Id)
    requires Run(run) && StateAt(run[|run| - 1], r).None?
    ensures !TimelyRun(run)
  {
    if TimelyRun(run) {
      TimelyRunAgrees(run, |run| - 1, r);
    }
  }
}
