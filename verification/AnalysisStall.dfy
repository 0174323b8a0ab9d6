/** The dispatch guard compares whole usages, receipts included, and a release resets the ledger's receipt.
  * So the numeric agreement of the ledgers does not keep the guard open. */
module AnalysisStall {
  import opened EventJournal
  import opened Questionnaire
  import opened AnalysisModel
  import opened AnalysisSteps
  import opened AnalysisLedger

  /** Where the ledgers agree, the guard holds exactly when the receipts are the same. */
  lemma GuardIsTheReceipt(s: Streams, r: Id)
    requires Agree(s, r) && !StateAt(s, r).value.Closed()
    ensures LedgerAt(s, r).value.consumed == SumUsage(StateAt(s, r).value.observed) <==>
            LedgerAt(s, r).value.consumed.receipt == SumUsage(StateAt(s, r).value.observed).receipt
  {
    hide AnalysisAfter, LedgerAfter, SumUsage;
  }

  /** No round can be reserved: nothing is open and the receipts differ. */
  predicate Stalled(s: Streams, r: Id) {
    StateAt(s, r).Some? ==>
      && LedgerAt(s, r).Some? && StateAt(s, r).value.reservation.None? && LedgerAt(s, r).value.pending.None?
      && LedgerAt(s, r).value.consumed.receipt != SumUsage(StateAt(s, r).value.observed).receipt
  }

  lemma ReleaseEvent(v: Streams, t: Streams, st: AnalysisState, op: Op)
    requires op.Release? && AnalysisGuard(v, t, st, op)
    ensures var a := Analysis(v, op.runId);
      var st' := Advance(op.runId, st, LastId(a), Stored(AnalysisStream(op.runId), |a|, OwnEvent(v, t, st, op)), |a|);
      st'.Some? ==> st'.value.reservation.None? && st'.value.observed == st.observed
  {
    hide AnalysisAfter, LedgerAfter;
  }

  /** A release after a round with a receipt of its own stalls the analysis. */
  lemma ReleaseStalls(t: Streams, s: Streams, s': Streams, v: Streams, op: Op)
    requires op.Release? && Step(t, s, s', v, op) && Agree(s, op.runId)
    requires SumUsage(StateAt(s, op.runId).value.observed).receipt != NoUsage.receipt
    ensures Stalled(s', op.runId)
  {
    hide AnalysisAfter, LedgerAfter, Plan, SumUsage, Applied, AdvanceLedger, StaleView, WellKept, Advance, NewIds,
         Accepts;
    var r := op.runId;
    OpCommits(t, s, s', v, op);
    PlanShapeUncharged(v, t, op);
    var a, b, ws := Analysis(s, r), Read(s, BudgetStream(r)), Plan(v, t, op);
    AnalysisSnoc(r, a, Stored(AnalysisStream(r), |a|, ws[0].events[0]));
    LedgerSnoc(r, b, Stored(BudgetStream(r), |b|, ws[1].events[0]));
    ChargeAdvances(r, b, LedgerAt(s, r).value, NoUsage, op.id, op.ledgerId);
    ReleaseEvent(v, t, StateAt(v, r).value, op);
    hide AnalysisGuard, AnalysisEvent;
  }

  /** The events of any other operation leave rounds and reservation as they are. */
  lemma PlainKeepsRounds(v: Streams, t: Streams, st: AnalysisState, op: Op)
    requires AnalysisOp(op) && !Touches(op) && AnalysisGuard(v, t, st, op) && st.reservation.None?
    ensures var a := Analysis(v, op.runId);
      var st' := Advance(op.runId, st, LastId(a), Stored(AnalysisStream(op.runId), |a|, OwnEvent(v, t, st, op)), |a|);
      st'.Some? ==> st'.value.reservation.None? && st'.value.observed == st.observed
  {
    hide AnalysisAfter, LedgerAfter, SumUsage, BudgetReason, CanonicalUncertainties, Combined;
  }

  lemma StepKeepsStalled(t: Streams, s: Streams, s': Streams, v: Streams, op: Op, r: Id)
    requires Step(t, s, s', v, op) && Stalled(s, r)
    ensures Stalled(s', r)
    ensures !(op.Reserve? && op.runId == r)
  {
    if !AnalysisOp(op) {
      OtherOpsAreSilent(t, s, s', v, op, r);
    } else {
      OpCommits(t, s, s', v, op);
      if op.runId == r {
        OwnStepKeepsStalled(t, s, s', v, op);
      }
    }
    hide AnalysisAfter, LedgerAfter, SumUsage, Step;
  }

  lemma OwnStepKeepsStalled(t: Streams, s: Streams, s': Streams, v: Streams, op: Op)
    requires AnalysisOp(op) && Guard(v, t, op) && Stalled(s, op.runId)
    requires Analysis(v, op.runId) == Analysis(s, op.runId)
    requires Touches(op) ==> Read(t, BudgetStream(op.runId)) == Read(s, BudgetStream(op.runId))
    requires Shaped(Plan(v, t, op), op.runId, Touches(op))
    requires Commits(s, s', op.runId, Plan(v, t, op)[0].events[0],
                     if Touches(op) then Some(Plan(v, t, op)[1].events[0]) else None)
    ensures Stalled(s', op.runId) && !op.Reserve?
  {
    hide AnalysisAfter, LedgerAfter, SumUsage, Plan, BudgetReason, RevisionReady, BudgetRevisionReady;
    var r, st := op.runId, StateAt(s, op.runId).value;
    assert !Touches(op);
    PlanShapeUncharged(v, t, op);
    PlainKeepsRounds(v, t, st, op);
    var a := Analysis(s, r);
    AnalysisSnoc(r, a, Stored(AnalysisStream(r), |a|, OwnEvent(v, t, st, op)));
    hide AnalysisGuard, Advance, AnalysisEvent;
    assert Read(s', BudgetStream(r)) == Read(s, BudgetStream(r));
  }

  /** From then on, whatever anybody commits, no further round of that run is ever reserved. */
  lemma {:induction false} StalledForever(run: seq<Streams>, i: nat, j: nat, r: Id, v: Streams, op: Op)
    requires Run(run) && i < j < |run| && Stalled(run[i], r) && StepFrom(run, j, v, op)
    ensures Stalled(run[j], r) && !(op.Reserve? && op.runId == r)
  {
    hide Stalled, Step;
    if i < j - 1 {
      assert Next(run, j - 1);
      var w, o :| StepFrom(run, j - 1, w, o);
      StalledForever(run, i, j - 1, r, w, o);
    }
    var k :| 0 <= k < j && Step(run[k], run[j - 1], run[j], v, op);
    StepKeepsStalled(run[k], run[j - 1], run[j], v, op, r);
  }

  // ---------- Exactly when the guard is shut ----------

  /** The receipt of what was settled last on the analysis stream: an observed round, or a release. */
  function LastReceipt(a: seq<Event>): Id {
    if a == [] then NoUsage.receipt
    else
      var last := a[|a| - 1].payload;
      if last.Observed? then last.usage.receipt
      else if last.ReconciliationResolved? then NoUsage.receipt
      else LastReceipt(a[..|a| - 1])
  }

  /** A release followed the last observed round. */
  predicate ReleasedSince(a: seq<Event>) {
    exists i :: 0 <= i < |a| && a[i].payload.ReconciliationResolved? && forall j :: i < j < |a| ==>
      !a[j].payload.Observed?
  }

  lemma ReleasedSnoc(a: seq<Event>, e: Event)
    ensures ReleasedSince(a + [e]) <==> e.payload.ReconciliationResolved? || (ReleasedSince(a) && !e.payload.Observed?)
  {
    var longer := a + [e];
    if e.payload.ReconciliationResolved? {
      assert longer[|a|] == e;
    } else if ReleasedSince(a) && !e.payload.Observed? {
      var i :| 0 <= i < |a| && a[i].payload.ReconciliationResolved? && forall j :: i < j < |a| ==>
          !a[j].payload.Observed?;
      assert longer[i] == a[i];
    }
    if ReleasedSince(longer) {
      var i :| 0 <= i < |longer| && longer[i].payload.ReconciliationResolved?
               && forall j :: i < j < |longer| ==> !longer[j].payload.Observed?;
      assert longer[|a|] == e;
      if i < |a| {
        assert a[i] == longer[i] && forall j :: i < j < |a| ==> a[j] == longer[j];
      }
    }
  }

  lemma {:induction false} LastReceiptExactly(r: Id, a: seq<Event>)
    requires AnalysisAfter(r, a).Some?
    ensures LastReceipt(a) ==
              if ReleasedSince(a) then NoUsage.receipt else SumUsage(AnalysisAfter(r, a).value.observed).receipt
  {
    if a != [] {
      var front, e := a[..|a| - 1], a[|a| - 1];
      assert a == front + [e];
      LastReceiptExactly(r, front);
      ReleasedSnoc(front, e);
      var st := AnalysisAfter(r, front).value;
      SumSnoc(st.observed, e);
      hide AnalysisAfter, ReleasedSince, SumUsage;
      AnalysisSnoc(r, front, e);
    }
  }

  /** Until an ending the ledger shows the receipt of what was settled last. */
  predicate ShowsLast(s: Streams, r: Id) {
    StateAt(s, r).Some? && LedgerAt(s, r).Some? && !StateAt(s, r).value.Closed() ==>
      LedgerAt(s, r).value.consumed.receipt == LastReceipt(Analysis(s, r))
  }

  lemma OwnEventReceipt(v: Streams, t: Streams, st: AnalysisState, op: Op)
    requires AnalysisOp(op) && !op.Reserve? && AnalysisGuard(v, t, st, op)
    ensures var p := OwnEvent(v, t, st, op).payload;
      && (op.Observe? ==> p.Observed? && p.usage == op.usage)
      && (op.Release? ==> p.ReconciliationResolved?)
      && (op.Settle? ==> p.Cancelled? || p.Terminated?)
      && (!Charges(op) ==> !p.Observed? && !p.ReconciliationResolved?)
  {
    hide AnalysisAfter, LedgerAfter, BudgetReason, SumUsage, RevisionReady, BudgetRevisionReady, CanonicalUncertainties;
  }

  lemma LastReceiptSnoc(a: seq<Event>, e: Event)
    ensures LastReceipt(a + [e]) ==
              if e.payload.Observed? then e.payload.usage.receipt
              else if e.payload.ReconciliationResolved? then NoUsage.receipt else LastReceipt(a)
  {
    assert (a + [e])[..|a|] == a;
  }

  lemma {:induction false} BrokenSnoc(r: Id, a: seq<Event>, b: seq<Event>, e: Event)
    ensures AnalysisAfter(r, a + [e]).Some? ==> AnalysisAfter(r, a).Some?
    ensures LedgerAfter(r, b + [e]).Some? ==> LedgerAfter(r, b).Some?
  {
    assert (a + [e])[..|a|] == a && (b + [e])[..|b|] == b;
  }

  lemma ClosedAfter(r: Id, st: AnalysisState, prior: Option<Id>, e: Event, at: nat)
    requires Advance(r, st, prior, e, at).Some?
    ensures st.Closed() ==> Advance(r, st, prior, e, at).value.Closed()
    ensures e.payload.Cancelled? || e.payload.Terminated? ==> Advance(r, st, prior, e, at).value.Closed()
  {
  }

  lemma PlainShowsLast(t: Streams, s: Streams, s': Streams, v: Streams, op: Op)
    requires AnalysisOp(op) && !op.Reserve? && Step(t, s, s', v, op) && ShowsLast(s, op.runId)
    ensures ShowsLast(s', op.runId)
  {
    hide AnalysisAfter, LedgerAfter, AnalysisGuard, Plan, SumUsage, Advance, AdvanceLedger, AnalysisEvent, Applied,
         Accepts,
         NewIds, StaleView, LastReceipt, BudgetReason;
    OpCommits(t, s, s', v, op);
    PlanShapeUncharged(v, t, op);
    var r, a, b, ws := op.runId, Analysis(s, op.runId), Read(s, BudgetStream(op.runId)), Plan(v, t, op);
    var e := Stored(AnalysisStream(r), |a|, ws[0].events[0]);
    BrokenSnoc(r, a, b, e);
    LastReceiptSnoc(a, e);
    if StateAt(s', r).Some? {
      AnalysisSnoc(r, a, e);
      ClosedAfter(r, StateAt(s, r).value, LastId(a), e, |a|);
      OwnEventReceipt(v, t, StateAt(v, r).value, op);
      if Charges(op) {
        LedgerSnoc(r, b, Stored(BudgetStream(r), |b|, ws[1].events[0]));
        ChargeAdvances(r, b, LedgerAt(s, r).value, ChargedUsage(op), op.id, op.ledgerId);
      } else {
        assert Read(s', BudgetStream(r)) == b;
      }
    }
  }

  lemma ReserveShowsLast(t: Streams, s: Streams, s': Streams, v: Streams, op: Op)
    requires op.Reserve? && Step(t, s, s', v, op) && ShowsLast(s, op.runId)
    ensures ShowsLast(s', op.runId)
  {
    hide AnalysisAfter, LedgerAfter, SumUsage, Applied, Accepts, NewIds, StaleView, LastReceipt, BudgetReason,
         Remaining,
         LatestAnswered;
    OpCommits(t, s, s', v, op);
    var r, a, b, ws := op.runId, Analysis(s, op.runId), Read(s, BudgetStream(op.runId)), Plan(v, t, op);
    var e := Stored(AnalysisStream(r), |a|, ws[0].events[0]);
    LastReceiptSnoc(a, e);
    AnalysisSnoc(r, a, e);
    LedgerSnoc(r, b, Stored(BudgetStream(r), |b|, ws[1].events[0]));
  }

  lemma StepShowsLast(t: Streams, s: Streams, s': Streams, v: Streams, op: Op, r: Id)
    requires Step(t, s, s', v, op) && ShowsLast(s, r)
    ensures ShowsLast(s', r)
  {
    if !AnalysisOp(op) {
      OtherOpsAreSilent(t, s, s', v, op, r);
    } else if op.runId != r {
      OpCommits(t, s, s', v, op);
    } else if op.Reserve? {
      ReserveShowsLast(t, s, s', v, op);
    } else {
      PlainShowsLast(t, s, s', v, op);
    }
    hide AnalysisAfter, LedgerAfter, Step, LastReceipt;
  }

  lemma {:induction false} RunShowsLast(run: seq<Streams>, i: nat, r: Id)
    requires Run(run) && i < |run|
    ensures ShowsLast(run[i], r)
  {
    hide Step;
    if i > 0 {
      hide ShowsLast;
      RunShowsLast(run, i - 1, r);
      assert Next(run, i);
      var v, op :| StepFrom(run, i, v, op);
      var k :| 0 <= k < i && Step(run[k], run[i - 1], run[i], v, op);
      StepShowsLast(run[k], run[i - 1], run[i], v, op, r);
    }
  }

  /** In a timely run the guard before a reservation shuts on an analysis that has not ended if and only if a
    * release followed the last observed round and that round's receipt is not the zero one: nothing but a release
    * makes the ledger contradict the rounds. */
  lemma GuardShutExactly(run: seq<Streams>, i: nat, r: Id)
    requires TimelyRun(run) && i < |run|
    requires StateAt(run[i], r).Some? && !StateAt(run[i], r).value.Closed()
    ensures var observed := StateAt(run[i], r).value.observed;
      && LedgerAt(run[i], r).Some?
      && (LedgerAt(run[i], r).value.consumed != SumUsage(observed) <==>
            && ReleasedSince(Analysis(run[i], r))
            && observed != [] && UsageOf(observed[|observed| - 1]).receipt != NoUsage.receipt)
  {
    TimelyRunAgrees(run, i, r);
    hide TimelyRun, TimelyStep, Step, AnalysisAfter, LedgerAfter, ReleasedSince, LastReceipt;
    RunShowsLast(run, i, r);
    LastReceiptExactly(r, Analysis(run[i], r));
    GuardIsTheReceipt(run[i], r);
  }
}
