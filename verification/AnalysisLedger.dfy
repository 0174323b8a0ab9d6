/** Two-ledger agreement: the analysis stream and the shared budget ledger of a run move together. */
module AnalysisLedger {
  import opened EventJournal
  import opened Questionnaire
  import opened AnalysisModel
  import opened AnalysisSteps

  predicate NameEachOther(reserved: Event, budgeted: Event) {
    && reserved.payload.Reserved? && budgeted.payload.BudgetReserved?
    && reserved.payload.reservationId == budgeted.payload.reservationId
    && reserved.payload.budgetEventId == budgeted.eventId && budgeted.payload.analysisEventId == reserved.eventId
    && budgeted.payload.analysisVersion == reserved.streamVersion
    && budgeted.payload.round == reserved.payload.round
  }

  /** A reservation is open on both sides or on neither; open, the two name each other; and until an
    * ending the ledger has consumed exactly what the rounds have used. */
  predicate LedgersAgree(st: AnalysisState, ledger: Ledger) {
    && (st.reservation.Some? <==> ledger.pending.Some?)
    && (st.reservation.Some? ==> NameEachOther(st.reservation.value, ledger.pending.value))
    && (!st.Closed() ==> SameNumbers(ledger.consumed, SumUsage(st.observed)))
  }

  predicate WellKept(st: AnalysisState, length: nat) {
    && RoundsNumbered(st.observed)
    && (length > 0 ==> st.started.Some? || st.cancelled || st.terminal.Some?)
    && (st.started.Some? ==> st.started.value.Started? && length > 0)
    && (st.started.Some? <==> st.budget.Some?)
    && (st.exhaustion.Some? ==> st.exhaustion.value.payload.Exhausted? && st.budget.Some?)
    && (st.reservation.Some? ==>
          && st.started.Some? && st.exhaustion.None? && st.reservation.value.payload.Reserved?
          && st.reservation.value.payload.round == |st.observed| + 1
          && BudgetReason(st.observed, st.budget.value, true).None?)
  }

  predicate Agreeing(st: AnalysisState, ledger: Ledger, length: nat) {
    LedgersAgree(st, ledger) && WellKept(st, length)
  }

  predicate Agree(s: Streams, r: Id) {
    && StateAt(s, r).Some? && LedgerAt(s, r).Some?
    && Agreeing(StateAt(s, r).value, LedgerAt(s, r).value, |Analysis(s, r)|)
  }

  /** The commit finds the analysis where its client believes it to be: not ended by somebody else, an
    * observation still on its own reservation, an uncharged ending on no open reservation. Each is a
    * check on the state the client has just read. */
  predicate Timely(st: AnalysisState, op: Op) {
    && !st.Ended()
    && (op.Observe? ==> st.reservation.Some? && st.reservation.value.eventId == op.reservation.eventId)
    && (op.Close? ==> st.reservation.None?)
  }

  // ---------- What a commit does to the two streams ----------

  function Stored(x: StreamId, n: nat, e: NewEvent<Payload>): Event {
    StoredEvent(e.eventId, x, n + 1, e.payload, e.causationId, e.correlationId)
  }

  lemma StampOne(x: StreamId, n: nat, e: NewEvent<Payload>)
    ensures Stamp(x, n, [e]) == [Stored(x, n, e)]
  {
  }

  predicate Touches(op: Op) {
    Charges(op) || op.Reserve?
  }

  ghost predicate Commits(s: Streams, s': Streams, r: Id, analysis: NewEvent<Payload>,
                          budget: Option<NewEvent<Payload>>)
  {
    && Analysis(s', r) == Analysis(s, r) + [Stored(AnalysisStream(r), |Analysis(s, r)|, analysis)]
    && Read(s', BudgetStream(r)) == Read(s, BudgetStream(r)) +
         (if budget.Some? then [Stored(BudgetStream(r), |Read(s, BudgetStream(r))|, budget.value)] else [])
    && (forall q :: q != r ==>
          Analysis(s', q) == Analysis(s, q) && Read(s', BudgetStream(q)) == Read(s, BudgetStream(q)))
    && (forall d :: Read(s', DecisionStream(d)) == Read(s, DecisionStream(d)))
  }

  lemma PlanShape(v: Streams, t: Streams, op: Op)
    requires AnalysisOp(op) && Guard(v, t, op)
    ensures var ws := Plan(v, t, op);
      && |ws| > 0 && ws[0].stream == AnalysisStream(op.runId) && ws[0].expectedVersion == |Analysis(v, op.runId)|
      && |ws[0].events| == 1
      && (Touches(op) ==> |ws| > 1 && ws[1].stream == BudgetStream(op.runId)
                          && ws[1].expectedVersion == |Read(t, BudgetStream(op.runId))| && |ws[1].events| == 1)
      && (forall k :: (if Touches(op) then 2 else 1) <= k < |ws| ==> ws[k].stream == RunStream(op.runId))
  {
    hide AnalysisEvent, AnalysisGuard, AnalysisAfter, LedgerAfter;
    if !op.Reserve? {
      assert AnalysisGuard(v, t, StateAt(v, op.runId).value, op);
      PlanShapeUncharged(v, t, op);
    }
  }

  lemma PlanShapeUncharged(v: Streams, t: Streams, op: Op)
    requires AnalysisOp(op) && !op.Reserve? && Guard(v, t, op)
    ensures var ws, event := Plan(v, t, op), AnalysisEvent(v, StateAt(v, op.runId).value, op);
      && |ws| > 0 && ws[0] == AnalysisWrite(v, op.runId, op.id, event.0, event.1)
      && (Charges(op) ==>
            && LedgerAt(t, op.runId).Some? && Pending(LedgerAt(t, op.runId).value)
            && |ws| > 1 && ws[1] == ChargeWrite(t, op.runId, ChargedUsage(op), op.id, op.ledgerId))
      && (forall k :: (if Charges(op) then 2 else 1) <= k < |ws| ==> ws[k].stream == RunStream(op.runId))
  {
    hide AnalysisEvent, AnalysisAfter, LedgerAfter, BudgetReason, RevisionReady, BudgetRevisionReady;
  }

  predicate Shaped(ws: Commit, r: Id, touches: bool) {
    && |ws| > 0 && ws[0].stream == AnalysisStream(r) && |ws[0].events| == 1
    && (touches ==> |ws| > 1 && ws[1].stream == BudgetStream(r) && |ws[1].events| == 1)
    && (forall k :: (if touches then 2 else 1) <= k < |ws| ==> ws[k].stream == RunStream(r))
  }

  lemma ShapedCommits(s: Streams, ws: Commit, r: Id, touches: bool)
    requires Accepts(s, ws) && Shaped(ws, r, touches)
    ensures Commits(s, Applied(s, ws), r, ws[0].events[0], if touches then Some(ws[1].events[0]) else None)
  {
    var s' := Applied(s, ws);
    ExtendedStream(s, ws, 0);
    StampOne(AnalysisStream(r), |Analysis(s, r)|, ws[0].events[0]);
    assert ws[0].events == [ws[0].events[0]];
    if touches {
      ExtendedStream(s, ws, 1);
      StampOne(BudgetStream(r), |Read(s, BudgetStream(r))|, ws[1].events[0]);
      assert ws[1].events == [ws[1].events[0]];
    } else {
      UntouchedStream(s, ws, BudgetStream(r));
    }
    hide Applied, Stamp;
    forall q | q != r ensures Analysis(s', q) == Analysis(s, q)
           && Read(s', BudgetStream(q)) == Read(s, BudgetStream(q)) {
      UntouchedStream(s, ws, AnalysisStream(q));
      UntouchedStream(s, ws, BudgetStream(q));
    }
    forall d ensures Read(s', DecisionStream(d)) == Read(s, DecisionStream(d)) {
      UntouchedStream(s, ws, DecisionStream(d));
    }
  }

  lemma OpCommits(t: Streams, s: Streams, s': Streams, v: Streams, op: Op)
    requires AnalysisOp(op) && Step(t, s, s', v, op)
    ensures Analysis(v, op.runId) == Analysis(s, op.runId)
    ensures Touches(op) ==> Read(t, BudgetStream(op.runId)) == Read(s, BudgetStream(op.runId))
    ensures Shaped(Plan(v, t, op), op.runId, Touches(op))
    ensures Commits(s, s', op.runId, Plan(v, t, op)[0].events[0],
                    if Touches(op) then Some(Plan(v, t, op)[1].events[0]) else None)
  {
    PlanShape(v, t, op);
    var ws, r := Plan(v, t, op), op.runId;
    hide Guard, Plan, AnalysisAfter, LedgerAfter, Stamp, Applied, Commits;
    assert Read(v, AnalysisStream(r)) <= Read(s, AnalysisStream(r));
    assert Read(t, BudgetStream(r)) <= Read(s, BudgetStream(r));
    assert |Read(s, ws[0].stream)| == ws[0].expectedVersion;
    if Touches(op) {
      assert |Read(s, ws[1].stream)| == ws[1].expectedVersion;
    }
    ShapedCommits(s, ws, r, Touches(op));
  }

  /** Everything else leaves analyses and ledgers alone. */
  lemma OtherOpsAreSilent(t: Streams, s: Streams, s': Streams, v: Streams, op: Op, q: Id)
    requires !AnalysisOp(op) && Step(t, s, s', v, op)
    ensures Analysis(s', q) == Analysis(s, q) && Read(s', BudgetStream(q)) == Read(s, BudgetStream(q))
  {
    UntouchedStream(s, Plan(v, t, op), AnalysisStream(q));
    UntouchedStream(s, Plan(v, t, op), BudgetStream(q));
  }

  // ---------- Budget reasons ----------

  /** Whatever exhausts a budget after a round already forbids the next one. */
  lemma AfterImpliesBefore(observed: seq<Event>, budget: Budget)
    requires BudgetReason(observed, budget, false).Some?
    ensures BudgetReason(observed, budget, true).Some?
  {
  }

  lemma SumSnoc(observed: seq<Event>, e: Event)
    ensures SumUsage(observed + [e]) == Add(SumUsage(observed), UsageOf(e))
  {
    assert (observed + [e])[..|observed|] == observed;
  }

  // ---------- One event on each side ----------

  /** Both streams, each extended by its event, still replay and agree. */
  predicate AgreeAfter(r: Id, a: seq<Event>, b: seq<Event>, st: AnalysisState, ledger: Ledger,
                       analysis: NewEvent<Payload>,
                       budget: Option<NewEvent<Payload>>)
  {
    var st' := Advance(r, st, LastId(a), Stored(AnalysisStream(r), |a|, analysis), |a|);
    var ledger' := if budget.Some?
      then AdvanceLedger(r, ledger, LastId(b), Stored(BudgetStream(r), |b|, budget.value), |b|) else Some(ledger);
    st'.Some? && ledger'.Some? && Agreeing(st'.value, ledger'.value, |a| + 1)
  }

  lemma ReserveAgrees(v: Streams, t: Streams, op: Op)
    requires op.Reserve? && Guard(v, t, op)
    requires Agreeing(StateAt(v, op.runId).value, LedgerAt(t, op.runId).value, |Analysis(v, op.runId)|)
    ensures Timely(StateAt(v, op.runId).value, op)
    ensures AgreeAfter(op.runId, Analysis(v, op.runId), Read(t, BudgetStream(op.runId)), StateAt(v, op.runId).value,
                       LedgerAt(t, op.runId).value, Plan(v, t, op)[0].events[0], Some(Plan(v, t, op)[1].events[0]))
  {
    hide AnalysisAfter, LedgerAfter, BudgetReason, SumUsage, UnansweredMaterial, Remaining;
  }

  /** The charge of an open reservation is accepted by the ledger and adds the usage. */
  lemma ChargeAdvances(r: Id, b: seq<Event>, ledger: Ledger, usage: Usage, analysisId: Id, id: Id)
    requires LedgerAfter(r, b) == Some(ledger) && Pending(ledger)
    ensures var pending := ledger.pending.value;
      var charge := NewEvent(id, BudgetCharged(r, pending.payload.reservationId, pending.eventId, analysisId, usage),
                             Some(pending.eventId), r);
      AdvanceLedger(r, ledger, LastId(b), Stored(BudgetStream(r), |b|, charge), |b|)
        == Some(Ledger(Add(ledger.consumed, usage), None))
  {
    if |b| > 0 {
      LedgerAlternates(r, b, |b| - 1);
    }
  }

  lemma ObserveAgrees(r: Id, a: seq<Event>, st: AnalysisState, ledger: Ledger, op: Op)
    requires op.Observe? && op.runId == r && op.reservation.payload.Reserved?
    requires Agreeing(st, ledger, |a|) && Pending(ledger)
    ensures var event := NewEvent(op.id, Observed(r, op.reservation.payload.round, op.observations, op.uncertainties,
        op.usage, op.reservation.payload.source, op.reservation.eventId), Some(op.reservation.eventId), r);
      var st' := Advance(r, st, LastId(a), Stored(AnalysisStream(r), |a|, event), |a|);
      && (st'.Some? && Agreeing(st'.value, Ledger(Add(ledger.consumed, op.usage), None), |a| + 1) ==> Timely(st, op))
      && (Timely(st, op) && st.reservation.value.payload.round == op.reservation.payload.round ==>
            st'.Some? && Agreeing(st'.value, Ledger(Add(ledger.consumed, op.usage), None), |a| + 1))
  {
    hide BudgetReason, SumUsage;
    var event := NewEvent(op.id, Observed(r, op.reservation.payload.round, op.observations, op.uncertainties,
        op.usage, op.reservation.payload.source, op.reservation.eventId), Some(op.reservation.eventId), r);
    SumSnoc(st.observed, Stored(AnalysisStream(r), |a|, event));
  }

  /** The event of every operation but a reservation. */
  function OwnEvent(v: Streams, t: Streams, st: AnalysisState, op: Op): NewEvent<Payload>
    requires AnalysisOp(op) && !op.Reserve? && AnalysisGuard(v, t, st, op)
  {
    var event := AnalysisEvent(v, st, op);
    NewEvent(op.id, event.0, event.1, op.runId)
  }

  predicate PlainAgreement(v: Streams, t: Streams, st: AnalysisState, ledger: Ledger, op: Op)
    requires AnalysisOp(op) && !op.Reserve? && AnalysisGuard(v, t, st, op)
  {
    var r, a := op.runId, Analysis(v, op.runId);
    var st' := Advance(r, st, LastId(a), Stored(AnalysisStream(r), |a|, OwnEvent(v, t, st, op)), |a|);
    var ledger' := if Charges(op) then Ledger(Add(ledger.consumed, ChargedUsage(op)), None) else ledger;
    st'.Some? && Agreeing(st'.value, ledger', |a| + 1)
  }

  lemma StartAgrees(v: Streams, t: Streams, st: AnalysisState, ledger: Ledger, op: Op)
    requires op.Start? && AnalysisGuard(v, t, st, op) && Agreeing(st, ledger, |Analysis(v, op.runId)|)
    ensures PlainAgreement(v, t, st, ledger, op) <==> Timely(st, op)
  {
    hide BudgetReason, SumUsage;
  }

  lemma SettleAgrees(v: Streams, t: Streams, st: AnalysisState, ledger: Ledger, op: Op)
    requires (op.Settle? || op.Release? || op.Reconcile? || op.Close?) && AnalysisGuard(v, t, st, op)
    requires Agreeing(st, ledger, |Analysis(v, op.runId)|)
    ensures PlainAgreement(v, t, st, ledger, op) <==> Timely(st, op)
  {
    hide BudgetReason, SumUsage, AnalysisAfter, LedgerAfter;
  }

  lemma ReviseAgrees(v: Streams, t: Streams, st: AnalysisState, ledger: Ledger, op: Op)
    requires op.Revise? && AnalysisGuard(v, t, st, op) && Agreeing(st, ledger, |Analysis(v, op.runId)|)
    ensures PlainAgreement(v, t, st, ledger, op) <==> Timely(st, op)
  {
    hide BudgetReason, SumUsage, AnalysisAfter, LedgerAfter, CanonicalUncertainties, Combined, Meanings;
  }

  lemma ExhaustAgrees(v: Streams, t: Streams, st: AnalysisState, ledger: Ledger, op: Op)
    requires op.Exhaust? && AnalysisGuard(v, t, st, op) && Agreeing(st, ledger, |Analysis(v, op.runId)|)
    ensures PlainAgreement(v, t, st, ledger, op) <==> Timely(st, op)
  {
    if op.afterObservation {
      AfterImpliesBefore(st.observed, st.budget.value);
    }
    hide BudgetReason, SumUsage, AnalysisAfter, LedgerAfter;
  }

  lemma ReviseBudgetAgrees(v: Streams, t: Streams, st: AnalysisState, ledger: Ledger, op: Op)
    requires (op.ReviseBudget? || op.Complete?) && AnalysisGuard(v, t, st, op)
    requires Agreeing(st, ledger, |Analysis(v, op.runId)|)
    ensures PlainAgreement(v, t, st, ledger, op) <==> Timely(st, op)
  {
    hide BudgetReason, SumUsage, AnalysisAfter, LedgerAfter;
  }

  // ---------- Event identities ----------

  ghost predicate UniqueIds(s: Streams) {
    forall x, i, y, j :: 0 <= i < |Read(s, x)| && 0 <= j < |Read(s, y)|
           && Read(s, x)[i].eventId == Read(s, y)[j].eventId
      ==> x == y && i == j
  }

  ghost predicate FreshEvents(s: Streams, ws: Commit) {
    && (forall k, i :: 0 <= k < |ws| && 0 <= i < |ws[k].events| ==> Unused(s, ws[k].events[i].eventId))
    && (forall k, i, l, j | 0 <= k < |ws| && 0 <= i < |ws[k].events| && 0 <= l < |ws| && 0 <= j < |ws[l].events| ::
          ws[k].events[i].eventId == ws[l].events[j].eventId ==> k == l && i == j)
  }

  /** An event of the store after a commit is an event of the store before, or one of the commit's. */
  lemma Origin(s: Streams, ws: Commit, x: StreamId, i: nat) returns (k: nat)
    requires Accepts(s, ws) && i < |Read(Applied(s, ws), x)|
    ensures i < |Read(s, x)| ==> Read(Applied(s, ws), x)[i] == Read(s, x)[i]
    ensures i >= |Read(s, x)| ==>
              k < |ws| && ws[k].stream == x && i - |Read(s, x)| < |ws[k].events|
              && Read(Applied(s, ws), x)[i].eventId == ws[k].events[i - |Read(s, x)|].eventId
  {
    k := 0;
    if WritesTo(ws, x) {
      var l :| 0 <= l < |ws| && ws[l].stream == x;
      ExtendedStream(s, ws, l);
      k := l;
    } else {
      UntouchedStream(s, ws, x);
    }
  }

  lemma CommitKeepsUnique(s: Streams, ws: Commit)
    requires Accepts(s, ws) && FreshEvents(s, ws) && UniqueIds(s)
    ensures UniqueIds(Applied(s, ws))
  {
    var s' := Applied(s, ws);
    forall x, i, y, j | 0 <= i < |Read(s', x)| && 0 <= j < |Read(s', y)|
           && Read(s', x)[i].eventId == Read(s', y)[j].eventId
      ensures x == y && i == j
    {
      var k := Origin(s, ws, x, i);
      var l := Origin(s, ws, y, j);
      hide Applied, Stamp;
    }
  }

  lemma PlanIsFresh(s: Streams, v: Streams, t: Streams, op: Op)
    requires Guard(v, t, op) && NewIds(s, op)
    ensures FreshEvents(s, Plan(v, t, op))
  {
    hide AnalysisEvent, AnalysisGuard, AnalysisAfter, LedgerAfter, Unused, Remaining, BudgetReason;
    if AnalysisOp(op) && !op.Reserve? {
      WritesAreFresh(s, v, t, StateAt(v, op.runId).value, op);
      hide AnalysisWrites, FreshEvents;
    }
  }

  lemma WritesAreFresh(s: Streams, v: Streams, t: Streams, st: AnalysisState, op: Op)
    requires AnalysisOp(op) && !op.Reserve? && AnalysisGuard(v, t, st, op) && NewIds(s, op)
    ensures FreshEvents(s, AnalysisWrites(v, t, st, op))
  {
    hide AnalysisEvent, AnalysisAfter, LedgerAfter, Unused, BudgetReason, RevisionReady, BudgetRevisionReady;
  }

  lemma {:induction false} StateFromEvents(r: Id, a: seq<Event>)
    requires AnalysisAfter(r, a).Some?
    ensures AnalysisAfter(r, a).value.reservation.Some? ==> AnalysisAfter(r, a).value.reservation.value in a
    ensures forall e :: e in AnalysisAfter(r, a).value.observed ==> e in a
  {
    if a != [] {
      StateFromEvents(r, a[..|a| - 1]);
    }
  }

  // ---------- Steps ----------

  /** The reservation a client takes for its own is the open one exactly when their identities agree. */
  lemma OwnIsOpen(s: Streams, r: Id, own: Event)
    requires UniqueIds(s) && StateAt(s, r).Some? && StateAt(s, r).value.reservation.Some? && own in Analysis(s, r)
    requires StateAt(s, r).value.reservation.value.eventId == own.eventId
    ensures StateAt(s, r).value.reservation.value == own
  {
    StateFromEvents(r, Analysis(s, r));
    hide AnalysisAfter;
    var open := StateAt(s, r).value.reservation.value;
    var i :| 0 <= i < |Analysis(s, r)| && Analysis(s, r)[i] == own;
    var j :| 0 <= j < |Analysis(s, r)| && Analysis(s, r)[j] == open;
  }

  /** Whether the two sides agree after the events of `op`, decided on the state before. */
  lemma PlainAgrees(v: Streams, t: Streams, st: AnalysisState, ledger: Ledger, op: Op)
    requires AnalysisOp(op) && !op.Reserve? && AnalysisGuard(v, t, st, op)
    requires Agreeing(st, ledger, |Analysis(v, op.runId)|) && (Charges(op) ==> Pending(ledger))
    requires op.Observe? && st.reservation.Some? && st.reservation.value.eventId == op.reservation.eventId ==>
               st.reservation.value == op.reservation
    ensures PlainAgreement(v, t, st, ledger, op) <==> Timely(st, op)
  {
    hide Agreeing, AnalysisGuard, PlainAgreement, Timely, AnalysisAfter, LedgerAfter;
    match op {
      case Start(_, _, _, _, _, _, _) => StartAgrees(v, t, st, ledger, op);
      case Revise(_, _, _) => ReviseAgrees(v, t, st, ledger, op);
      case Exhaust(_, _, _) => ExhaustAgrees(v, t, st, ledger, op);
      case ReviseBudget(_, _, _) => ReviseBudgetAgrees(v, t, st, ledger, op);
      case Complete(_, _, _) => ReviseBudgetAgrees(v, t, st, ledger, op);
      case Observe(_, _, _, _, _, _, _) => ObservePlain(v, t, st, ledger, op);
      case Settle(_, _, _, _, _, _, _, _) => SettleAgrees(v, t, st, ledger, op);
      case Release(_, _, _, _) => SettleAgrees(v, t, st, ledger, op);
      case Reconcile(_, _, _, _, _) => SettleAgrees(v, t, st, ledger, op);
      case Close(_, _, _, _, _) => SettleAgrees(v, t, st, ledger, op);
    }
  }

  lemma ObservePlain(v: Streams, t: Streams, st: AnalysisState, ledger: Ledger, op: Op)
    requires op.Observe? && AnalysisGuard(v, t, st, op)
    requires Agreeing(st, ledger, |Analysis(v, op.runId)|) && Pending(ledger)
    requires st.reservation.Some? && st.reservation.value.eventId == op.reservation.eventId ==>
               st.reservation.value == op.reservation
    ensures PlainAgreement(v, t, st, ledger, op) <==> Timely(st, op)
  {
    ObserveAgrees(op.runId, Analysis(v, op.runId), st, ledger, op);
    hide Agreeing, AnalysisAfter, LedgerAfter, Advance;
  }

  lemma CommitsAgree(s: Streams, s': Streams, r: Id, analysis: NewEvent<Payload>, budget: Option<NewEvent<Payload>>)
    requires Commits(s, s', r, analysis, budget) && StateAt(s, r).Some? && LedgerAt(s, r).Some?
    ensures Agree(s', r) <==>
            AgreeAfter(r, Analysis(s, r), Read(s, BudgetStream(r)), StateAt(s, r).value, LedgerAt(s, r).value, analysis,
                       budget)
  {
    var a, b := Analysis(s, r), Read(s, BudgetStream(r));
    AnalysisSnoc(r, a, Stored(AnalysisStream(r), |a|, analysis));
    if budget.Some? {
      LedgerSnoc(r, b, Stored(BudgetStream(r), |b|, budget.value));
    } else {
      assert Read(s', BudgetStream(r)) == b;
    }
    hide AnalysisAfter, LedgerAfter, Advance, AdvanceLedger, Agreeing;
  }

  /** One commit keeps the two ledgers in agreement if and only if it is timely. */
  lemma StepAgreesExactly(t: Streams, s: Streams, s': Streams, v: Streams, op: Op)
    requires AnalysisOp(op) && Step(t, s, s', v, op) && Agree(s, op.runId) && UniqueIds(s)
    ensures StateAt(v, op.runId) == StateAt(s, op.runId)
    ensures Agree(s', op.runId) <==> Timely(StateAt(s, op.runId).value, op)
  {
    hide AnalysisAfter, LedgerAfter, Plan, Commits, AgreeAfter, Agreeing, Timely, StaleView;
    OpCommits(t, s, s', v, op);
    var ws := Plan(v, t, op);
    CommitsAgree(s, s', op.runId, ws[0].events[0], if Touches(op) then Some(ws[1].events[0]) else None);
    if op.Reserve? {
      ReserveStep(t, s, v, op);
    } else {
      PlainStep(t, s, v, op);
    }
  }

  lemma ReserveStep(t: Streams, s: Streams, v: Streams, op: Op)
    requires op.Reserve? && Guard(v, t, op) && Agree(s, op.runId)
    requires Analysis(v, op.runId) == Analysis(s, op.runId)
    requires Read(t, BudgetStream(op.runId)) == Read(s, BudgetStream(op.runId))
    requires Shaped(Plan(v, t, op), op.runId, true)
    ensures Timely(StateAt(s, op.runId).value, op)
    ensures var ws := Plan(v, t, op);
      AgreeAfter(op.runId, Analysis(s, op.runId), Read(s, BudgetStream(op.runId)), StateAt(s, op.runId).value,
                 LedgerAt(s, op.runId).value, ws[0].events[0], Some(ws[1].events[0]))
  {
    ReserveAgrees(v, t, op);
    hide AnalysisAfter, LedgerAfter, Plan, Advance, AdvanceLedger, Agreeing, Timely, AgreeAfter;
  }

  lemma PlainStep(t: Streams, s: Streams, v: Streams, op: Op)
    requires AnalysisOp(op) && !op.Reserve? && Guard(v, t, op) && Agree(s, op.runId) && UniqueIds(s)
    requires Analysis(v, op.runId) == Analysis(s, op.runId)
    requires Touches(op) ==> Read(t, BudgetStream(op.runId)) == Read(s, BudgetStream(op.runId))
    requires Shaped(Plan(v, t, op), op.runId, Touches(op))
    ensures var ws := Plan(v, t, op);
      AgreeAfter(op.runId, Analysis(s, op.runId), Read(s, BudgetStream(op.runId)), StateAt(s, op.runId).value,
                 LedgerAt(s, op.runId).value, ws[0].events[0], if Touches(op) then Some(ws[1].events[0]) else None)
      <==> Timely(StateAt(s, op.runId).value, op)
  {
    var r := op.runId;
    var st, ledger := StateAt(s, r).value, LedgerAt(s, r).value;
    PlanShapeUncharged(v, t, op);
    if op.Observe? && st.reservation.Some? && st.reservation.value.eventId == op.reservation.eventId {
      OwnIsOpen(s, r, op.reservation);
    }
    PlainAgrees(v, t, st, ledger, op);
    if Charges(op) {
      ChargeAdvances(r, Read(s, BudgetStream(r)), ledger, ChargedUsage(op), op.id, op.ledgerId);
    }
    hide AnalysisAfter, LedgerAfter, Plan, Advance, AdvanceLedger, Agreeing, Timely, AnalysisEvent;
  }

  // ---------- Runs ----------

  /** Step `i` is the commit of a client that was not overtaken. */
  ghost predicate TimelyStep(run: seq<Streams>, i: nat)
    requires 0 < i < |run|
  {
    exists v, op :: StepFrom(run, i, v, op) && (AnalysisOp(op) ==> TimelyAt(run[i - 1], op))
  }

  predicate TimelyAt(s: Streams, op: Op)
    requires AnalysisOp(op)
  {
    StateAt(s, op.runId).Some? && Timely(StateAt(s, op.runId).value, op)
  }

  ghost predicate TimelyRun(run: seq<Streams>) {
    Run(run) && forall i :: 0 < i < |run| ==> TimelyStep(run, i)
  }

  lemma StepKeepsUnique(t: Streams, s: Streams, s': Streams, v: Streams, op: Op)
    requires Step(t, s, s', v, op) && UniqueIds(s)
    ensures UniqueIds(s')
  {
    PlanIsFresh(s, v, t, op);
    hide Guard, Plan, StaleView, NewIds;
    CommitKeepsUnique(s, Plan(v, t, op));
  }

  lemma {:induction false} RunUnique(run: seq<Streams>, i: nat)
    requires Run(run) && i < |run|
    ensures UniqueIds(run[i])
  {
    hide Step;
    if i > 0 {
      hide UniqueIds;
      RunUnique(run, i - 1);
      assert Next(run, i);
      var v, op :| StepFrom(run, i, v, op);
      var j :| 0 <= j < i && Step(run[j], run[i - 1], run[i], v, op);
      StepKeepsUnique(run[j], run[i - 1], run[i], v, op);
    }
  }

  lemma SameAgree(s: Streams, s': Streams, r: Id)
    requires Agree(s, r) && Analysis(s', r) == Analysis(s, r) && Read(s', BudgetStream(r)) == Read(s, BudgetStream(r))
    ensures Agree(s', r)
  {
  }

  lemma StepAgrees(t: Streams, s: Streams, s': Streams, v: Streams, op: Op, r: Id)
    requires Step(t, s, s', v, op) && Agree(s, r) && UniqueIds(s)
    requires AnalysisOp(op) && op.runId == r ==> Timely(StateAt(s, r).value, op)
    ensures Agree(s', r)
  {
    hide AnalysisAfter, LedgerAfter, Plan, Agreeing, Timely, Guard;
    if AnalysisOp(op) {
      if op.runId == r {
        StepAgreesExactly(t, s, s', v, op);
      } else {
        OpCommits(t, s, s', v, op);
        SameAgree(s, s', r);
      }
    } else {
      OtherOpsAreSilent(t, s, s', v, op, r);
      SameAgree(s, s', r);
    }
  }

  /** Over any run of timely commits, the ledgers of every run agree in every journal. */
  lemma {:induction false} TimelyRunAgrees(run: seq<Streams>, i: nat, r: Id)
    requires TimelyRun(run) && i < |run|
    ensures Agree(run[i], r)
  {
    hide Step;
    if i > 0 {
      hide Agree, Timely, UniqueIds;
      TimelyRunAgrees(run, i - 1, r);
      RunUnique(run, i - 1);
      assert TimelyStep(run, i);
      var v, op :| StepFrom(run, i, v, op) && (AnalysisOp(op) ==> TimelyAt(run[i - 1], op));
      var j :| 0 <= j < i && Step(run[j], run[i - 1], run[i], v, op);
      AgreeHasState(run[i - 1], r);
      StepAgrees(run[j], run[i - 1], run[i], v, op, r);
    }
  }

  /** And only such runs: agreement everywhere means that no commit was overtaken. */
  lemma AgreeingRunIsTimely(run: seq<Streams>)
    requires Run(run) && forall i, r :: 0 <= i < |run| ==> Agree(run[i], r)
    ensures TimelyRun(run)
  {
    hide Agree, Timely, Step;
    forall i | 0 < i < |run| ensures TimelyStep(run, i) {
      assert Next(run, i);
      var v, op :| StepFrom(run, i, v, op);
      var j :| 0 <= j < i && Step(run[j], run[i - 1], run[i], v, op);
      if AnalysisOp(op) {
        RunUnique(run, i - 1);
        assert Agree(run[i - 1], op.runId) && Agree(run[i], op.runId);
        StepAgreesExactly(run[j], run[i - 1], run[i], v, op);
        AgreeHasState(run[i - 1], op.runId);
      }
    }
  }

  lemma AgreeHasState(s: Streams, r: Id)
    requires Agree(s, r)
    ensures StateAt(s, r).Some?
  {
  }

  /** Agreement over whole runs, exactly: it holds in every journal of a run if and only if every commit
    * of the run was timely. */
  lemma AgreementExactly(run: seq<Streams>)
    requires Run(run)
    ensures TimelyRun(run) <==> forall i, r :: 0 <= i < |run| ==> Agree(run[i], r)
  {
    hide Agree, Timely, Step, Run;
    if TimelyRun(run) {
      forall i, r | 0 <= i < |run| ensures Agree(run[i], r) {
        TimelyRunAgrees(run, i, r);
      }
    }
    if forall i, r :: 0 <= i < |run| ==> Agree(run[i], r) {
      AgreeingRunIsTimely(run);
    }
  }

  /** No reservation is charged twice, in any run at all. */
  lemma ChargedOnce(run: seq<Streams>, i: nat, r: Id, j: nat, k: nat)
    requires Run(run) && i < |run| && LedgerAt(run[i], r).Some?
    requires j < |Read(run[i], BudgetStream(r))| && Read(run[i], BudgetStream(r))[j].payload.BudgetCharged?
    requires k < |Read(run[i], BudgetStream(r))| && Read(run[i], BudgetStream(r))[k].payload.BudgetCharged?
    requires Read(run[i], BudgetStream(r))[j].payload.reservationEventId
             == Read(run[i], BudgetStream(r))[k].payload.reservationEventId
    ensures j == k
  {
    RunUnique(run, i);
    var b := Read(run[i], BudgetStream(r));
    LedgerAlternates(r, b, j);
    LedgerAlternates(r, b, k);
    hide Run, LedgerAfter;
    assert b[j - 1].eventId == b[k - 1].eventId;
  }
}
