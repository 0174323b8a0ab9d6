/** Analyses that really happen: runs from the empty journal, commit by commit. */
module AnalysisScenarios {
  import opened EventJournal
  import opened Sorting
  import opened Questionnaire
  import opened AnalysisModel
  import opened AnalysisSteps
  import opened AnalysisLedger
  import opened AnalysisClients
  import opened AnalysisVerifier
  import opened AnalysisProvenance
  import opened AnalysisAgreement
  import opened AnalysisStall
  import opened AnalysisRaces

  // ---------- One commit of a client that has just read everything ----------

  ghost predicate Below(s: Streams, n: nat) {
    forall x, i :: 0 <= i < |Read(s, x)| ==> Read(s, x)[i].eventId < n
  }

  /** What is known of the last journal of a run: the analysis, its ledger, the length of the run's stream, and
    * a bound on the event identities in use. */
  datatype Scene = Scene(st: AnalysisState, ledger: Ledger, runLength: nat, ids: nat)

  ghost predicate Shows(s: Streams, r: Id, scene: Scene) {
    && StateAt(s, r) == Some(scene.st) && LedgerAt(s, r) == Some(scene.ledger)
    && |Read(s, RunStream(r))| == scene.runLength && Below(s, scene.ids)
  }

  function Last(run: seq<Streams>): Streams
    requires |run| > 0
  {
    run[|run| - 1]
  }

  /** Identities counted upwards are new. */
  predicate Numbered(op: Op, n: nat) {
    op.id == n && (AnalysisOp(op) && Touches(op) ==> op.ledgerId == n + 1) && (op.Settle? ==> op.endsRun.None?)
  }

  lemma NumberedAreNew(s: Streams, op: Op, n: nat)
    requires Below(s, n) && Numbered(op, n)
    ensures NewIds(s, op)
  {
  }

  lemma StepNow(run: seq<Streams>, op: Op) returns (longer: seq<Streams>)
    requires |run| > 0 && Run(run) && Guard(Last(run), Last(run), op) && NewIds(Last(run), op)
    requires Accepts(Last(run), Plan(Last(run), Last(run), op))
    ensures longer == run + [Applied(Last(run), Plan(Last(run), Last(run), op))] && Run(longer)
    ensures Step(Last(run), Last(run), Last(longer), Last(run), op)
    ensures TimelyRun(run) && (AnalysisOp(op) ==> TimelyAt(Last(run), op)) ==> TimelyRun(longer)
  {
    hide Step, Guard, Plan, Applied, NewIds, Accepts, Run, TimelyRun, TimelyAt;
    var s := Last(run);
    var s' := Applied(s, Plan(s, s, op));
    longer := run + [s'];
    IsStep(s, op);
    assert Moment(run, s);
    RunExtends(run, s', s, s, op);
    if TimelyRun(run) && (AnalysisOp(op) ==> TimelyAt(s, op)) {
      TimelySnoc(run, s', op);
    }
  }

  lemma IsStep(s: Streams, op: Op)
    requires Guard(s, s, op) && NewIds(s, op) && Accepts(s, Plan(s, s, op))
    ensures Step(s, s, Applied(s, Plan(s, s, op)), s, op)
  {
    hide Guard, Plan, Applied, NewIds, Accepts;
  }

  lemma TimelySnoc(run: seq<Streams>, s': Streams, op: Op)
    requires |run| > 0 && TimelyRun(run) && Run(run + [s']) && Step(Last(run), Last(run), s', Last(run), op)
    requires AnalysisOp(op) ==> TimelyAt(Last(run), op)
    ensures TimelyRun(run + [s'])
  {
    hide Step, Run, TimelyAt;
    var longer, n := run + [s'], |run|;
    assert Step(longer[n - 1], longer[n - 1], longer[n], Last(run), op);
    assert StepFrom(longer, n, Last(run), op);
    forall i | 0 < i < |longer| ensures TimelyStep(longer, i) {
      if i < n {
        assert TimelyStep(run, i);
        var v, o :| StepFrom(run, i, v, o) && (AnalysisOp(o) ==> TimelyAt(run[i - 1], o));
        var j :| 0 <= j < i && Step(run[j], run[i - 1], run[i], v, o);
        assert Step(longer[j], longer[i - 1], longer[i], v, o);
        assert StepFrom(longer, i, v, o);
      }
    }
  }

  lemma BelowAfter(s: Streams, ws: Commit, n: nat, m: nat)
    requires Accepts(s, ws) && Below(s, n) && n <= m
    requires forall k, i :: 0 <= k < |ws| && 0 <= i < |ws[k].events| ==> ws[k].events[i].eventId < m
    ensures Below(Applied(s, ws), m)
  {
    hide Applied;
    var s' := Applied(s, ws);
    forall x, i | 0 <= i < |Read(s', x)| ensures Read(s', x)[i].eventId < m {
      var k := Origin(s, ws, x, i);
    }
  }

  /** The versions of the run's stream that a commit checks. */
  predicate RunVersions(op: Op, n: nat) {
    && (op.Reserve? ==> op.runVersion == n)
    && (op.Observe? ==> op.reservation.payload.Reserved? ==> op.reservation.payload.runVersion == n)
  }

  predicate PlannedNow(s: Streams, ws: Commit, r: Id, m: nat) {
    && Accepts(s, ws)
    && (forall k, i :: 0 <= k < |ws| && 0 <= i < |ws[k].events| ==> ws[k].events[i].eventId < m)
    && (forall k :: 0 <= k < |ws| && ws[k].stream == RunStream(r) ==> ws[k].events == [])
  }

  lemma ReservePlanned(s: Streams, op: Op, n: nat)
    requires op.Reserve? && Guard(s, s, op) && Numbered(op, n) && RunVersions(op, |Read(s, RunStream(op.runId))|)
    ensures PlannedNow(s, Plan(s, s, op), op.runId, n + 2)
  {
    hide AnalysisAfter, LedgerAfter, BudgetReason, Remaining, SumUsage, LatestAnswered;
    assert |Plan(s, s, op)| == 3;
  }

  lemma OtherPlanned(s: Streams, op: Op, n: nat)
    requires AnalysisOp(op) && !op.Reserve? && Guard(s, s, op) && Numbered(op, n)
    requires RunVersions(op, |Read(s, RunStream(op.runId))|)
    ensures PlannedNow(s, Plan(s, s, op), op.runId, n + 2)
  {
    PlanShapeUncharged(s, s, op);
    var ws := Plan(s, s, op);
    assert ws == AnalysisWrites(s, s, StateAt(s, op.runId).value, op);
    hide AnalysisAfter, LedgerAfter, AnalysisEvent, AnalysisGuard, Plan;
  }

  lemma RunStreamKept(s: Streams, ws: Commit, r: Id)
    requires Accepts(s, ws) && forall k :: 0 <= k < |ws| && ws[k].stream == RunStream(r) ==> ws[k].events == []
    ensures Read(Applied(s, ws), RunStream(r)) == Read(s, RunStream(r))
  {
    if k :| 0 <= k < |ws| && ws[k].stream == RunStream(r) {
      ExtendedStream(s, ws, k);
    } else {
      UntouchedStream(s, ws, RunStream(r));
    }
  }

  /** The analysis event of a commit planned on the journal itself. */
  ghost predicate Acts(s: Streams, s': Streams, op: Op) {
    && AnalysisOp(op) && Guard(s, s, op)
    && Shaped(Plan(s, s, op), op.runId, Touches(op))
    && Commits(s, s', op.runId, Plan(s, s, op)[0].events[0], if Touches(op) then Some(Plan(s, s, op)[1].events[0])
               else None)
  }

  predicate Due(s: Streams, r: Id, scene: Scene, op: Op) {
    && AnalysisOp(op) && op.runId == r && Guard(s, s, op) && Timely(scene.st, op)
    && Numbered(op, scene.ids) && RunVersions(op, scene.runLength)
  }

  lemma Extend(run: seq<Streams>, r: Id, scene: Scene, op: Op) returns (longer: seq<Streams>)
    requires |run| > 0 && TimelyRun(run) && Shows(Last(run), r, scene) && Due(Last(run), r, scene, op)
    ensures |longer| == |run| + 1 && longer[..|run|] == run && TimelyRun(longer)
    ensures Step(Last(run), Last(run), Last(longer), Last(run), op)
    ensures Below(Last(longer), scene.ids + 2) && |Read(Last(longer), RunStream(r))| == scene.runLength
  {
    var s := Last(run);
    hide AnalysisAfter, LedgerAfter, Guard, Plan, NewIds, Accepts, Applied, Step, TimelyRun, Run, Timely, Numbered,
         RunVersions, Below;
    if op.Reserve? {
      ReservePlanned(s, op, scene.ids);
    } else {
      OtherPlanned(s, op, scene.ids);
    }
    NumberedAreNew(s, op, scene.ids);
    IsRun(run);
    longer := StepNow(run, op);
    BelowAfter(s, Plan(s, s, op), scene.ids, scene.ids + 2);
    RunStreamKept(s, Plan(s, s, op), r);
  }

  /** A timely commit on the journal just read. */
  lemma Act(run: seq<Streams>, r: Id, scene: Scene, op: Op) returns (longer: seq<Streams>, next: Scene)
    requires |run| > 0 && TimelyRun(run) && Shows(Last(run), r, scene) && Due(Last(run), r, scene, op)
    ensures |longer| == |run| + 1 && longer[..|run|] == run && TimelyRun(longer) && Shows(Last(longer), r, next)
    ensures next.runLength == scene.runLength && next.ids == scene.ids + 2
    ensures Acts(Last(run), Last(longer), op) && Agree(Last(run), r)
  {
    hide *;
    longer := Extend(run, r, scene, op);
    LastAgrees(run, r);
    LastAgrees(longer, r);
    next := SceneAt(Last(longer), r, scene);
    Committed(Last(run), Last(longer), op, r, scene);
  }

  lemma LastAgrees(run: seq<Streams>, r: Id)
    requires |run| > 0 && TimelyRun(run)
    ensures Agree(Last(run), r)
  {
    hide TimelyRun, Agree;
    TimelyRunAgrees(run, |run| - 1, r);
  }

  lemma SceneAt(s: Streams, r: Id, scene: Scene) returns (next: Scene)
    requires Agree(s, r) && Below(s, scene.ids + 2) && |Read(s, RunStream(r))| == scene.runLength
    ensures Shows(s, r, next) && next.runLength == scene.runLength && next.ids == scene.ids + 2
  {
    hide AnalysisAfter, LedgerAfter, Agreeing;
    next := Scene(StateAt(s, r).value, LedgerAt(s, r).value, scene.runLength, scene.ids + 2);
  }

  lemma Committed(s: Streams, s': Streams, op: Op, r: Id, scene: Scene)
    requires Step(s, s, s', s, op) && Due(s, r, scene, op)
    ensures Acts(s, s', op)
  {
    OpCommits(s, s, s', s, op);
    hide AnalysisAfter, LedgerAfter, Guard, Plan, NewIds, Accepts, Applied, Timely, Commits;
  }

  lemma IsRun(run: seq<Streams>)
    requires TimelyRun(run)
    ensures Run(run)
  {
  }

  /** A commit elsewhere: to a decision, or to the run's own stream. */
  lemma Note(run: seq<Streams>, r: Id, scene: Scene, op: Op, w: Write<StreamId, Payload>)
    returns (longer: seq<Streams>, next: Scene)
    requires |run| > 0 && TimelyRun(run) && Shows(Last(run), r, scene) && !AnalysisOp(op) && op.id == scene.ids
    requires Guard(Last(run), Last(run), op) && Plan(Last(run), Last(run), op) == [w]
    requires |Read(Last(run), w.stream)| == w.expectedVersion && |w.events| == 1 && w.events[0].eventId == op.id
    requires w.stream.DecisionStream? || w.stream.RunStream?
    ensures |longer| == |run| + 1 && longer[..|run|] == run && TimelyRun(longer) && Shows(Last(longer), r, next)
    ensures next == Scene(scene.st, scene.ledger, |Read(Last(longer), RunStream(r))|, scene.ids + 1)
    ensures Read(Last(longer), w.stream) == Read(Last(run), w.stream)
            + [Stored(w.stream, w.expectedVersion, w.events[0])]
    ensures forall x :: x != w.stream ==> Read(Last(longer), x) == Read(Last(run), x)
  {
    hide AnalysisAfter, LedgerAfter, Guard, Plan, Applied, Step, TimelyRun, Run, Timely, Below;
    var s := Last(run);
    assert NewIds(s, op) by {
      NumberedAreNew(s, op, scene.ids);
    }
    IsRun(run);
    longer := StepNow(run, op);
    WroteOne(s, w);
    BelowAfter(s, [w], scene.ids, scene.ids + 1);
    next := Scene(scene.st, scene.ledger, |Read(Last(longer), RunStream(r))|, scene.ids + 1);
  }

  lemma WroteOne(s: Streams, w: Write<StreamId, Payload>)
    requires |Read(s, w.stream)| == w.expectedVersion && |w.events| == 1
    ensures Accepts(s, [w])
    ensures Read(Applied(s, [w]), w.stream) == Read(s, w.stream) + [Stored(w.stream, w.expectedVersion, w.events[0])]
    ensures forall x :: x != w.stream ==> Read(Applied(s, [w]), x) == Read(s, x)
  {
    ExtendedStream(s, [w], 0);
    StampOne(w.stream, w.expectedVersion, w.events[0]);
    assert w.events == [w.events[0]];
    forall x | x != w.stream ensures Read(Applied(s, [w]), x) == Read(s, x) {
      UntouchedStream(s, [w], x);
    }
  }

  // ---------- What the commits do to the scene ----------

  lemma Advanced(s: Streams, s': Streams, op: Op)
    requires Acts(s, s', op) && StateAt(s, op.runId).Some? && LedgerAt(s, op.runId).Some?
    ensures var a, b, ws := Analysis(s, op.runId), Read(s, BudgetStream(op.runId)), Plan(s, s, op);
      && StateAt(s', op.runId) == Advance(op.runId, StateAt(s, op.runId).value, LastId(a),
                                          Stored(AnalysisStream(op.runId), |a|, ws[0].events[0]), |a|)
      && LedgerAt(s', op.runId) ==
           if Touches(op) then AdvanceLedger(op.runId, LedgerAt(s, op.runId).value, LastId(b),
                                             Stored(BudgetStream(op.runId), |b|, ws[1].events[0]), |b|)
           else LedgerAt(s, op.runId)
  {
    hide AnalysisAfter, LedgerAfter, Guard, Plan, Advance, AdvanceLedger;
    var r, a, b, ws := op.runId, Analysis(s, op.runId), Read(s, BudgetStream(op.runId)), Plan(s, s, op);
    AnalysisSnoc(r, a, Stored(AnalysisStream(r), |a|, ws[0].events[0]));
    if Touches(op) {
      LedgerSnoc(r, b, Stored(BudgetStream(r), |b|, ws[1].events[0]));
    } else {
      assert Read(s', BudgetStream(r)) == b;
    }
  }

  lemma AfterReserve(s: Streams, s': Streams, op: Op, scene: Scene, next: Scene) returns (e: Event)
    requires op.Reserve? && Acts(s, s', op) && Shows(s, op.runId, scene) && Shows(s', op.runId, next)
    ensures next.st == scene.st.(reservation := Some(e)) && e in Analysis(s', op.runId)
    ensures e.payload.Reserved? && e.payload.round == |scene.st.observed| + 1 && e.payload.runVersion == op.runVersion
    ensures next.ledger.consumed == scene.ledger.consumed && Pending(next.ledger)
  {
    Advanced(s, s', op);
    var a := Analysis(s, op.runId);
    e := Stored(AnalysisStream(op.runId), |a|, Plan(s, s, op)[0].events[0]);
    assert Analysis(s', op.runId)[|a|] == e;
    hide AnalysisAfter, LedgerAfter, SumUsage, BudgetReason, Remaining, LatestAnswered, Acts;
  }

  lemma AfterCharge(s: Streams, s': Streams, op: Op, scene: Scene, next: Scene) returns (e: Event)
    requires Charges(op) && Acts(s, s', op) && Shows(s, op.runId, scene) && Shows(s', op.runId, next)
    ensures AnalysisGuard(s, s, scene.st, op)
    ensures e == Stored(AnalysisStream(op.runId), |Analysis(s, op.runId)|, OwnEvent(s, s, scene.st, op))
    ensures Analysis(s', op.runId) == Analysis(s, op.runId) + [e]
    ensures Some(next.st) == Advance(op.runId, scene.st, LastId(Analysis(s, op.runId)), e, |Analysis(s, op.runId)|)
    ensures next.ledger == Ledger(Add(scene.ledger.consumed, ChargedUsage(op)), None)
  {
    hide AnalysisAfter, LedgerAfter, Advance, AdvanceLedger, AnalysisEvent, AnalysisGuard, Plan;
    Advanced(s, s', op);
    PlanShapeUncharged(s, s, op);
    e := Stored(AnalysisStream(op.runId), |Analysis(s, op.runId)|, Plan(s, s, op)[0].events[0]);
    ChargeAdvances(op.runId, Read(s, BudgetStream(op.runId)), scene.ledger, ChargedUsage(op), op.id, op.ledgerId);
  }

  lemma AfterPlain(s: Streams, s': Streams, op: Op, scene: Scene, next: Scene) returns (e: Event)
    requires !Touches(op) && Acts(s, s', op) && Shows(s, op.runId, scene) && Shows(s', op.runId, next)
    ensures AnalysisGuard(s, s, scene.st, op)
    ensures e == Stored(AnalysisStream(op.runId), |Analysis(s, op.runId)|, OwnEvent(s, s, scene.st, op))
    ensures Analysis(s', op.runId) == Analysis(s, op.runId) + [e]
    ensures Some(next.st) == Advance(op.runId, scene.st, LastId(Analysis(s, op.runId)), e, |Analysis(s, op.runId)|)
    ensures next.ledger == scene.ledger
  {
    hide AnalysisAfter, LedgerAfter, Advance, AdvanceLedger, AnalysisEvent, AnalysisGuard, Plan;
    Advanced(s, s', op);
    PlanShapeUncharged(s, s, op);
    e := Stored(AnalysisStream(op.runId), |Analysis(s, op.runId)|, Plan(s, s, op)[0].events[0]);
  }

  // ---------- Opening an analysis, and its rounds ----------

  const AMPLE := Budget(9, 99, 99, 9, COMBINATION_CAP, 1000, 1000, 1000, 1000, 1000)

  function Opening(r: Id): AnalysisState {
    Fresh.(started := Some(Started(r, 1, 2, AMPLE, 1)), budget := Some(AMPLE))
  }

  /** What later journals of a scenario keep of earlier ones. */
  ghost predicate SameDecisions(s: Streams, s': Streams) {
    forall d :: Read(s', DecisionStream(d)) == Read(s, DecisionStream(d))
  }

  lemma TakenIn(r: Id) returns (run: seq<Streams>, scene: Scene)
    ensures |run| == 2 && run[0] == map[] && TimelyRun(run) && Shows(Last(run), r, scene)
    ensures scene == Scene(Fresh, Ledger(NoUsage, None), 1, 1) && Analysis(Last(run), r) == []
    ensures IsIntake(Read(Last(run), RunStream(r))[0], r, 0) && SameDecisions(map[], Last(run))
  {
    var start: seq<Streams> := [map[]];
    var op := Elsewhere(r, IntakeCompleted, 0);
    run, scene := Note(start, r, Scene(Fresh, Ledger(NoUsage, None), 0, 0), op,
                       Write(RunStream(r), 0, [NewEvent(0, IntakeCompleted, None, r)]));
    assert run[..1] == start;
  }

  lemma Opened(r: Id) returns (run: seq<Streams>, scene: Scene)
    ensures |run| == 3 && run[0] == map[] && TimelyRun(run) && Shows(Last(run), r, scene)
    ensures scene == Scene(Opening(r), Ledger(NoUsage, None), 1, 3) && SameDecisions(map[], Last(run))
  {
    hide TimelyRun, Due, Guard, AnalysisGuard, AnalysisEvent, Advance, Acts, Below, AnalysisAfter, LedgerAfter,
         IsIntake;
    var taken, first := TakenIn(r);
    var op := Start(r, 1, 2, AMPLE, 1, 0, 1);
    StartIsDue(Last(taken), r, first, op);
    run, scene := Act(taken, r, first, op);
    KeepsDecisions(Last(taken), Last(run), op);
    var e := AfterPlain(Last(taken), Last(run), op, first, scene);
    StartedState(Last(taken), r, op, e);
    assert run[0] == run[..2][0];
  }

  lemma StartIsDue(s: Streams, r: Id, scene: Scene, op: Op)
    requires Shows(s, r, scene) && scene.st == Fresh && scene.ids == 1 && op == Start(r, 1, 2, AMPLE, 1, 0, 1)
    requires |Read(s, RunStream(r))| == 1 && IsIntake(Read(s, RunStream(r))[0], r, 0)
    ensures Due(s, r, scene, op)
  {
    hide LedgerAfter, Below, AnalysisAfter;
  }

  lemma StartedState(s: Streams, r: Id, op: Op, e: Event)
    requires op == Start(r, 1, 2, AMPLE, 1, 0, 1) && AnalysisGuard(s, s, Fresh, op) && Analysis(s, r) == []
    requires e == Stored(AnalysisStream(r), 0, OwnEvent(s, s, Fresh, op))
    ensures Advance(r, Fresh, None, e, 0) == Some(Opening(r))
  {
    hide LedgerAfter;
  }

  /** What the guard of a reservation asks of the scene. */
  predicate Ready(scene: Scene) {
    && Idle(scene.st) && LatestAnswered(scene.st) && scene.st.started.value.Started?
    && BudgetReason(scene.st.observed, scene.st.budget.value, true).None?
    && scene.ledger.pending.None? && scene.ledger.consumed == SumUsage(scene.st.observed)
    && Remaining(scene.st.budget.value, scene.ledger.consumed).Some?
  }

  lemma Reserving(run: seq<Streams>, r: Id, scene: Scene)
    returns (longer: seq<Streams>, next: Scene, e: Event)
    requires |run| > 0 && TimelyRun(run) && Shows(Last(run), r, scene) && Ready(scene)
    ensures |longer| == |run| + 1 && longer[..|run|] == run && TimelyRun(longer) && Shows(Last(longer), r, next)
    ensures next.runLength == scene.runLength && next.ids == scene.ids + 2 && SameDecisions(Last(run), Last(longer))
    ensures next.st == scene.st.(reservation := Some(e)) && e in Analysis(Last(longer), r)
    ensures e.payload.Reserved? && e.payload.round == |scene.st.observed| + 1 && e.payload.runVersion == scene.runLength
    ensures next.ledger.consumed == scene.ledger.consumed && Pending(next.ledger)
  {
    hide AnalysisAfter, LedgerAfter, TimelyRun, SumUsage, BudgetReason, Remaining, LatestAnswered;
    var op := Reserve(r, 5, 6, scene.runLength, scene.ids, scene.ids + 1);
    longer, next := Act(run, r, scene, op);
    e := AfterReserve(Last(run), Last(longer), op, scene, next);
  }

  lemma Observing(run: seq<Streams>, r: Id, scene: Scene, own: Event, observations: seq<Id>,
                  us: seq<Uncertainty>, usage: Usage)
    returns (longer: seq<Streams>, next: Scene, e: Event)
    requires |run| > 0 && TimelyRun(run) && Shows(Last(run), r, scene) && Live(scene.st)
    requires scene.st.reservation == Some(own) && own in Analysis(Last(run), r) && own.payload.Reserved?
    requires own.payload.round == |scene.st.observed| + 1 && own.payload.runVersion == scene.runLength
    requires Pending(scene.ledger)
    ensures |longer| == |run| + 1 && longer[..|run|] == run && TimelyRun(longer) && Shows(Last(longer), r, next)
    ensures next.runLength == scene.runLength && next.ids == scene.ids + 2 && SameDecisions(Last(run), Last(longer))
    ensures next.st == scene.st.(observed := scene.st.observed + [e], reservation := None)
    ensures next.ledger == Ledger(Add(scene.ledger.consumed, usage), None)
    ensures e.payload == Observed(r, own.payload.round, observations, us, usage, own.payload.source, own.eventId)
  {
    hide AnalysisAfter, LedgerAfter, TimelyRun, SumUsage, Due, Guard, AnalysisGuard, AnalysisEvent, Advance, Acts,
         Below;
    var op := Observe(r, own, observations, us, usage, scene.ids, scene.ids + 1);
    ObservationIsDue(Last(run), r, scene, op);
    longer, next := Act(run, r, scene, op);
    KeepsDecisions(Last(run), Last(longer), op);
    e := AfterCharge(Last(run), Last(longer), op, scene, next);
    ObservedEvent(Last(run), scene.st, op);
    AdvanceObserved(r, scene.st, LastId(Analysis(Last(run), r)), e, |Analysis(Last(run), r)|);
  }

  lemma KeepsDecisions(s: Streams, s': Streams, op: Op)
    requires Acts(s, s', op)
    ensures SameDecisions(s, s')
  {
    hide Guard, Plan;
  }

  lemma ObservationIsDue(s: Streams, r: Id, scene: Scene, op: Op)
    requires op.Observe? && op.runId == r && Shows(s, r, scene) && Live(scene.st) && Numbered(op, scene.ids)
    requires scene.st.reservation == Some(op.reservation) && OwnReservation(s, r, op.reservation)
    requires op.reservation.payload.runVersion == scene.runLength && Pending(scene.ledger)
    ensures Due(s, r, scene, op)
  {
    hide AnalysisAfter, LedgerAfter, Below;
  }

  lemma ObservedEvent(s: Streams, st: AnalysisState, op: Op)
    requires op.Observe? && AnalysisOp(op) && AnalysisGuard(s, s, st, op)
    ensures op.reservation.payload.Reserved?
    ensures var e := OwnEvent(s, s, st, op);
      && e.payload == Observed(op.runId, op.reservation.payload.round, op.observations, op.uncertainties, op.usage,
                               op.reservation.payload.source, op.reservation.eventId)
  {
    hide LedgerAfter;
  }

  lemma AdvanceObserved(r: Id, st: AnalysisState, prior: Option<Id>, e: Event, at: nat)
    requires Advance(r, st, prior, e, at).Some? && e.payload.Observed?
    ensures Advance(r, st, prior, e, at) == Some(st.(observed := st.observed + [e], reservation := None))
  {
  }

  lemma Round(run: seq<Streams>, r: Id, scene: Scene, observations: seq<Id>, us: seq<Uncertainty>, usage: Usage)
    returns (longer: seq<Streams>, next: Scene, e: Event)
    requires |run| > 0 && TimelyRun(run) && Shows(Last(run), r, scene) && Ready(scene)
    ensures |longer| == |run| + 2 && longer[..|run|] == run && TimelyRun(longer) && Shows(Last(longer), r, next)
    ensures next.runLength == scene.runLength && next.ids == scene.ids + 4 && SameDecisions(Last(run), Last(longer))
    ensures next.st == scene.st.(observed := scene.st.observed + [e])
    ensures next.ledger == Ledger(Add(scene.ledger.consumed, usage), None)
    ensures e.payload.Observed? && e.payload.round == |scene.st.observed| + 1 && e.payload.observations == observations
    ensures e.payload.uncertainties == us && e.payload.usage == usage
  {
    hide AnalysisAfter, LedgerAfter, TimelyRun, SumUsage, BudgetReason, Remaining, LatestAnswered, Shows;
    var reserved, middle, own := Reserving(run, r, scene);
    longer, next, e := Observing(reserved, r, middle, own, observations, us, usage);
    assert longer[..|run|] == longer[..|reserved|][..|run|];
  }

  // ---------- One question ----------

  const OPEN_QUESTION := Uncertainty(11, true, [Choice(12, 0), Choice(13, 0)], 12, 14, {15}, {})
  const SPENT := Usage(1, 1, 1, 1, 1, 1, 77)
  const OPERATOR := Actor(21, Operator)

  function Question(r: Id): Evidence {
    QuestionnaireEvidence(r, 1, [OPEN_QUESTION])
  }

  /** At most the one question was raised. */
  predicate Small(e: Event) {
    && e.payload.Observed? && |e.payload.observations| <= 1 && e.payload.usage == SPENT
    && (e.payload.uncertainties == [] || e.payload.uncertainties == [OPEN_QUESTION])
  }

  lemma OneRound(e: Event)
    requires e.payload.Observed?
    ensures SumUsage([e]) == Add(NoUsage, e.payload.usage)
    ensures CountObservations([e]) == |e.payload.observations| && CountQuestions([e]) == |e.payload.uncertainties|
  {
    assert [e][..0] == [];
  }

  lemma OneFits(us: seq<Uncertainty>, maxQuestions: nat, maxOptions: nat)
    requires us == [] || us == [OPEN_QUESTION]
    requires 1 <= maxQuestions && 2 <= maxOptions
    ensures Fits(us, maxQuestions, maxOptions, COMBINATION_CAP)
  {
    if us != [] {
      assert us[..0] == [];
      assert Product(us) == Product([]) * 2;
    }
  }

  lemma WithinAmple(e: Event, before: bool)
    requires Small(e)
    ensures BudgetReason([e], AMPLE, before).None?
    ensures SumUsage([e]) == SPENT && Remaining(AMPLE, SPENT).Some?
  {
    OneRound(e);
    OneFits(e.payload.uncertainties, 99, 9);
    hide SumUsage, CountObservations, CountQuestions, Fits;
    assert Add(NoUsage, SPENT) == SPENT;
    assert QuestionnairesFit([e], AMPLE);
  }

  lemma AmpleAtFirst()
    ensures BudgetReason([], AMPLE, true).None? && SumUsage([]) == NoUsage && Remaining(AMPLE, NoUsage).Some?
  {
  }

  lemma OneIsCanonical(u: Uncertainty)
    requires Ascending(OptionKey(), u.options) && Distinct(OptionKey(), u.options)
    ensures CanonicalUncertainties([u]) == Some([u])
  {
    var us := [u];
    SortedIsFixed(OptionKey(), u.options);
    SortedIsFixed(QuestionKey(), us);
    assert AllOptions(us) == u.options by {
      assert us[..0] == [];
    }
    hide Sorted, AllOptions;
    assert SortOptions(u) == u;
    assert EachSorted(us) == us;
  }

  lemma QuestionIsCanonical()
    ensures CanonicalUncertainties([OPEN_QUESTION]) == Some([OPEN_QUESTION]) && HasMaterial([OPEN_QUESTION])
  {
    hide CanonicalUncertainties;
    OneIsCanonical(OPEN_QUESTION);
    assert [OPEN_QUESTION][0].material;
  }

  lemma ReadyAtFirst(r: Id, scene: Scene)
    requires scene.st == Opening(r) && scene.ledger == Ledger(NoUsage, None)
    ensures Ready(scene)
  {
    AmpleAtFirst();
    hide SumUsage, BudgetReason, Remaining;
  }

  lemma SmallRound(e: Event, us: seq<Uncertainty>)
    requires e.payload.Observed? && |e.payload.observations| <= 1 && e.payload.usage == SPENT
    requires e.payload.uncertainties == us && (us == [] || us == [OPEN_QUESTION])
    ensures Small(e)
  {
  }

  lemma SameDecisionsTrans(s: Streams, t: Streams, u: Streams)
    requires SameDecisions(s, t) && SameDecisions(t, u)
    ensures SameDecisions(s, u)
  {
  }

  lemma FirstScene(r: Id, first: Scene, scene: Scene, e: Event)
    requires first == Scene(Opening(r), Ledger(NoUsage, None), 1, 3)
    requires scene == Scene(first.st.(observed := first.st.observed + [e]),
                            Ledger(Add(first.ledger.consumed, SPENT), None), 1, 7)
    ensures scene == Scene(Opening(r).(observed := [e]), Ledger(SPENT, None), 1, 7)
  {
    assert Add(NoUsage, SPENT) == SPENT && [] + [e] == [e];
  }

  /** Opened, and one small round observed. */
  lemma FirstRound(r: Id, observations: seq<Id>, us: seq<Uncertainty>)
    returns (run: seq<Streams>, scene: Scene, e: Event)
    requires |observations| <= 1 && (us == [] || us == [OPEN_QUESTION])
    ensures |run| == 5 && run[0] == map[] && TimelyRun(run) && Shows(Last(run), r, scene)
    ensures scene == Scene(Opening(r).(observed := [e]), Ledger(SPENT, None), 1, 7) && SameDecisions(map[], Last(run))
    ensures Small(e) && e.payload.round == 1 && e.payload.observations == observations && e.payload.uncertainties == us
  {
    hide *;
    var started, first := Opened(r);
    ReadyAtFirst(r, first);
    run, scene, e := Round(started, r, first, observations, us, SPENT);
    FirstScene(r, first, scene, e);
    SmallRound(e, us);
    SameDecisionsTrans(map[], Last(started), Last(run));
    assert run[0] == run[..3][0];
  }

  lemma OpeningIsIdle(r: Id, st: AnalysisState, observed: seq<Event>)
    requires st == Opening(r).(observed := observed, answers := st.answers)
    ensures Idle(st) && st.started.value.Started? && st.budget.value == AMPLE && st.observed == observed
    ensures Opening(r).answers == []
  {
  }

  /** A further reservation, once the first round needs no answer or has it. */
  lemma ReadyAgain(r: Id, scene: Scene, e: Event)
    requires scene.st == Opening(r).(observed := [e], answers := scene.st.answers)
    requires Small(e) && scene.ledger == Ledger(SPENT, None) && LatestAnswered(scene.st)
    ensures Ready(scene)
  {
    WithinAmple(e, true);
    OpeningIsIdle(r, scene.st, [e]);
    hide Opening, Small, Idle, SumUsage, BudgetReason, Remaining, LatestAnswered;
  }

  /** The coordinator puts the question of the round to the operator. */
  lemma Asking(run: seq<Streams>, r: Id, scene: Scene) returns (longer: seq<Streams>, next: Scene, asked: Event)
    requires |run| > 0 && TimelyRun(run) && Shows(Last(run), r, scene)
             && Read(Last(run), DecisionStream(Question(r))) == []
    ensures |longer| == |run| + 1 && longer[..|run|] == run && TimelyRun(longer) && Shows(Last(longer), r, next)
    ensures next == scene.(ids := scene.ids + 1)
    ensures Read(Last(longer), DecisionStream(Question(r))) == [asked]
    ensures asked.payload == Asked(QuestionPacket(r))
  {
    var packet := QuestionPacket(r);
    QuestionIsCanonical();
    var op := Ask(packet, scene.ids);
    var w := Write(DecisionStream(Question(r)), 0, [NewEvent(scene.ids, Asked(packet), None, r)]);
    hide TimelyRun, AnalysisAfter, LedgerAfter, CanonicalUncertainties, Combined;
    assert Genuine(packet);
    longer, next := Note(run, r, scene, op, w);
    asked := Stored(w.stream, 0, w.events[0]);
  }

  function QuestionPacket(r: Id): Packet {
    Packet(Question(r), r, [OPEN_QUESTION], Combinations(Vectors([OPEN_QUESTION])), true)
  }

  /** The decision is taken. */
  lemma Deciding(run: seq<Streams>, r: Id, scene: Scene, asked: Event, verdict: Payload)
    returns (longer: seq<Streams>, next: Scene, decided: Event)
    requires |run| > 0 && TimelyRun(run) && Shows(Last(run), r, scene)
    requires Read(Last(run), DecisionStream(Question(r))) == [asked] && asked.payload == Asked(QuestionPacket(r))
    requires verdict.Dismissed? || (verdict.Decided? && verdict.decision == Question(r) && verdict.runId == r
                                    && verdict.optionId in QuestionPacket(r).options && verdict.actor.kind == Operator)
    ensures |longer| == |run| + 1 && longer[..|run|] == run && TimelyRun(longer) && Shows(Last(longer), r, next)
    ensures next == scene.(ids := scene.ids + 1) && decided.payload == verdict
    ensures Read(Last(longer), DecisionStream(Question(r))) == [asked, decided]
    ensures Analysis(Last(longer), r) == Analysis(Last(run), r)
  {
    var op := Decide(Question(r), verdict, scene.ids);
    var w := Write(DecisionStream(Question(r)), 1, [NewEvent(scene.ids, verdict, None, r)]);
    hide TimelyRun, AnalysisAfter, LedgerAfter, Combinations;
    assert Decisive([asked], Question(r), verdict);
    longer, next := Note(run, r, scene, op, w);
    decided := Stored(w.stream, 1, w.events[0]);
  }

  /** The run ends. */
  lemma RunEnds(run: seq<Streams>, r: Id, scene: Scene) returns (longer: seq<Streams>, next: Scene)
    requires |run| > 0 && TimelyRun(run) && Shows(Last(run), r, scene)
    ensures |longer| == |run| + 1 && longer[..|run|] == run && TimelyRun(longer) && Shows(Last(longer), r, next)
    ensures next == scene.(ids := scene.ids + 1, runLength := scene.runLength + 1)
    ensures Read(Last(longer), RunStream(r))[scene.runLength].eventId == scene.ids
    ensures Read(Last(longer), RunStream(r))[scene.runLength].payload.RunTerminal?
    ensures SameDecisions(Last(run), Last(longer)) && Analysis(Last(longer), r) == Analysis(Last(run), r)
  {
    hide TimelyRun, AnalysisAfter, LedgerAfter;
    var op := Elsewhere(r, RunTerminal, scene.ids);
    longer, next := Note(run, r, scene, op, Write(RunStream(r), scene.runLength,
                                                  [NewEvent(scene.ids, RunTerminal, None, r)]));
  }

  // ---------- What really happens ----------

  lemma Completing(run: seq<Streams>, r: Id, scene: Scene, e: Event)
    returns (longer: seq<Streams>, next: Scene, last: Event)
    requires |run| > 0 && TimelyRun(run) && Shows(Last(run), r, scene) && Live(scene.st)
             && scene.st.started.value.Started?
    requires scene.st.observed == [e] && !HasMaterial(UncertaintiesOf(e))
    requires BudgetReason([e], scene.st.budget.value, false).None?
    ensures |longer| == |run| + 1 && longer[..|run|] == run && TimelyRun(longer) && Shows(Last(longer), r, next)
    ensures Analysis(Last(longer), r) == Analysis(Last(run), r) + [last] && last.payload.Completed?
    ensures next.st == scene.st.(completed := true)
  {
    hide AnalysisAfter, LedgerAfter, TimelyRun, SumUsage, BudgetReason, HasMaterial, UncertaintiesOf, Due, Guard,
         AnalysisGuard, AnalysisEvent, Advance, Acts, Below;
    var op := Complete(r, 1, scene.ids);
    CompletionIsDue(Last(run), r, scene, op);
    longer, next := Act(run, r, scene, op);
    last := AfterPlain(Last(run), Last(longer), op, scene, next);
    PlainEvent(Last(run), scene.st, op);
    AdvancePlain(r, scene.st, LastId(Analysis(Last(run), r)), last, |Analysis(Last(run), r)|);
  }

  lemma CompletionIsDue(s: Streams, r: Id, scene: Scene, op: Op)
    requires op == Complete(r, 1, scene.ids) && Shows(s, r, scene) && Live(scene.st) && |scene.st.observed| == 1
    requires scene.st.started.value.Started? && !HasMaterial(UncertaintiesOf(scene.st.observed[0]))
    requires BudgetReason(scene.st.observed, scene.st.budget.value, false).None?
    ensures Due(s, r, scene, op)
  {
    hide AnalysisAfter, LedgerAfter, BudgetReason, HasMaterial, UncertaintiesOf, Below;
  }

  lemma PlainEvent(s: Streams, st: AnalysisState, op: Op)
    requires op.Complete? || op.Reconcile? || op.Release?
    requires AnalysisGuard(s, s, st, op)
    ensures var e := OwnEvent(s, s, st, op);
      && (op.Complete? ==> e.payload.Completed?)
      && (op.Reconcile? ==>
            e.payload == ReconciliationRequired(op.runId, op.reservation.eventId, op.knownNoEffect, op.usage))
      && (op.Release? ==> e.payload.ReconciliationResolved?)
  {
    hide LedgerAfter, BudgetReason, SumUsage, CountObservations, Payloads, HasMaterial;
  }

  lemma AdvancePlain(r: Id, st: AnalysisState, prior: Option<Id>, e: Event, at: nat)
    requires Advance(r, st, prior, e, at).Some?
    ensures e.payload.Completed? ==> Advance(r, st, prior, e, at) == Some(st.(completed := true))
    ensures e.payload.ReconciliationRequired? ==> Advance(r, st, prior, e, at) == Some(st.(reconciliation := Some(e)))
    ensures e.payload.ReconciliationResolved? ==>
              Advance(r, st, prior, e, at) == Some(st.(reservation := None, reconciliation := None))
  {
  }

  /** A completion is not acceptable to the verifier where nothing was observed. */
  lemma Unacceptable(s: Streams, s': Streams, r: Id, e: Event, last: Event)
    requires StateAt(s, r).Some? && StateAt(s, r).value.observed == [e]
    requires e.payload.Observed? && e.payload.observations == []
    requires Analysis(s', r) == Analysis(s, r) + [last] && last.payload.Completed?
    ensures !AllAcceptable(r, Analysis(s', r), |Analysis(s', r)|)
  {
    hide AnalysisAfter, HasMaterial;
    var a, n := Analysis(s', r), |Analysis(s, r)|;
    assert a[..n] == Analysis(s, r) && a[n] == last;
    OneRound(e);
    assert !AcceptableAt(r, a, n);
  }

  /** A completed analysis that observed nothing: the writer completes it, and nobody can verify it. */
  lemma UnobservedIsRefused(r: Id) returns (run: seq<Streams>)
    ensures TimelyRun(run) && |run| == 6 && StateAt(Last(run), r).Some? && StateAt(Last(run), r).value.completed
    ensures var a := Analysis(Last(run), r); a != [] && a[|a| - 1].payload.Completed?
    ensures forall all :: Enumerates(all, Last(run)) ==> !Verifies(Last(run), all, r)
  {
    hide AnalysisAfter, LedgerAfter, TimelyRun, SumUsage, BudgetReason, Remaining, Opening, AllAcceptable, Enumerates,
         Verifies,
         SameDecisions;
    var observed, scene, e := FirstRound(r, [], []);
    OpeningIsIdle(r, scene.st, [e]);
    WithinAmple(e, false);
    var next, last;
    run, next, last := Completing(observed, r, scene, e);
    Unacceptable(Last(observed), Last(run), r, e, last);
    forall all | Enumerates(all, Last(run)) ensures !Verifies(Last(run), all, r) {
      WriterVerifierAgreement(run, |run| - 1, r, all);
    }
  }

  lemma QuestionOpen(s: Streams, r: Id, scene: Scene, e: Event)
    requires Shows(s, r, scene) && scene.st == Opening(r).(observed := [e]) && e.payload.Observed?
             && e.payload.round == 1
    requires e.payload.uncertainties == [OPEN_QUESTION]
    ensures OwnQuestion(s, r, Question(r)) && UnansweredMaterial(scene.st) == Some(e)
  {
    QuestionIsCanonical();
    OpeningIsIdle(r, scene.st, [e]);
    hide AnalysisAfter, LedgerAfter, CanonicalUncertainties, HasMaterial, Opening, Below;
    assert Analysis(s, r)[..|Analysis(s, r)|] == Analysis(s, r);
    assert WaitsAt(Analysis(s, r), r, Question(r));
  }

  lemma NothingDecided(s: Streams, r: Id)
    requires SameDecisions(map[], s)
    ensures Read(s, DecisionStream(Question(r))) == []
  {
  }

  lemma StaysRefused(s: Streams, s': Streams, r: Id, asked: Event, dismissed: Event)
    requires SameDecisions(s, s') && Read(s, DecisionStream(Question(r))) == [asked, dismissed]
    requires dismissed.payload.Dismissed?
    ensures Refused(Read(s', DecisionStream(Question(r))))
  {
  }

  lemma IdsUnused(s: Streams, n: nat, id: Id)
    requires Below(s, n) && n <= id
    ensures Unused(s, id)
  {
  }

  /** The broken analysis: a material round, its question asked and dismissed, the run cancelled, and two
    * endings. */
  lemma BrokenAnalysisIsReachable(r: Id) returns (run: seq<Streams>)
    ensures Run(run) && run[0] == map[] && |run| == 10
    ensures TimelyRun(run[..8]) && OwnQuestion(run[7], r, Question(r))
            && Refused(Read(run[7], DecisionStream(Question(r))))
    ensures StateAt(run[8], r).Some? && StateAt(run[8], r).value.cancelled && StateAt(run[9], r).None?
  {
    hide AnalysisAfter, LedgerAfter, TimelyRun, Run, Opening, OwnQuestion, SameDecisions, Below, QuestionPacket;
    var observed, scene, e := FirstRound(r, [7], [OPEN_QUESTION]);
    NothingDecided(Last(observed), r);
    var asking, second, asked := Asking(observed, r, scene);
    var refused, third, dismissed := Deciding(asking, r, second, asked, Dismissed);
    var ended, fourth := RunEnds(refused, r, third);
    StaysRefused(Last(refused), Last(ended), r, asked, dismissed);
    QuestionOpen(Last(ended), r, fourth, e);
    OpeningIsIdle(r, fourth.st, [e]);
    IsRun(ended);
    IdsUnused(Last(ended), fourth.ids, fourth.ids);
    IdsUnused(Last(ended), fourth.ids, fourth.ids + 1);
    run := EndedTwice(ended, r, Question(r), third.ids, fourth.ids, fourth.ids + 1);
    assert run[..8] == ended && run[0] == observed[0];
  }

  /** The other failing family: one client has observed the first round, another has reserved the second, the
    * run is cancelled, and the first client ends the analysis over the open reservation. */
  lemma PendingForeverIsReachable(r: Id) returns (run: seq<Streams>)
    ensures Run(run) && run[0] == map[] && |run| == 8 && TimelyRun(run[..7])
    ensures StateAt(run[7], r).Some? && StateAt(run[7], r).value.cancelled
    ensures LedgerAt(run[7], r).Some? && LedgerAt(run[7], r).value.pending.Some? && !Agree(run[7], r)
  {
    hide AnalysisAfter, LedgerAfter, TimelyRun, Run, Opening, SameDecisions, Below, Agree, Small, LatestAnswered, Ready;
    var observed, scene, e := FirstRound(r, [7], []);
    NothingAsked(scene.st, e);
    ReadyAgain(r, scene, e);
    var reserved, second, _ := Reserving(observed, r, scene);
    var ended, third := RunEnds(reserved, r, second);
    OpeningIsIdle(r, scene.st, [e]);
    IsRun(ended);
    LastAgrees(ended, r);
    IdsUnused(Last(ended), third.ids, third.ids);
    run := EndedUnderway(ended, r, second.ids, third.ids);
    assert run[..7] == ended && run[0] == observed[0];
  }

  lemma NothingAsked(st: AnalysisState, e: Event)
    requires st.observed == [e] && UncertaintiesOf(e) == []
    ensures LatestAnswered(st)
  {
  }

  // ---------- A stalled analysis ----------

  function Choosing(): OptionId {
    Combination(Recommended([OPEN_QUESTION]))
  }

  lemma ChoiceIsOffered()
    ensures Choosing() in Combinations(Vectors([OPEN_QUESTION]))
    ensures Combined([OPEN_QUESTION], COMBINATION_CAP) == Some(Vectors([OPEN_QUESTION]))
    ensures Recommended([OPEN_QUESTION]) in Vectors([OPEN_QUESTION])
  {
    QuestionIsCanonical();
    OneFits([OPEN_QUESTION], 1, MAX_OPTIONS);
    assert Recommends(OPEN_QUESTION) by {
      assert OPEN_QUESTION.options[0].optionId == OPEN_QUESTION.recommendation;
    }
    RecommendedIsOffered([OPEN_QUESTION]);
    hide Vectors, Recommended, CanonicalUncertainties, Fits;
    var vectors := Vectors([OPEN_QUESTION]);
    var i :| 0 <= i < |vectors| && vectors[i] == Recommended([OPEN_QUESTION]);
    assert Combinations(vectors)[i] == Choosing();
  }

  function Chosen(r: Id): Payload {
    Decided(Question(r), r, Choosing(), OPERATOR, 9)
  }

  predicate Answered(s: Streams, r: Id, e: Event) {
    && e.payload.Observed? && e.payload.round == 1 && e.payload.uncertainties == [OPEN_QUESTION]
    && var es := Read(s, DecisionStream(Question(r)));
    |es| == 2 && es[0].payload == Asked(QuestionPacket(r)) && es[1].payload == Chosen(r)
  }

  lemma AnswerIsReady(s: Streams, r: Id, st: AnalysisState, e: Event, op: Op)
    requires op.Revise? && op.runId == r && Idle(st) && UnansweredMaterial(st) == Some(e) && Answered(s, r, e)
    requires st.budget.value == AMPLE
    ensures RevisionReady(s, st, op)
  {
    hide Idle, UnansweredMaterial, CanonicalUncertainties, Combined, Vectors, HasMaterial, QuestionPacket, Combinations,
         Recommended;
    QuestionIsCanonical();
    ChoiceIsOffered();
  }

  /** The operator's answer is recorded with the analysis. */
  lemma Revising(run: seq<Streams>, r: Id, scene: Scene, e: Event) returns (longer: seq<Streams>, next: Scene)
    requires |run| > 0 && TimelyRun(run) && Shows(Last(run), r, scene) && scene.st == Opening(r).(observed := [e])
    requires Answered(Last(run), r, e)
    ensures |longer| == |run| + 1 && longer[..|run|] == run && TimelyRun(longer) && Shows(Last(longer), r, next)
    ensures |next.st.answers| == 1 && next.st == scene.st.(answers := next.st.answers)
    ensures next.ledger == scene.ledger && next.runLength == scene.runLength && next.ids == scene.ids + 2
  {
    hide AnalysisAfter, LedgerAfter, TimelyRun, Opening, UnansweredMaterial, RevisionReady, AnalysisEvent, Below;
    OpeningIsIdle(r, scene.st, [e]);
    QuestionOpen(Last(run), r, scene, e);
    var op := Revise(r, OPERATOR, scene.ids);
    AnswerIsReady(Last(run), r, scene.st, e, op);
    longer, next := Act(run, r, scene, op);
    var revised := AfterPlain(Last(run), Last(longer), op, scene, next);
    RevisedEvent(Last(run), scene.st, op);
  }

  lemma RevisedEvent(s: Streams, st: AnalysisState, op: Op)
    requires op.Revise? && AnalysisGuard(s, s, st, op)
    ensures OwnEvent(s, s, st, op).payload.Revised?
  {
    hide RevisionReady, QuestionnaireFor;
  }

  lemma SettlementIsDue(s: Streams, r: Id, scene: Scene, op: Op)
    requires (op.Reconcile? || op.Release?) && op.runId == r && Shows(s, r, scene) && Live(scene.st)
    requires Numbered(op, scene.ids) && scene.st.reservation.Some?
    requires op.Reconcile? ==> OwnReservation(s, r, op.reservation)
    requires op.Release? ==>
               && op.actor.kind == Operator && scene.st.reconciliation.Some? && Pending(scene.ledger)
               && scene.st.reconciliation.value.payload.ReconciliationRequired?
               && scene.st.reconciliation.value.payload.knownNoEffect
    ensures Due(s, r, scene, op)
  {
    hide AnalysisAfter, LedgerAfter, Below;
  }

  /** The client gives up before it has dispatched anything. */
  lemma Reconciling(run: seq<Streams>, r: Id, scene: Scene, own: Event)
    returns (longer: seq<Streams>, next: Scene, required: Event)
    requires |run| > 0 && TimelyRun(run) && Shows(Last(run), r, scene) && Live(scene.st)
    requires scene.st.reservation == Some(own) && own in Analysis(Last(run), r) && own.payload.Reserved?
    ensures |longer| == |run| + 1 && longer[..|run|] == run && TimelyRun(longer) && Shows(Last(longer), r, next)
    ensures next == scene.(st := scene.st.(reconciliation := Some(required)), ids := scene.ids + 2)
    ensures required.payload == ReconciliationRequired(r, own.eventId, true, NoUsage)
  {
    hide AnalysisAfter, LedgerAfter, TimelyRun, Below, Due, Guard, AnalysisGuard, AnalysisEvent, Advance, Acts;
    var op := Reconcile(r, own, true, NoUsage, scene.ids);
    SettlementIsDue(Last(run), r, scene, op);
    longer, next := Act(run, r, scene, op);
    required := AfterPlain(Last(run), Last(longer), op, scene, next);
    PlainEvent(Last(run), scene.st, op);
    AdvancePlain(r, scene.st, LastId(Analysis(Last(run), r)), required, |Analysis(Last(run), r)|);
  }

  /** The operator releases the reservation. */
  lemma Releasing(run: seq<Streams>, r: Id, scene: Scene) returns (longer: seq<Streams>, next: Scene)
    requires |run| > 0 && TimelyRun(run) && Shows(Last(run), r, scene) && Live(scene.st)
    requires scene.st.reservation.Some? && scene.st.reconciliation.Some? && Pending(scene.ledger)
    requires scene.st.reconciliation.value.payload.ReconciliationRequired?
    requires scene.st.reconciliation.value.payload.knownNoEffect
    ensures |longer| == |run| + 1 && longer[..|run|] == run && TimelyRun(longer) && Shows(Last(longer), r, next)
    ensures next.st == scene.st.(reservation := None, reconciliation := None)
    ensures next.ledger == Ledger(Add(scene.ledger.consumed, NoUsage), None)
  {
    hide AnalysisAfter, LedgerAfter, TimelyRun, Below, Due, Guard, AnalysisGuard, AnalysisEvent, Advance, Acts;
    var op := AnalysisSteps.Release(r, OPERATOR, scene.ids, scene.ids + 1);
    SettlementIsDue(Last(run), r, scene, op);
    longer, next := Act(run, r, scene, op);
    var released := AfterCharge(Last(run), Last(longer), op, scene, next);
    PlainEvent(Last(run), scene.st, op);
    AdvancePlain(r, scene.st, LastId(Analysis(Last(run), r)), released, |Analysis(Last(run), r)|);
  }

  /** Up to the operator's answer. */
  lemma AnsweredRound(r: Id) returns (run: seq<Streams>, scene: Scene, e: Event)
    ensures |run| == 8 && run[0] == map[] && TimelyRun(run) && Shows(Last(run), r, scene)
    ensures scene.st == Opening(r).(observed := [e], answers := scene.st.answers) && |scene.st.answers| == 1
    ensures Small(e) && scene.ledger == Ledger(SPENT, None)
  {
    hide AnalysisAfter, LedgerAfter, TimelyRun, Run, Opening, SameDecisions, Below, QuestionPacket, Small, Choosing;
    var observed, first, round := FirstRound(r, [7], [OPEN_QUESTION]);
    NothingDecided(Last(observed), r);
    var asking, second, asked := Asking(observed, r, first);
    ChosenIsOffered(r);
    var deciding, third, decided := Deciding(asking, r, second, asked, Chosen(r));
    e := round;
    assert e.payload.Observed? by {
      SmallIsObserved(e);
    }
    run, scene := Revising(deciding, r, third, e);
    assert run[0] == observed[0];
  }

  lemma SmallIsObserved(e: Event)
    requires Small(e)
    ensures e.payload.Observed?
  {
  }

  lemma ChosenIsOffered(r: Id)
    ensures Chosen(r).optionId in QuestionPacket(r).options
  {
    ChoiceIsOffered();
    hide Vectors, Choosing, Combinations;
  }

  lemma AnsweredIsReady(r: Id, scene: Scene, e: Event)
    requires scene.st == Opening(r).(observed := [e], answers := scene.st.answers) && |scene.st.answers| == 1
    requires Small(e) && scene.ledger == Ledger(SPENT, None)
    ensures Ready(scene) && Live(scene.st)
  {
    OpeningIsIdle(r, scene.st, [e]);
    assert LatestAnswered(scene.st) by {
      hide Opening, HasMaterial, Small;
    }
    ReadyAgain(r, scene, e);
    hide Opening, LatestAnswered, Small, Ready;
  }

  lemma StalledScene(run: seq<Streams>, r: Id, scene: Scene, first: Scene, e: Event)
    requires |run| > 0 && TimelyRun(run) && Shows(Last(run), r, scene)
    requires first.st == Opening(r).(observed := [e], answers := first.st.answers) && |first.st.answers| == 1
             && Small(e)
    requires scene.st == first.st.(reservation := None, reconciliation := None)
    requires scene.ledger == Ledger(Add(SPENT, NoUsage), None)
    ensures StateAt(Last(run), r).Some? && Idle(StateAt(Last(run), r).value)
            && LatestAnswered(StateAt(Last(run), r).value)
    ensures Stalled(Last(run), r) && ReleasedSince(Analysis(Last(run), r))
  {
    OpeningIsIdle(r, first.st, [e]);
    WithinAmple(e, true);
    hide AnalysisAfter, LedgerAfter, TimelyRun, Below, SumUsage, BudgetReason, Remaining, ReleasedSince, HasMaterial,
         Opening;
    GuardShutExactly(run, |run| - 1, r);
  }

  /** The stalled analysis: a material round with a receipt of its own, the operator's answer, the reservation of
    * the next round, a client that gives up before it dispatches, and the operator's release. Nothing is open, the
    * analysis is live, every commit was timely, and no round will ever be reserved again. */
  lemma StalledIsReachable(r: Id) returns (run: seq<Streams>)
    ensures TimelyRun(run) && run[0] == map[] && |run| == 11
    ensures StateAt(run[10], r).Some? && Idle(StateAt(run[10], r).value) && LatestAnswered(StateAt(run[10], r).value)
    ensures Stalled(run[10], r) && ReleasedSince(Analysis(run[10], r))
  {
    hide AnalysisAfter, LedgerAfter, TimelyRun, Opening, SameDecisions, Below, Small, Ready, LatestAnswered, Stalled,
         ReleasedSince, SumUsage;
    var answered, first, e := AnsweredRound(r);
    AnsweredIsReady(r, first, e);
    var reserving, second, own := Reserving(answered, r, first);
    var waiting, third, required := Reconciling(reserving, r, second, own);
    var scene;
    run, scene := Releasing(waiting, r, third);
    StalledScene(run, r, scene, first, e);
    assert run[0] == answered[0];
  }
}
