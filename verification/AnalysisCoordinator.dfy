/** The analysis coordinator: its methods over the shared journal, with other clients committing between any
  * two of its reads and writes.  Every commit it makes is a step of the protocol, so `history`, the run it
  * takes part in, stays legal. */
module AnalysisCoordinators {
  import opened EventJournal
  import opened Questionnaire
  import opened AnalysisModel
  import opened AnalysisSteps
  import opened AnalysisLedger
  import opened AnalysisClients
  import Bounds = AnalysisBounds

  datatype RunEnding = RunCompleted | RunDenied | RunWasCancelled | RunTimedOut | RunFailed

  datatype Lifecycle = Analyzing | Planning | Paused | Terminal(ending: RunEnding)

  datatype RunView = RunView(streamVersion: nat, lifecycle: Lifecycle)

  datatype Answered = Returned(observations: seq<Id>, uncertainties: seq<Uncertainty>, usage: Usage)
                    | Raised(outcome: CapsuleOutcome, cleanupUncertain: bool, usage: Usage)
                    | Broken

  datatype CapsuleOutcome = CapsuleCancelled | CapsuleTimedOut | CapsuleFailed | Uncertain

  /** What comes from outside: the retained intake, the run's own limits, the abort signal at its two polls,
    * the hook between reservation and dispatch, and the capsule's answer. */
  datatype Environment = Environment(snapshot: Id, source: Id, sourceCount: nat, withinRun: bool, request: Id,
                                     aborted: bool, hookFails: bool, answer: Answered, abortedAfter: bool)

  datatype Progress = AnalysisCompleted | Waiting | Reconciling | BudgetExhausted | AnalysisCancelled
                    | AnalysisEnded(outcome: Outcome)

  datatype Result = Advanced(progress: Progress, round: nat) | Threw

  function EndingOf(ending: RunEnding): Option<Outcome> {
    if ending == RunWasCancelled then None
    else if ending == RunTimedOut then Some(TimedOut) else Some(Failed)
  }

  function Ending(outcome: Option<Outcome>): Progress {
    if outcome.None? then AnalysisCancelled else AnalysisEnded(outcome.value)
  }

  function KnownOutcome(outcome: CapsuleOutcome): Option<Outcome> {
    match outcome
    case CapsuleCancelled => None
    case CapsuleTimedOut => Some(TimedOut)
    case CapsuleFailed => Some(Failed)
    case Uncertain => Some(Failed)
  }

  /** How an analysis goes on after this answer: what is uncertain waits for an operator, a capsule that gave up or was
    * aborted ends the analysis, unless the run was overtaken. */
  predicate AnsweredBy(env: Environment, progress: Progress) {
    match env.answer
    case Broken => progress == Reconciling
    case Raised(outcome, cleanupUncertain, _) =>
      if outcome == Uncertain || cleanupUncertain then progress == Reconciling
      else progress.Reconciling? || progress.AnalysisCancelled? || progress.AnalysisEnded?
    case Returned(_, _, _) =>
      env.abortedAfter ==> progress.Reconciling? || progress.AnalysisCancelled? || progress.AnalysisEnded?
  }

  /** An ending says what the capsule said, or what the run it followed said. */
  predicate EndsLike(outcome: CapsuleOutcome, followed: Option<RunEnding>, progress: Progress) {
    match followed
    case None =>
      && (outcome == CapsuleCancelled ==> progress == AnalysisCancelled)
      && (outcome == CapsuleTimedOut ==> progress == AnalysisEnded(TimedOut))
      && (outcome == CapsuleFailed ==> progress == AnalysisEnded(Failed))
    case Some(ending) =>
      && (ending == RunWasCancelled ==> progress == AnalysisCancelled)
      && (ending == RunTimedOut ==> progress == AnalysisEnded(TimedOut))
      && (ending in {RunCompleted, RunDenied, RunFailed} ==> progress == AnalysisEnded(Failed))
  }

  class AnalysisCoordinator {
    const journal: Journal<StreamId, Payload>
    ghost var history: seq<Streams>
    /** The reservations this process is still working on. */
    var activeReservations: set<Id>

    ghost predicate Valid()
      reads this`history, journal
    {
      |history| > 0 && Run(history) && history[|history| - 1] == journal.streams
    }

    constructor (journal: Journal<StreamId, Payload>, ghost past: seq<Streams>)
      requires Run(past) && past[|past| - 1] == journal.streams
      ensures Valid() && this.journal == journal && history == past
    {
      this.journal := journal;
      this.history := past;
      this.activeReservations := {};
    }

    /** Other clients may commit here, any number of times. A caller knows only this contract: the run went on
      * legally, so every stream read so far is still a prefix. */
    method Interfere()
      requires Valid()
      modifies this, journal
      ensures Valid() && old(history) <= history
      ensures StaleView(old(journal.streams), journal.streams)
    {
    }

    /** Reads one stream at some later moment and adds it to what the client knows. */
    method Learn(known: Streams, stream: StreamId) returns (events: seq<Event>, view: Streams)
      requires Valid() && StaleView(known, journal.streams)
      modifies this, journal
      ensures Valid() && old(history) <= history
      ensures StaleView(old(journal.streams), journal.streams) && StaleView(view, journal.streams)
      ensures events == Read(journal.streams, stream) == Read(view, stream) && view == known[stream := events]
    {
      Interfere();
      events := journal.ReadStream(stream);
      ViewTrans(known, old(journal.streams), journal.streams);
      ViewLearns(known, journal.streams, stream);
      view := known[stream := events];
    }

    /** Reads the analysis again and replays it. */
    method LearnAnalysis(known: Streams, r: Id) returns (st: Option<AnalysisState>, view: Streams)
      requires Valid() && StaleView(known, journal.streams)
      modifies this, journal
      ensures Valid() && old(history) <= history
      ensures StaleView(old(journal.streams), journal.streams) && StaleView(view, journal.streams)
      ensures st == StateAt(view, r) && Analysis(view, r) == Analysis(journal.streams, r)
      ensures view == known[AnalysisStream(r) := Analysis(view, r)]
    {
      var events: seq<Event>;
      events, view := Learn(known, AnalysisStream(r));
      st := ProjectAnalysis(r, events);
    }

    /** Reads the ledger, after the analysis. */
    method LearnLedger(known: Streams, r: Id) returns (ledger: Option<Ledger>, view: Streams)
      requires Valid() && StaleView(known, journal.streams)
      modifies this, journal
      ensures Valid() && old(history) <= history
      ensures StaleView(old(journal.streams), journal.streams) && StaleView(view, journal.streams)
      ensures view == known[BudgetStream(r) := Read(view, BudgetStream(r))]
      ensures ledger == LedgerAt(view, r) && LedgerKnown(history, view, r)
    {
      var events: seq<Event>;
      events, view := Learn(known, BudgetStream(r));
      ledger := ProjectAnalysisBudget(r, events);
      assert LedgerReadAt(history, |history| - 1, view, r);
    }

    /** Three random identities: new to the journal. */
    method FreshIds() returns (a: Id, b: Id, c: Id)
      ensures Unused(journal.streams, a) && Unused(journal.streams, b) && Unused(journal.streams, c)
      ensures a != b && b != c && a != c
    {
      var top: Id := 0;
      var keys := journal.streams.Keys;
      while keys != {}
        invariant keys <= journal.streams.Keys
        invariant forall x, i :: x in journal.streams.Keys - keys && 0 <= i < |journal.streams[x]| ==>
          journal.streams[x][i].eventId <= top
        decreases |keys|
      {
        var x :| x in keys;
        var events := journal.streams[x];
        for i := 0 to |events|
          invariant forall k :: 0 <= k < i ==> events[k].eventId <= top
          invariant forall y, k :: y in journal.streams.Keys - keys && 0 <= k < |journal.streams[y]| ==>
            journal.streams[y][k].eventId <= top
        {
          if events[i].eventId > top {
            top := events[i].eventId;
          }
        }
        keys := keys - {x};
      }
      a, b, c := top + 1, top + 2, top + 3;
    }

    /** One guarded commit, planned on what the client knows. */
    method Commit(known: Streams, op: Op) returns (appended: bool, conflict: bool)
      requires Valid() && StaleView(known, journal.streams) && Guard(known, known, op) && NewIds(journal.streams, op)
      requires AnalysisOp(op) && UsesLedger(op) ==> LedgerKnown(history, known, op.runId)
      modifies this, journal
      ensures Valid() && old(history) <= history
      ensures !appended ==> history == old(history) && journal.streams == old(journal.streams)
      ensures appended ==> StaleView(old(journal.streams), journal.streams) && StaleView(known, journal.streams)
      ensures appended && AnalysisOp(op) ==>
                && Analysis(known, op.runId) == Analysis(old(journal.streams), op.runId)
                && Shaped(Plan(known, known, op), op.runId, Touches(op))
                && Commits(old(journal.streams), journal.streams, op.runId, Plan(known, known, op)[0].events[0],
                           if Touches(op) then Some(Plan(known, known, op)[1].events[0]) else None)
      ensures appended && !AnalysisOp(op) ==> journal.streams == Applied(old(journal.streams), Plan(known, known, op))
    {
      hide *;
      ghost var s := journal.streams;
      ghost var t := Now(known, op);
      GuardIsLocal(known, known, t, op);
      appended, conflict := TakeStep(known, op, t);
      if appended && AnalysisOp(op) {
        OpCommits(t, s, journal.streams, known, op);
      }
    }

    /** The journal at the moment the client read the ledger, or now. */
    ghost method Now(known: Streams, op: Op) returns (t: Streams)
      requires Valid() && StaleView(known, journal.streams)
      requires AnalysisOp(op) && UsesLedger(op) ==> LedgerKnown(history, known, op.runId)
      ensures Moment(history, t) && StaleView(t, journal.streams)
      ensures AnalysisOp(op) ==> Analysis(known, op.runId) <= Analysis(t, op.runId)
      ensures AnalysisOp(op) && UsesLedger(op) ==>
              Read(known, BudgetStream(op.runId)) == Read(t, BudgetStream(op.runId))
    {
      hide Run, StaleView, LedgerKnown, Moment, UsesLedger;
      t := ReadMoment(history, known, op);
    }

    /** The commit itself, and what it adds to the run. */
    method TakeStep(known: Streams, op: Op, ghost t: Streams) returns (appended: bool, conflict: bool)
      requires Valid() && Moment(history, t) && StaleView(t, journal.streams) && StaleView(known, journal.streams)
      requires AnalysisOp(op) ==> Analysis(known, op.runId) <= Analysis(t, op.runId)
      requires Guard(known, known, op) && Guard(known, t, op) && Plan(known, known, op) == Plan(known, t, op)
      requires NewIds(journal.streams, op)
      modifies this, journal
      ensures Valid() && old(history) <= history
      ensures !appended ==> history == old(history) && journal.streams == old(journal.streams)
      ensures appended ==>
                && Step(t, old(journal.streams), journal.streams, known, op)
                && StaleView(old(journal.streams), journal.streams) && StaleView(known, journal.streams)
                && journal.streams == Applied(old(journal.streams), Plan(known, known, op))
    {
      hide Run, Guard, Plan, NewIds, Step, StaleView, Accepts, Applied, Moment, Analysis;
      ghost var s := journal.streams;
      var writes := Plan(known, known, op);
      var outcome := journal.AppendAtomically(writes);
      appended, conflict := outcome == Appended, outcome == Conflict;
      if appended {
        MakesStep(t, s, journal.streams, known, op);
        RunExtends(history, journal.streams, t, known, op);
        StepExtends(t, s, journal.streams, known, op);
        ViewTrans(known, s, journal.streams);
        history := history + [journal.streams];
      }
    }

    // ---------- Small commits ----------

    method Project(known: Streams, r: Id) returns (st: Option<AnalysisState>)
      ensures st == StateAt(known, r)
    {
      st := ProjectAnalysis(r, Analysis(known, r));
    }

    /** Appends one analysis event; the client goes on with what it had read and the event itself. */
    method Append(known: Streams, op: Op) returns (view: Option<Streams>, conflict: bool)
      requires Valid() && StaleView(known, journal.streams) && Guard(known, known, op) && NewIds(journal.streams, op)
      requires AnalysisOp(op) && (UsesLedger(op) ==> LedgerKnown(history, known, op.runId))
      modifies this, journal
      ensures Valid() && old(history) <= history && StaleView(old(journal.streams), journal.streams)
      ensures view.Some? ==>
                && view.value == known[AnalysisStream(op.runId) := Analysis(journal.streams, op.runId)]
                && Analysis(view.value, op.runId) == Analysis(journal.streams, op.runId)
                && StaleView(view.value, journal.streams)
                && Shaped(Plan(known, known, op), op.runId, Touches(op))
                && Commits(old(journal.streams), journal.streams, op.runId, Plan(known, known, op)[0].events[0],
                           if Touches(op) then Some(Plan(known, known, op)[1].events[0]) else None)
                && Analysis(known, op.runId) == Analysis(old(journal.streams), op.runId)
    {
      hide Run, Guard, Plan, NewIds, StaleView, Commits, Shaped;
      SelfView(journal.streams);
      var appended: bool;
      appended, conflict := Commit(known, op);
      if !appended {
        return None, conflict;
      }
      ViewLearns(known, journal.streams, AnalysisStream(op.runId));
      view := Some(known[AnalysisStream(op.runId) := Analysis(journal.streams, op.runId)]);
    }

    /** The same, for one event of the analysis and nothing else. */
    method AppendOne(known: Streams, op: Op) returns (view: Option<Streams>, conflict: bool)
      requires Valid() && StaleView(known, journal.streams) && Guard(known, known, op) && NewIds(journal.streams, op)
      requires AnalysisOp(op) && !UsesLedger(op)
      modifies this, journal
      ensures Valid() && old(history) <= history && StaleView(old(journal.streams), journal.streams)
      ensures view.Some? ==>
                && view.value == known[AnalysisStream(op.runId) := Analysis(journal.streams, op.runId)]
                && Analysis(view.value, op.runId) == Analysis(journal.streams, op.runId)
                && StaleView(view.value, journal.streams)
                && AppendedOne(old(journal.streams), journal.streams, known, op)
    {
      hide Run, Guard, Plan, NewIds, StaleView, Commits;
      view, conflict := Append(known, op);
    }

    method RequireRun(known: Streams, r: Id) returns (run: RunView, view: Streams)
      requires Valid() && StaleView(known, journal.streams)
      modifies this, journal
      ensures Valid() && old(history) <= history
      ensures StaleView(old(journal.streams), journal.streams) && StaleView(view, journal.streams)
      ensures view == known[RunStream(r) := Read(view, RunStream(r))]
    {
      var events: seq<Event>;
      events, view := Learn(known, RunStream(r));
      var lifecycle: Lifecycle := *;
      run := RunView(|events|, lifecycle);
    }

    /** The run service commits something to the run; its identity, unless another client was faster. */
    method RunCommand(r: Id, payload: Payload) returns (id: Option<Id>)
      requires Valid() && (payload.RunTerminal? || payload.RunEvent?)
      modifies this, journal
      ensures Valid() && old(history) <= history && StaleView(old(journal.streams), journal.streams)
    {
      hide Run, Plan, NewIds, StaleView;
      NothingKnown(journal.streams);
      var events, view := Learn(map[], RunStream(r));
      ghost var before := journal.streams;
      var a, _, _ := FreshIds();
      var op := Elsewhere(r, payload, a);
      SingleId(journal.streams, op);
      var appended, conflict := Commit(view, op);
      if appended {
        ViewTrans(old(journal.streams), before, journal.streams);
        return Some(a);
      }
      id := None;
    }

    method EnsureWaiting(r: Id) returns (ok: bool)
      requires Valid()
      modifies this, journal
      ensures Valid() && old(history) <= history && StaleView(old(journal.streams), journal.streams)
    {
      SelfView(journal.streams);
      var waiting: bool := *;
      if waiting {
        return true;
      }
      var id := RunCommand(r, RunEvent(0));
      ok := id.Some?;
    }

    // ---------- Questions ----------

    /** Asks once: whoever finds the question asked takes the existing one. */
    method RequestQuestion(known: Streams, packet: Packet) returns (asked: bool, view: Streams)
      requires Valid() && StaleView(known, journal.streams) && Genuine(packet)
      modifies this, journal
      ensures Valid() && old(history) <= history
      ensures StaleView(old(journal.streams), journal.streams) && StaleView(view, journal.streams)
      ensures view == known[DecisionStream(packet.evidence) := Read(view, DecisionStream(packet.evidence))]
      ensures asked ==> Read(view, DecisionStream(packet.evidence)) != []
    {
      hide Run, Plan, NewIds, StaleView, Genuine;
      ghost var before := journal.streams;
      SelfView(before);
      var a, _, _ := FreshIds();
      var op := Ask(packet, a);
      SingleId(journal.streams, op);
      var appended, conflict := Commit(known, op);
      ghost var between := journal.streams;
      var events: seq<Event>;
      events, view := Learn(known, DecisionStream(packet.evidence));
      ViewTrans(before, between, journal.streams);
      asked := events != [];
    }

    /** The decision is there already, or it is asked now if its recommendation can be offered. */
    method AskUnlessAsked(known: Streams, packet: Packet, offerable: bool) returns (asked: bool, view: Streams)
      requires Valid() && StaleView(known, journal.streams) && Genuine(packet)
      modifies this, journal
      ensures Valid() && old(history) <= history
      ensures StaleView(old(journal.streams), journal.streams) && StaleView(view, journal.streams)
      ensures view == known[DecisionStream(packet.evidence) := Read(view, DecisionStream(packet.evidence))]
      ensures asked ==> Read(view, DecisionStream(packet.evidence)) != []
    {
      ghost var before := journal.streams;
      hide Run, StaleView, Genuine;
      var events: seq<Event>;
      events, view := Learn(known, DecisionStream(packet.evidence));
      asked := events != [];
      if !asked && offerable {
        ghost var between := journal.streams;
        asked, view := RequestQuestion(view, packet);
        ViewTrans(before, between, journal.streams);
      }
    }

    method EnsureBudgetAttention(known: Streams, r: Id, evidence: Evidence) returns (asked: bool, view: Streams)
      requires Valid() && StaleView(known, journal.streams) && evidence.ExhaustionEvidence?
      modifies this, journal
      ensures Valid() && old(history) <= history
      ensures StaleView(old(journal.streams), journal.streams) && StaleView(view, journal.streams)
      ensures view == known[DecisionStream(evidence) := Read(view, DecisionStream(evidence))]
      ensures asked ==> Read(view, DecisionStream(evidence)) != []
    {
      hide Run, StaleView;
      asked, view := AskUnlessAsked(known, Packet(evidence, r, [], [AwaitRevision, CancelAnalysis], true), true);
    }

    method EnsureBudgetRevisionGate(known: Streams, r: Id, evidence: Evidence) returns (asked: bool, view: Streams)
      requires Valid() && StaleView(known, journal.streams) && evidence.RevisionEvidence? && evidence.runId == r
      modifies this, journal
      ensures Valid() && old(history) <= history
      ensures StaleView(old(journal.streams), journal.streams) && StaleView(view, journal.streams)
      ensures view == known[DecisionStream(evidence) := Read(view, DecisionStream(evidence))]
      ensures asked ==> Read(view, DecisionStream(evidence)) != []
    {
      hide Run, StaleView;
      asked, view := AskUnlessAsked(known, Packet(evidence, r, [], [ApplyRevision], true), true);
    }

    /** The questionnaire of a round: refused when it is ambiguous, too large for the current budget or its
      * recommendations are not on offer. */
    method EnsureQuestionnaire(known: Streams, r: Id, round: nat, us: seq<Uncertainty>)
      returns (decision: Option<Evidence>, view: Streams)
      requires Valid() && StaleView(known, journal.streams)
      modifies this, journal
      ensures Valid() && old(history) <= history
      ensures StaleView(old(journal.streams), journal.streams) && StaleView(view, journal.streams)
      ensures decision.Some? ==>
                && IsQuestionnaire(decision.value, r, round, us)
                && view == known[DecisionStream(decision.value) := Read(view, DecisionStream(decision.value))]
                && Read(view, DecisionStream(decision.value)) != []
    {
      ghost var before := journal.streams;
      hide Run, StaleView, AnalysisAfter, IsQuestionnaire, Genuine;
      var now, _ := Learn(known, AnalysisStream(r));
      ghost var first := journal.streams;
      ViewTrans(known, before, first);
      view := known;
      var st := ProjectAnalysis(r, now);
      var canonical := CanonicalUncertainties(us);
      if canonical.None? || st.None? || st.value.budget.None? {
        return None, view;
      }
      var vectors := CombinedQuestionnaireOptions(canonical.value, st.value.budget.value.maxQuestionnaireOptions);
      if vectors.None? {
        return None, view;
      }
      var packet := QuestionnairePacket(r, round, canonical.value, vectors.value);
      PacketIsGenuine(r, round, us, vectors.value);
      var asked: bool;
      asked, view := AskUnlessAsked(view, packet, Recommended(canonical.value) in vectors.value);
      ViewTrans(before, first, journal.streams);
      if asked {
        decision := Some(packet.evidence);
      } else {
        decision := None;
      }
    }

    // ---------- Endings ----------

    /** Cancels the run and then the analysis, on a fresh reading of it. */
    method CancelFromDecision(known: Streams, r: Id, decision: Evidence, round: nat) returns (result: Result)
      requires Valid() && StaleView(known, journal.streams) && Refused(Read(known, DecisionStream(decision)))
      requires WaitsAt(Analysis(known, r), r, decision)
      modifies this, journal
      ensures Valid() && old(history) <= history && StaleView(old(journal.streams), journal.streams)
      ensures result.Advanced? ==> result == Advanced(AnalysisCancelled, round)
    {
      ghost var before := journal.streams;
      hide Run, StaleView, AnalysisAfter, Plan, NewIds, Commits, Shaped, WaitsAt, OwnQuestion;
      var cancelled := RunCommand(r, RunTerminal);
      if cancelled.None? {
        return Threw;
      }
      ghost var first := journal.streams;
      ViewTrans(known, before, first);
      var events, view := Learn(known, AnalysisStream(r));
      AskedBefore(known, journal.streams, view, r, decision);
      ghost var second := journal.streams;
      ViewTrans(before, first, second);
      var st := ProjectAnalysis(r, events);
      if st.None? {
        return Threw;
      }
      var a, _, _ := FreshIds();
      var op := Close(r, AfterDecision(decision), Cancelled(r, cancelled.value), cancelled.value, a);
      SingleId(journal.streams, op);
      var appended, conflict := AppendOne(view, op);
      ViewTrans(before, second, journal.streams);
      if appended.None? {
        return Threw;
      }
      result := Advanced(AnalysisCancelled, round);
    }

    /** An aborted client cancels the run, and then its analysis as it has read it. */
    method CancelSafely(known: Streams, r: Id, round: nat) returns (result: Result)
      requires Valid() && StaleView(known, journal.streams) && StateAt(known, r).Some? && Idle(StateAt(known, r).value)
      modifies this, journal
      ensures Valid() && old(history) <= history && StaleView(old(journal.streams), journal.streams)
      ensures result.Advanced? ==> result == Advanced(AnalysisCancelled, round)
    {
      ghost var before := journal.streams;
      hide Run, StaleView, AnalysisAfter, Plan, NewIds, Commits, Shaped;
      var cancelled := RunCommand(r, RunTerminal);
      if cancelled.None? {
        return Threw;
      }
      ghost var first := journal.streams;
      ViewTrans(known, before, first);
      var a, _, _ := FreshIds();
      var op := Close(r, BeforeDispatch, Cancelled(r, cancelled.value), cancelled.value, a);
      SingleId(journal.streams, op);
      var appended, conflict := AppendOne(known, op);
      ViewTrans(before, first, journal.streams);
      if appended.None? {
        return Threw;
      }
      result := Advanced(AnalysisCancelled, round);
    }

    method RecordExhaustion(known: Streams, r: Id, st: AnalysisState, after: bool)
      returns (view: Option<Streams>, evidence: Evidence)
      requires Valid() && StaleView(known, journal.streams) && StateAt(known, r) == Some(st)
      requires st.budget.Some? && BudgetReason(st.observed, st.budget.value, !after).Some?
      requires !after ==> Idle(st) && LatestAnswered(st)
      modifies this, journal
      ensures Valid() && old(history) <= history && StaleView(old(journal.streams), journal.streams)
      ensures evidence.ExhaustionEvidence?
      ensures view.Some? ==> StaleView(view.value, journal.streams) && ExhaustedOn(journal.streams, r, evidence)
    {
      hide Run, StaleView, AnalysisAfter, NewIds, BudgetReason, SumUsage, LatestAnswered, Plan, Commits, Shaped,
           ExhaustedOn;
      ghost var before := journal.streams;
      var a, _, _ := FreshIds();
      var op := AnalysisSteps.Exhaust(r, after, a);
      SingleId(journal.streams, op);
      var reason := BudgetReason(st.observed, st.budget.value, !after).value;
      evidence := ExhaustionEvidence(reason, st.budget.value, SumUsage(st.observed));
      var conflict: bool;
      view, conflict := AppendOne(known, op);
      if view.Some? {
        ExhaustionShown(before, journal.streams, known, st, op, evidence);
      }
    }

    /** Records why the budget is exhausted, and asks how to go on. */
    method Exhaust(known: Streams, r: Id, st: AnalysisState, after: bool) returns (result: Result)
      requires Valid() && StaleView(known, journal.streams) && StateAt(known, r) == Some(st)
      requires st.budget.Some? && BudgetReason(st.observed, st.budget.value, !after).Some?
      requires !after ==> Idle(st) && LatestAnswered(st)
      modifies this, journal
      ensures Valid() && old(history) <= history && StaleView(old(journal.streams), journal.streams)
      ensures result.Advanced? ==>
                result == Advanced(BudgetExhausted, |st.observed|) && AskedAboutBudget(journal.streams, r)
    {
      ghost var before := journal.streams;
      hide *;
      var recorded, evidence := RecordExhaustion(known, r, st, after);
      if recorded.None? {
        return Threw;
      }
      ghost var first := journal.streams;
      var asked, view := EnsureBudgetAttention(recorded.value, r, evidence);
      ghost var second := journal.streams;
      ViewTrans(before, first, second);
      if !asked {
        return Threw;
      }
      var waiting := EnsureWaiting(r);
      ViewTrans(before, second, journal.streams);
      if !waiting {
        return Threw;
      }
      ViewTrans(first, second, journal.streams);
      ViewTrans(view, second, journal.streams);
      NowAsked(first, view, journal.streams, r, evidence);
      result := Advanced(BudgetExhausted, |st.observed|);
    }

    method HandleExhaustion(known: Streams, r: Id, st: AnalysisState) returns (result: Result)
      requires Valid() && StaleView(known, journal.streams) && StateAt(known, r) == Some(st) && st.exhaustion.Some?
      modifies this, journal
      ensures Valid() && old(history) <= history && StaleView(old(journal.streams), journal.streams)
      ensures result.Advanced? ==>
                || result == Advanced(AnalysisCancelled, |st.observed|)
                || (result == Advanced(BudgetExhausted, |st.observed|) && AskedAboutBudget(journal.streams, r))
    {
      ghost var before := journal.streams;
      Remembers(r, Analysis(known, r));
      hide Run, StaleView, AnalysisAfter, AskedAboutBudget;
      var exhausted := st.exhaustion.value;
      var evidence := exhausted.payload.evidence;
      if !evidence.ExhaustionEvidence? {
        SelfView(before);
        return Threw;
      }
      var asked, view := EnsureBudgetAttention(known, r, evidence);
      ghost var first := journal.streams;
      if !asked {
        return Threw;
      }
      var decision := Read(view, DecisionStream(evidence));
      if Refused(decision) {
        SameAnalysis(known, view, DecisionStream(evidence), r);
        ExhaustionWaits(Analysis(view, r), r, st, evidence);
        result := CancelFromDecision(view, r, evidence, |st.observed|);
        ViewTrans(before, first, journal.streams);
        return;
      }
      var waiting := EnsureWaiting(r);
      ViewTrans(before, first, journal.streams);
      if !waiting {
        return Threw;
      }
      ViewTrans(known, before, journal.streams);
      ViewTrans(view, first, journal.streams);
      assert IsExhaustion(exhausted, evidence);
      NowAsked(known, view, journal.streams, r, evidence);
      result := Advanced(BudgetExhausted, |st.observed|);
    }

    // ---------- Settlements ----------

    /** Charges the open reservation and ends the analysis in one commit, together with the run if `endsRun`
      * gives the version it must have. */
    method Settle(known: Streams, r: Id, reservation: Event, outcome: Option<Outcome>, usage: Usage, runEventId: Id,
                  endsRun: Option<nat>) returns (settled: bool, conflict: bool)
      requires Valid() && StaleView(known, journal.streams) && StateAt(known, r).Some?
      modifies this, journal
      ensures Valid() && old(history) <= history && StaleView(old(journal.streams), journal.streams)
      ensures settled ==>
                && ChargedSince(journal.streams, r, |Read(old(journal.streams), BudgetStream(r))|, usage)
                && EndingRecorded(journal.streams, r, outcome, reservation, usage)
    {
      ghost var before := journal.streams;
      hide *;
      var ledger, view := LearnLedger(known, r);
      ghost var first := journal.streams;
      if ledger.None? || ledger.value.pending.None? {
        return false, false;
      }
      var a, b, c := FreshIds();
      var op := AnalysisSteps.Settle(r, reservation, outcome, usage, if endsRun.Some? then c else runEventId, endsRun,
                                     a, b);
      ThreeIds(first, op, a, b, c);
      SameAnalysis(known, view, BudgetStream(r), r);
      SettleGuard(view, op);
      settled, conflict := Charge(view, op, usage);
      ViewTrans(before, first, journal.streams);
      if settled {
        EarlierCharge(before, first, journal.streams, r, usage);
        SettlementShown(first, journal.streams, view, op);
      }
    }

    /** The commit of an operation that charges. */
    method Charge(known: Streams, op: Op, usage: Usage) returns (charged: bool, conflict: bool)
      requires Valid() && StaleView(known, journal.streams) && Guard(known, known, op) && NewIds(journal.streams, op)
      requires Charges(op) && ChargedUsage(op) == usage && LedgerKnown(history, known, op.runId)
      modifies this, journal
      ensures Valid() && old(history) <= history && StaleView(old(journal.streams), journal.streams)
      ensures charged ==>
                && ChargedSince(journal.streams, op.runId, |Read(old(journal.streams), BudgetStream(op.runId))|, usage)
                && Analysis(known, op.runId) == Analysis(old(journal.streams), op.runId)
                && Shaped(Plan(known, known, op), op.runId, true)
                && Commits(old(journal.streams), journal.streams, op.runId, Plan(known, known, op)[0].events[0],
                           Some(Plan(known, known, op)[1].events[0]))
    {
      hide Run, StaleView, NewIds, ChargedSince, Guard, Plan, Commits, Shaped, LedgerKnown;
      ghost var before := journal.streams;
      var appended: Option<Streams>;
      appended, conflict := Append(known, op);
      charged := appended.Some?;
      if charged {
        ChargeShown(before, journal.streams, known, op);
      }
    }

    /** The run has been ended by somebody else: the analysis follows, and is charged. */
    method SettleAgainstExternalTerminal(known: Streams, r: Id, round: nat, reservation: Event, usage: Usage,
                                         ending: RunEnding)
      returns (result: Result)
      requires Valid() && StaleView(known, journal.streams) && StateAt(known, r).Some?
      modifies this, journal
      ensures Valid() && old(history) <= history && StaleView(old(journal.streams), journal.streams)
      ensures result.Advanced? ==>
                && result == Advanced(Ending(EndingOf(ending)), round)
                && ChargedSince(journal.streams, r, |Read(old(journal.streams), BudgetStream(r))|, usage)
                && EndingRecorded(journal.streams, r, EndingOf(ending), reservation, usage)
    {
      ghost var before := journal.streams;
      hide Run, StaleView, AnalysisAfter, ChargedSince, EndingRecorded;
      var run, view := Learn(known, RunStream(r));
      ghost var first := journal.streams;
      if run == [] {
        return Threw;
      }
      var settled, conflict :=
        Settle(view, r, reservation, EndingOf(ending), usage, run[|run| - 1].eventId, None);
      ViewTrans(before, first, journal.streams);
      if !settled {
        return Threw;
      }
      EarlierCharge(before, first, journal.streams, r, usage);
      result := Advanced(Ending(EndingOf(ending)), round);
    }

    /** The run moved on while the capsule was working: what it used is put on record for an operator. */
    method ReconcileChangedRun(known: Streams, r: Id, round: nat, reservation: Event, usage: Usage, reconciled: bool)
      returns (result: Result)
      requires Valid() && StaleView(known, journal.streams) && StateAt(known, r).Some?
      requires OwnReservation(known, r, reservation)
      modifies this, journal
      ensures Valid() && old(history) <= history && StaleView(old(journal.streams), journal.streams)
      ensures result.Advanced? ==>
                && result == Advanced(Reconciling, round)
                && (reconciled || UncertaintyRecorded(journal.streams, r, reservation, false, usage))
    {
      result := Reconcile(known, r, round, reservation, false, usage, reconciled);
    }

    /** Unless it is on record already: the outcome of a reservation is uncertain, or known to be none. */
    method Reconcile(known: Streams, r: Id, round: nat, reservation: Event, knownNoEffect: bool, usage: Usage,
                     reconciled: bool)
      returns (result: Result)
      requires Valid() && StaleView(known, journal.streams) && StateAt(known, r).Some?
      requires OwnReservation(known, r, reservation)
      modifies this, journal
      ensures Valid() && old(history) <= history && StaleView(old(journal.streams), journal.streams)
      ensures result.Advanced? ==>
                && result == Advanced(Reconciling, round)
                && (reconciled || UncertaintyRecorded(journal.streams, r, reservation, knownNoEffect, usage))
    {
      ghost var before := journal.streams;
      hide Run, StaleView, AnalysisAfter, Plan, NewIds, Commits, Shaped, UncertaintyRecorded, AppendedOne;
      SelfView(before);
      if !reconciled {
        var a, _, _ := FreshIds();
        var op := AnalysisSteps.Reconcile(r, reservation, knownNoEffect, usage, a);
        SingleId(journal.streams, op);
        var appended, conflict := AppendOne(known, op);
        if appended.None? {
          return Threw;
        }
        UncertaintyShown(before, journal.streams, known, op);
      }
      ghost var first := journal.streams;
      var waiting := EnsureWaiting(r);
      ViewTrans(before, first, journal.streams);
      if !reconciled {
        UncertaintyIsLeft(first, journal.streams, r, reservation, knownNoEffect, usage);
      }
      result := if waiting then Advanced(Reconciling, round) else Threw;
    }

    /** The capsule ended in a known way: run, analysis and ledger are settled together; if the run was
      * overtaken, the analysis follows its ending or waits for an operator. */
    method SettleKnownTerminal(known: Streams, r: Id, rounds: nat, reservation: Event, outcome: Option<Outcome>,
                               usage: Usage, runVersion: nat, reconciled: bool)
      returns (result: Result, ghost followed: Option<RunEnding>)
      requires Valid() && StaleView(known, journal.streams) && StateAt(known, r).Some?
      requires OwnReservation(known, r, reservation)
      modifies this, journal
      ensures Valid() && old(history) <= history && StaleView(old(journal.streams), journal.streams)
      ensures result.Advanced? && result.progress != Reconciling ==>
                && ChargedSince(journal.streams, r, |Read(old(journal.streams), BudgetStream(r))|, usage)
                && var o := if followed.Some? then EndingOf(followed.value) else outcome;
                   result.progress == Ending(o) && EndingRecorded(journal.streams, r, o, reservation, usage)
      ensures result.Advanced? && result.progress == Reconciling ==>
                reconciled || UncertaintyRecorded(journal.streams, r, reservation, false, usage)
    {
      ghost var before := journal.streams;
      hide Run, StaleView, AnalysisAfter, ChargedSince, EndingRecorded, UncertaintyRecorded;
      followed := None;
      var settled, conflict := Settle(known, r, reservation, outcome, usage, 0, Some(runVersion));
      ghost var first := journal.streams;
      if settled {
        return Advanced(Ending(outcome), rounds), None;
      }
      if !conflict {
        return Threw, None;
      }
      ViewTrans(known, before, first);
      var winner, view := RequireRun(known, r);
      ghost var second := journal.streams;
      ViewTrans(before, first, second);
      if winner.lifecycle.Terminal? {
        followed := Some(winner.lifecycle.ending);
        result := SettleAgainstExternalTerminal(view, r, rounds, reservation, usage, winner.lifecycle.ending);
        if result.Advanced? {
          EarlierCharge(before, second, journal.streams, r, usage);
        }
      } else {
        result := ReconcileChangedRun(view, r, rounds + 1, reservation, usage, reconciled);
      }
      ViewTrans(before, second, journal.streams);
    }

    // ---------- Reservation and observation ----------

    /** Reserves the next round in both streams while the run is still at the version it was read at. The
      * ledger has been read after the analysis. */
    method ReserveAnalysisBudget(known: Streams, r: Id, st: AnalysisState, request: Id, runVersion: nat)
      returns (reservation: Option<Event>, conflict: bool)
      requires Valid() && StaleView(known, journal.streams) && LedgerKnown(history, known, r)
      requires StateAt(known, r) == Some(st) && MayReserve(known, r, st)
      modifies this, journal
      ensures Valid() && old(history) <= history && StaleView(old(journal.streams), journal.streams)
      ensures reservation.Some? ==>
                && reservation.value in Analysis(journal.streams, r) && reservation.value.payload.Reserved?
                && reservation.value.payload.request == request && reservation.value.payload.runVersion == runVersion
                && reservation.value.payload.round == |st.observed| + 1
                && ReservedSince(journal.streams, r, |Analysis(known, r)|, request)
    {
      hide Run, StaleView, AnalysisAfter, LedgerAfter, Guard, Plan, NewIds, Commits, ReservedSince, LedgerKnown,
           MayReserve;
      ghost var before := journal.streams;
      var a, b, c := FreshIds();
      var op := Reserve(r, request, c, runVersion, a, b);
      ThreeIds(before, op, a, b, c);
      ReserveGuard(known, st, op);
      var view: Option<Streams>;
      view, conflict := Append(known, op);
      if view.None? {
        return None, conflict;
      }
      ReservationShown(before, journal.streams, known, st, op);
      reservation := Some(Stored(AnalysisStream(r), |Analysis(known, r)|, Plan(known, known, op)[0].events[0]));
    }

    /** Observes the answer to the client's own reservation, charges it, and checks that the run has not moved. */
    method Observe(known: Streams, r: Id, reservation: Event, answer: Answered)
      returns (observed: Option<Event>, conflict: bool)
      requires Valid() && StaleView(known, journal.streams) && StateAt(known, r).Some?
               && OwnReservation(known, r, reservation)
      requires answer.Returned?
      modifies this, journal
      ensures Valid() && old(history) <= history && StaleView(old(journal.streams), journal.streams)
      ensures observed.Some? ==>
                && ChargedSince(journal.streams, r, |Read(old(journal.streams), BudgetStream(r))|, answer.usage)
                && observed.value in Analysis(journal.streams, r)
                && observed.value.payload ==
                     Observed(r, reservation.payload.round, answer.observations, answer.uncertainties, answer.usage,
                              reservation.payload.source, reservation.eventId)
    {
      hide Run, StaleView, AnalysisAfter, LedgerAfter, Guard, Plan, NewIds, Commits, ChargedSince, ReservedSince,
           LedgerKnown;
      ghost var before := journal.streams;
      var ledger, view := LearnLedger(known, r);
      ghost var first := journal.streams;
      if ledger.None? || ledger.value.pending.None? {
        return None, false;
      }
      var a, b, c := FreshIds();
      var op := AnalysisSteps.Observe(r, reservation, answer.observations, answer.uncertainties, answer.usage, a, b);
      ThreeIds(first, op, a, b, c);
      SameAnalysis(known, view, BudgetStream(r), r);
      ObserveGuard(view, op);
      var charged: bool;
      charged, conflict := Charge(view, op, answer.usage);
      ViewTrans(before, first, journal.streams);
      if !charged {
        return None, conflict;
      }
      EarlierCharge(before, first, journal.streams, r, answer.usage);
      ObservationShown(first, journal.streams, view, op);
      observed := Some(Stored(AnalysisStream(r), |Analysis(view, r)|, Plan(view, view, op)[0].events[0]));
    }

    /** The run goes on to planning, on the strength of a completed analysis. */
    method FinishRun(r: Id) returns (ok: bool)
      requires Valid()
      modifies this, journal
      ensures Valid() && old(history) <= history && StaleView(old(journal.streams), journal.streams)
    {
      hide *;
      ghost var before := journal.streams;
      NothingKnown(before);
      var run, _ := RequireRun(map[], r);
      ghost var first := journal.streams;
      if run.lifecycle == Planning {
        return true;
      }
      if run.lifecycle != Analyzing {
        return false;
      }
      var id := RunCommand(r, RunEvent(1));
      ViewTrans(before, first, journal.streams);
      ok := id.Some?;
    }

    /** After the observation: exhaustion, a question, an ending of the run, or completion. */
    method AfterObservation(known: Streams, r: Id, source: Payload, reservation: Event, answer: Answered, own: Event)
      returns (result: Result)
      requires Valid() && StaleView(known, journal.streams) && answer.Returned? && reservation.payload.Reserved?
      requires own in Analysis(journal.streams, r) && own.payload.Observed?
      requires own.payload.uncertainties == answer.uncertainties && own.payload.round == reservation.payload.round
      requires StateAt(known, r).Some? && StateAt(known, r).value.started == Some(source)
      modifies this, journal
      ensures Valid() && old(history) <= history && StaleView(old(journal.streams), journal.streams)
      ensures Founded(journal.streams, r, result)
    {
      hide Run, StaleView, AnalysisAfter, BudgetReason, HasMaterial, Founded, IsQuestionnaire, AskedAboutBudget;
      ghost var before := journal.streams;
      var events, view := Learn(known, AnalysisStream(r));
      ghost var first := journal.streams;
      var projected := ProjectAnalysis(r, events);
      if projected.None? || projected.value.budget.None? {
        ThrewIsFounded(first, r);
        return Threw;
      }
      var st := projected.value;
      AfterOwnRound(known, before, first, view, r, st, source, own);
      if BudgetReason(st.observed, st.budget.value, false).Some? {
        result := Exhaust(view, r, st, true);
        ExhaustedIsFounded(journal.streams, r, result);
        ViewTrans(before, first, journal.streams);
        return;
      }
      if answer.uncertainties != [] {
        var decision: Option<Evidence>;
        var asked: Streams;
        decision, asked := EnsureQuestionnaire(view, r, own.payload.round, answer.uncertainties);
        ghost var second := journal.streams;
        ViewTrans(before, first, second);
        if decision.None? {
          ThrewIsFounded(second, r);
          return Threw;
        }
        if HasMaterial(answer.uncertainties) {
          var waiting := EnsureWaiting(r);
          ViewTrans(before, second, journal.streams);
          ViewTrans(asked, second, journal.streams);
          WaitingIsFounded(asked, journal.streams, r, own.payload.round, answer.uncertainties, decision.value);
          ThrewIsFounded(journal.streams, r);
          result := if waiting then Advanced(Waiting, own.payload.round) else Threw;
          return;
        }
        ViewTrans(view, first, second);
        result := Complete(view, r, st, reservation, answer.usage, own.payload.round);
        ViewTrans(before, second, journal.streams);
        return;
      }
      NothingMaterial(answer.uncertainties);
      result := Complete(view, r, st, reservation, answer.usage, own.payload.round);
      ViewTrans(before, first, journal.streams);
    }

    /** Follows an ending of the run, waits for a changed one, or completes. */
    method Complete(known: Streams, r: Id, st: AnalysisState, reservation: Event, usage: Usage, round: nat)
      returns (result: Result)
      requires Valid() && StaleView(known, journal.streams) && reservation.payload.Reserved?
      requires StateAt(known, r) == Some(st) && MayComplete(st, round)
      modifies this, journal
      ensures Valid() && old(history) <= history && StaleView(old(journal.streams), journal.streams)
      ensures Founded(journal.streams, r, result)
    {
      hide Run, StaleView, AnalysisAfter, Guard, Plan, NewIds, Commits, BudgetReason, HasMaterial, Founded,
           CompletionRecorded;
      ghost var before := journal.streams;
      var run, view := RequireRun(known, r);
      ghost var first := journal.streams;
      SameAnalysis(known, view, RunStream(r), r);
      if run.lifecycle.Terminal? {
        var events := Read(view, RunStream(r));
        if events == [] {
          ThrewIsFounded(first, r);
          return Threw;
        }
        var id := events[|events| - 1].eventId;
        result := Follow(view, r, st, EndingOf(run.lifecycle.ending), id, reservation, usage);
        ViewTrans(before, first, journal.streams);
        EndedIsFounded(journal.streams, r, result);
        return;
      }
      if run.streamVersion != reservation.payload.runVersion {
        var waiting := EnsureWaiting(r);
        ViewTrans(before, first, journal.streams);
        result := if waiting then Advanced(Reconciling, |st.observed|) else Threw;
        EndedIsFounded(journal.streams, r, result);
        return;
      }
      var a, _, _ := FreshIds();
      var op := AnalysisSteps.Complete(r, round, a);
      SingleId(first, op);
      CompleteGuard(view, st, op);
      var appended, conflict := AppendOne(view, op);
      ghost var second := journal.streams;
      ViewTrans(before, first, second);
      if appended.None? {
        ThrewIsFounded(second, r);
        return Threw;
      }
      CompletionShown(first, second, view, st, op);
      var finished := FinishRun(r);
      ViewTrans(before, second, journal.streams);
      if !finished {
        ThrewIsFounded(journal.streams, r);
        return Threw;
      }
      CompletionRemains(second, journal.streams, r);
      CompletedIsFounded(journal.streams, r, round);
      result := Advanced(AnalysisCompleted, round);
    }

    /** The run has ended after the observation: so does the analysis, without another charge. */
    method Follow(known: Streams, r: Id, st: AnalysisState, outcome: Option<Outcome>, runEventId: Id,
                  reservation: Event,
                  usage: Usage)
      returns (result: Result)
      requires Valid() && StaleView(known, journal.streams) && StateAt(known, r) == Some(st) && |st.observed| > 0
      modifies this, journal
      ensures Valid() && old(history) <= history && StaleView(old(journal.streams), journal.streams)
      ensures result.Advanced? ==>
                && result == Advanced(Ending(outcome), |st.observed|)
                && EndingRecorded(journal.streams, r, outcome, reservation, usage)
    {
      ghost var before := journal.streams;
      hide *;
      var a, _, _ := FreshIds();
      var op := FollowOp(r, outcome, runEventId, reservation, usage, a);
      SingleFollow(journal.streams, r, outcome, runEventId, reservation, usage, a);
      FollowGuard(known, st, r, outcome, runEventId, reservation, usage, a);
      var appended, conflict := AppendOne(known, op);
      if appended.Some? {
        FollowShown(before, journal.streams, known, r, outcome, runEventId, reservation, usage, a);
      }
      result := if appended.Some? then Advanced(Ending(outcome), |st.observed|) else Threw;
    }

    // ---------- Dispatch ----------

    /** What became of the dispatched request: an uncertain outcome waits for an operator, a known ending is
      * settled, an answer is observed while the run is still where it was. */
    method Conclude(known: Streams, r: Id, rounds: nat, source: Payload, reservation: Event, env: Environment,
                    reconciled: bool)
      returns (result: Result, ghost followed: Option<RunEnding>)
      requires Valid() && StaleView(known, journal.streams) && OwnReservation(known, r, reservation)
      requires StateAt(known, r).Some? && StateAt(known, r).value.started == Some(source)
      modifies this, journal
      ensures Valid() && old(history) <= history && StaleView(old(journal.streams), journal.streams)
      ensures Founded(journal.streams, r, result)
      ensures result.Advanced? ==> AnsweredBy(env, result.progress)
      ensures result.Advanced? && env.answer.Raised? && result.progress != Reconciling ==>
                EndsLike(env.answer.outcome, followed, result.progress)
      ensures Paid(old(journal.streams), journal.streams, r, result, env.answer, reconciled)
    {
      hide Run, StaleView, AnalysisAfter, Founded, Paid, ChargedSince, UncertaintyRecorded,
           EndingRecorded;
      followed := None;
      match env.answer
      case Broken =>
        result := Reconcile(known, r, rounds + 1, reservation, false, NoUsage, false);
        UncertainIsPaid(old(journal.streams), journal.streams, r, result, env.answer, reconciled, reservation);
        EndedIsFounded(journal.streams, r, result);
      case Raised(outcome, cleanupUncertain, usage) =>
        if outcome == Uncertain || cleanupUncertain {
          result := Reconcile(known, r, rounds + 1, reservation, false, usage, false);
          UncertainIsPaid(old(journal.streams), journal.streams, r, result, env.answer, reconciled, reservation);
        } else {
          result, followed := SettleKnownTerminal(known, r, rounds, reservation, KnownOutcome(outcome), usage,
                                                  reservation.payload.runVersion, reconciled);
          SettledIsPaid(old(journal.streams), journal.streams, r, result, env.answer, reconciled, reservation);
        }
        EndedIsFounded(journal.streams, r, result);
      case Returned(_, _, usage) =>
        if env.abortedAfter {
          result, followed := SettleKnownTerminal(known, r, rounds, reservation, None, usage,
                                                  reservation.payload.runVersion, reconciled);
          SettledIsPaid(old(journal.streams), journal.streams, r, result, env.answer, reconciled, reservation);
          EndedIsFounded(journal.streams, r, result);
        } else {
          result := ObserveAnswer(known, r, rounds, source, reservation, env.answer, reconciled);
        }
    }

    method ObserveAnswer(known: Streams, r: Id, rounds: nat, source: Payload, reservation: Event, answer: Answered,
                         reconciled: bool) returns (result: Result)
      requires Valid() && StaleView(known, journal.streams) && OwnReservation(known, r, reservation) && answer.Returned?
      requires StateAt(known, r).Some? && StateAt(known, r).value.started == Some(source)
      modifies this, journal
      ensures Valid() && old(history) <= history && StaleView(old(journal.streams), journal.streams)
      ensures Founded(journal.streams, r, result)
      ensures Paid(old(journal.streams), journal.streams, r, result, answer, reconciled)
    {
      ghost var before := journal.streams;
      hide Run, StaleView, AnalysisAfter, Founded, Paid, ChargedSince;
      var run, view := RequireRun(known, r);
      ghost var first := journal.streams;
      SameAnalysis(known, view, RunStream(r), r);
      if run.lifecycle.Terminal? || run.streamVersion != reservation.payload.runVersion {
        result := Overtaken(view, r, rounds, reservation, answer, run, reconciled);
        ViewTrans(before, first, journal.streams);
        EarlierPaid(before, first, journal.streams, r, result, answer, reconciled);
        return;
      }
      var own, conflict := Observe(view, r, reservation, answer);
      ghost var second := journal.streams;
      ViewTrans(before, first, second);
      ViewTrans(view, first, second);
      if own.None? {
        if !conflict {
          ThrewIsFounded(second, r);
          ThrewIsPaid(before, second, r, answer, reconciled);
          return Threw;
        }
        var winner, now := RequireRun(view, r);
        ghost var third := journal.streams;
        SameAnalysis(view, now, RunStream(r), r);
        ViewTrans(before, second, third);
        result := Overtaken(now, r, rounds, reservation, answer, winner, reconciled);
        ViewTrans(before, third, journal.streams);
        EarlierPaid(before, third, journal.streams, r, result, answer, reconciled);
        return;
      }
      EarlierCharge(before, first, second, r, answer.usage);
      result := AfterObservation(view, r, source, reservation, answer, own.value);
      ViewTrans(before, second, journal.streams);
      ChargeRemains(second, journal.streams, r, |Read(before, BudgetStream(r))|, answer.usage);
      ChargedIsPaid(before, journal.streams, r, result, answer, reconciled);
    }

    /** The run moved while the capsule worked. */
    method Overtaken(known: Streams, r: Id, rounds: nat, reservation: Event, answer: Answered, run: RunView,
                     reconciled: bool)
      returns (result: Result)
      requires Valid() && StaleView(known, journal.streams) && OwnReservation(known, r, reservation) && answer.Returned?
      requires StateAt(known, r).Some?
      modifies this, journal
      ensures Valid() && old(history) <= history && StaleView(old(journal.streams), journal.streams)
      ensures Founded(journal.streams, r, result)
      ensures Paid(old(journal.streams), journal.streams, r, result, answer, reconciled)
    {
      hide Run, StaleView, AnalysisAfter, Founded, Paid, ChargedSince;
      if run.lifecycle.Terminal? {
        result := SettleAgainstExternalTerminal(known, r, rounds, reservation, answer.usage, run.lifecycle.ending);
        ChargedIsPaid(old(journal.streams), journal.streams, r, result, answer, reconciled);
      } else {
        result := ReconcileChangedRun(known, r, rounds + 1, reservation, answer.usage, reconciled);
        UncertainIsPaid(old(journal.streams), journal.streams, r, result, answer, reconciled, reservation);
      }
      EndedIsFounded(journal.streams, r, result);
    }

    /** Reserves a round, dispatches it to the capsule and concludes it. */
    method Dispatch(known: Streams, r: Id, st: AnalysisState, env: Environment)
      returns (result: Result, dispatched: bool)
      requires Valid() && StaleView(known, journal.streams) && StateAt(known, r) == Some(st)
      requires Idle(st) && LatestAnswered(st) && BudgetReason(st.observed, st.budget.value, true).None?
      modifies this, journal
      ensures Valid() && old(history) <= history && StaleView(old(journal.streams), journal.streams)
      ensures Founded(journal.streams, r, result)
      ensures dispatched ==> ReservedSince(journal.streams, r, |Analysis(known, r)|, env.request)
      ensures dispatched ==>
                && Paid(old(journal.streams), journal.streams, r, result, env.answer, st.reconciliation.Some?)
                && (result.Advanced? ==> AnsweredBy(env, result.progress))
    {
      ghost var before := journal.streams;
      hide Run, StaleView, AnalysisAfter, Founded, Paid, ReservedSince, BudgetReason, LatestAnswered, LedgerKnown,
           MayReserve;
      var ready, run, view := CheckLedger(known, r, st);
      ghost var second := journal.streams;
      if !ready {
        ThrewIsFounded(second, r);
        return Threw, false;
      }
      var reservation, conflict := ReserveAnalysisBudget(view, r, st, env.request, run.streamVersion);
      ghost var third := journal.streams;
      ViewTrans(before, second, third);
      ViewTrans(view, second, third);
      if reservation.None? {
        result := LostReservation(view, r, |st.observed|, run.streamVersion, conflict);
        ViewTrans(before, third, journal.streams);
        return result, false;
      }
      assert st.started.Some?;
      result, dispatched := Invoke(view, r, st, reservation.value, env);
      ViewTrans(before, third, journal.streams);
      if dispatched {
        ReservationRemains(third, journal.streams, r, |Analysis(known, r)|, env.request);
        EarlierPaid(before, third, journal.streams, r, result, env.answer, st.reconciliation.Some?);
      }
    }

    /** The ledger must have consumed what was observed and leave something; the run must be analyzing. */
    method CheckLedger(known: Streams, r: Id, st: AnalysisState) returns (ready: bool, run: RunView, view: Streams)
      requires Valid() && StaleView(known, journal.streams) && StateAt(known, r) == Some(st)
      requires Idle(st) && LatestAnswered(st) && BudgetReason(st.observed, st.budget.value, true).None?
      modifies this, journal
      ensures Valid() && old(history) <= history && StaleView(old(journal.streams), journal.streams)
      ensures StaleView(view, journal.streams)
      ensures ready ==>
                && MayReserve(view, r, st) && LedgerKnown(history, view, r) && run.lifecycle == Analyzing
                && StateAt(view, r) == Some(st) && Analysis(view, r) == Analysis(known, r)
    {
      ghost var before := journal.streams;
      Remembers(r, Analysis(known, r));
      hide Run, StaleView, AnalysisAfter, LedgerAfter, BudgetReason, SumUsage, LatestAnswered, Remaining, LedgerKnown;
      var ledger, ledgerView := LearnLedger(known, r);
      ghost var first := journal.streams;
      ghost var past := history;
      SameAnalysis(known, ledgerView, BudgetStream(r), r);
      run, view := RequireRun(ledgerView, r);
      SameAnalysis(ledgerView, view, RunStream(r), r);
      LedgerStaysKnown(past, history, ledgerView, view, r);
      ViewTrans(before, first, journal.streams);
      ready := ledger.Some? && ledger.value.consumed == SumUsage(st.observed) && ledger.value.pending.None?
               && Remaining(st.budget.value, ledger.value.consumed).Some? && run.lifecycle == Analyzing;
    }

    /** The reservation is this client's; from here on the process works on it. */
    method Invoke(known: Streams, r: Id, st: AnalysisState, reservation: Event, env: Environment)
      returns (result: Result, dispatched: bool)
      requires Valid() && StaleView(known, journal.streams) && StateAt(known, r) == Some(st) && st.started.Some?
      requires reservation in Analysis(journal.streams, r) && reservation.payload.Reserved?
      modifies this, journal
      ensures Valid() && old(history) <= history && StaleView(old(journal.streams), journal.streams)
      ensures Founded(journal.streams, r, result)
      ensures dispatched ==>
                && Paid(old(journal.streams), journal.streams, r, result, env.answer, st.reconciliation.Some?)
                && (result.Advanced? ==> AnsweredBy(env, result.progress))
      ensures env.hookFails ==> !dispatched && result == Threw
    {
      ghost var before := journal.streams;
      hide *;
      activeReservations := activeReservations + {reservation.eventId};
      var now, view := LearnAnalysis(known, r);
      ghost var first := journal.streams;
      if now.None? {
        activeReservations := activeReservations - {reservation.eventId};
        ThrewIsFounded(first, r);
        return Threw, false;
      }
      StillStarted(known, before, first, view, r, st, reservation);
      if env.hookFails {
        var recorded := Reconcile(view, r, |st.observed| + 1, reservation, true, NoUsage, false);
        activeReservations := activeReservations - {reservation.eventId};
        ViewTrans(before, first, journal.streams);
        ThrewIsFounded(journal.streams, r);
        return Threw, false;
      }
      dispatched := true;
      ghost var followed: Option<RunEnding>;
      result, followed := Conclude(view, r, |st.observed|, st.started.value, reservation, env, st.reconciliation.Some?);
      activeReservations := activeReservations - {reservation.eventId};
      ViewTrans(before, first, journal.streams);
      EarlierPaid(before, first, journal.streams, r, result, env.answer, st.reconciliation.Some?);
    }

    /** Another client was faster: an open reservation, an ending or a change of the run explains it. */
    method LostReservation(known: Streams, r: Id, rounds: nat, runVersion: nat, conflict: bool) returns (result: Result)
      requires Valid() && StaleView(known, journal.streams)
      modifies this, journal
      ensures Valid() && old(history) <= history && StaleView(old(journal.streams), journal.streams)
      ensures Founded(journal.streams, r, result)
    {
      ghost var before := journal.streams;
      hide Run, StaleView, AnalysisAfter, Founded;
      SelfView(before);
      ThrewIsFounded(before, r);
      if !conflict {
        return Threw;
      }
      var events, view := Learn(known, AnalysisStream(r));
      ghost var first := journal.streams;
      var concurrent := ProjectAnalysis(r, events);
      ThrewIsFounded(first, r);
      if concurrent.None? {
        return Threw;
      }
      if concurrent.value.reservation.Some? {
        Remembers(r, events);
        result := Advanced(Reconciling, concurrent.value.reservation.value.payload.round);
        EndedIsFounded(first, r, result);
        return;
      }
      var authoritative, _ := RequireRun(view, r);
      ViewTrans(before, first, journal.streams);
      result := if authoritative.lifecycle.Terminal? then
        Advanced(Ending(EndingOf(authoritative.lifecycle.ending)), rounds)
                else if authoritative.streamVersion != runVersion then Advanced(Reconciling, rounds + 1)
                else Threw;
      EndedIsFounded(journal.streams, r, result);
    }

    // ---------- Advancing ----------

    /** Starts the analysis; if another client was faster, its start is taken. */
    method AppendStart(known: Streams, r: Id, started: AnalysisState, requested: Budget, env: Environment)
      returns (st: Option<AnalysisState>, view: Streams)
      requires Valid() && StaleView(known, journal.streams) && StateAt(known, r) == Some(started)
      requires started.started.None? && !started.cancelled && started.terminal.None?
      requires requested.maxQuestionnaireOptions <= COMBINATION_CAP
      modifies this, journal
      ensures Valid() && old(history) <= history && StaleView(old(journal.streams), journal.streams)
      ensures StaleView(view, journal.streams)
      ensures st.Some? ==> StateAt(view, r) == st && Analysis(view, r) == Analysis(journal.streams, r)
    {
      ghost var before := journal.streams;
      hide *;
      var runEvents, runView := Learn(known, RunStream(r));
      ghost var first := journal.streams;
      SameAnalysis(known, runView, RunStream(r), r);
      var intake := FindIntake(runEvents, r);
      if intake.None? {
        return None, runView;
      }
      var appended, conflict := CommitStart(runView, r, started, requested, env, intake.value);
      ghost var second := journal.streams;
      ViewTrans(before, first, second);
      if appended.Some? {
        view := appended.value;
        st := Project(view, r);
        return;
      }
      ViewTrans(runView, first, second);
      if !conflict {
        return None, runView;
      }
      st, view := LearnAnalysis(runView, r);
      ViewTrans(before, second, journal.streams);
    }

    method CommitStart(known: Streams, r: Id, started: AnalysisState, requested: Budget, env: Environment, intake: Id)
      returns (view: Option<Streams>, conflict: bool)
      requires Valid() && StaleView(known, journal.streams) && StateAt(known, r) == Some(started)
      requires started.started.None? && !started.cancelled && started.terminal.None?
      requires requested.maxQuestionnaireOptions <= COMBINATION_CAP
      requires FindIntake(Read(known, RunStream(r)), r) == Some(intake)
      modifies this, journal
      ensures Valid() && old(history) <= history && StaleView(old(journal.streams), journal.streams)
      ensures view.Some? ==>
                StaleView(view.value, journal.streams) && Analysis(view.value, r) == Analysis(journal.streams, r)
    {
      hide *;
      var a, _, _ := FreshIds();
      var op := Start(r, env.snapshot, env.source, requested, env.sourceCount, intake, a);
      SingleStart(journal.streams, op);
      StartGuard(known, started, op);
      view, conflict := AppendOne(known, op);
    }

    /** Starts the analysis if nobody has, and holds it against the request and the retained intake. */
    method EnsureStarted(known: Streams, r: Id, started: AnalysisState, run: RunView, requested: Budget,
                         env: Environment)
      returns (st: Option<AnalysisState>, view: Streams)
      requires Valid() && StaleView(known, journal.streams) && StateAt(known, r) == Some(started)
      requires !started.cancelled && started.terminal.None? && requested.maxQuestionnaireOptions <= COMBINATION_CAP
      modifies this, journal
      ensures Valid() && old(history) <= history && StaleView(old(journal.streams), journal.streams)
      ensures StaleView(view, journal.streams)
      ensures st.Some? ==>
                && StateAt(view, r) == st && MatchesRequest(st.value, requested, env)
                && |Analysis(known, r)| <= |Analysis(view, r)|
    {
      ghost var before := journal.streams;
      hide Run, StaleView, AnalysisAfter, MatchesRequest;
      SelfView(before);
      view := known;
      st := Some(started);
      if started.started.None? {
        if run.lifecycle != Analyzing {
          return None, view;
        }
        st, view := AppendStart(known, r, started, requested, env);
        if st.None? {
          return;
        }
        LongerAnalysis(known, before, journal.streams, view, r);
      }
      if !MatchesRequest(st.value, requested, env) {
        st := None;
      }
    }

    /** Puts the open question of the latest round to the operator, and records the answer when it is there. */
    method AnswerRound(known: Streams, r: Id, st: AnalysisState)
      returns (result: Option<Result>, answered: AnalysisState, view: Streams)
      requires Valid() && StaleView(known, journal.streams) && StateAt(known, r) == Some(st) && Idle(st)
      requires UnansweredMaterial(st).Some?
      modifies this, journal
      ensures Valid() && old(history) <= history && StaleView(old(journal.streams), journal.streams)
      ensures StaleView(view, journal.streams)
      ensures result.Some? ==> Founded(journal.streams, r, result.value)
      ensures result.None? ==>
                && StateAt(view, r) == Some(answered) && Idle(answered) && LatestAnswered(answered)
                && |Analysis(known, r)| <= |Analysis(view, r)|
    {
      ghost var before := journal.streams;
      answered := st;
      RemembersRounds(r, Analysis(known, r));
      hide Run, StaleView, AnalysisAfter, Founded, IsQuestionnaire, Guard, Plan, NewIds, Commits, Combined,
           LatestAnswered,
           HasMaterial, UncertaintiesOf;
      var latest := UnansweredMaterial(st).value;
      LatestIsRound(st, latest);
      var us := latest.payload.uncertainties;
      var decision: Option<Evidence>;
      decision, view := EnsureQuestionnaire(known, r, latest.payload.round, us);
      ghost var first := journal.streams;
      ThrewIsFounded(first, r);
      if decision.None? {
        return Some(Threw), answered, view;
      }
      var d := decision.value;
      SameAnalysis(known, view, DecisionStream(d), r);
      var es := Read(view, DecisionStream(d));
      if |es| == 1 {
        var waiting := EnsureWaiting(r);
        ViewTrans(before, first, journal.streams);
        ViewTrans(view, first, journal.streams);
        WaitingIsFounded(view, journal.streams, r, latest.payload.round, us, d);
        ThrewIsFounded(journal.streams, r);
        result := Some(if waiting then Advanced(Waiting, latest.payload.round) else Threw);
        return;
      }
      if Acceptance(es).None? {
        RoundWaits(Analysis(view, r), r, st, latest, d);
        var cancelled := CancelFromDecision(view, r, d, |st.observed|);
        ViewTrans(before, first, journal.streams);
        ViewTrans(view, first, journal.streams);
        EndedIsFounded(journal.streams, r, cancelled);
        return Some(cancelled), answered, view;
      }
      var recorded: Option<AnalysisState>;
      recorded, view := RecordAnswer(view, r, st, latest, d);
      ViewTrans(before, first, journal.streams);
      ThrewIsFounded(journal.streams, r);
      if recorded.None? {
        return Some(Threw), answered, view;
      }
      answered := recorded.value;
      result := None;
    }

    /** Records the operator's accepted combination as the answer to the round. */
    method RecordAnswer(known: Streams, r: Id, st: AnalysisState, latest: Event, d: Evidence)
      returns (answered: Option<AnalysisState>, view: Streams)
      requires Valid() && StaleView(known, journal.streams) && StateAt(known, r) == Some(st) && Idle(st)
      requires UnansweredMaterial(st) == Some(latest) && latest.payload.Observed?
      requires IsQuestionnaire(d, r, latest.payload.round, latest.payload.uncertainties)
      requires Acceptance(Read(known, DecisionStream(d))).Some?
      modifies this, journal
      ensures Valid() && old(history) <= history && StaleView(old(journal.streams), journal.streams)
      ensures StaleView(view, journal.streams)
      ensures answered.Some? ==> AnswerRecorded(known, view, r, answered.value)
    {
      ghost var before := journal.streams;
      AnswerParts(st, Read(known, DecisionStream(d)));
      hide *;
      SelfView(before);
      view := known;
      var es := Read(known, DecisionStream(d));
      var offered := IsOffered(latest.payload.uncertainties, st.budget.value.maxQuestionnaireOptions, es);
      if !offered {
        return None, view;
      }
      var resumed := EnsureWaiting(r);
      ghost var second := journal.streams;
      ViewTrans(known, before, second);
      if !resumed {
        return None, view;
      }
      AnswerIsOffered(known, r, st, latest, d);
      var appended := CommitRevision(known, r, st, latest, d, Acceptance(es).value.payload.actor);
      ViewTrans(before, second, journal.streams);
      ViewTrans(known, second, journal.streams);
      if appended.None? {
        return None, known;
      }
      view := appended.value;
      answered := Project(view, r);
    }

    method IsOffered(us: seq<Uncertainty>, cap: nat, es: seq<Event>) returns (offered: bool)
      ensures offered <==> Offered(us, cap, es)
    {
      hide Combined;
      var vectors := CombinedQuestionnaireOptions(us, cap);
      offered := vectors.Some? && PacketOf(es).Some? && Acceptance(es).Some?
                 && Acceptance(es).value.payload.optionId.Combination?
                 && Acceptance(es).value.payload.optionId.selections in vectors.value
                 && Acceptance(es).value.payload.actor.kind == Operator;
    }

    method CommitRevision(known: Streams, r: Id, st: AnalysisState, latest: Event, d: Evidence, actor: Actor)
      returns (view: Option<Streams>)
      requires Valid() && StaleView(known, journal.streams) && Answering(known, r, st, latest, d)
      modifies this, journal
      ensures Valid() && old(history) <= history && StaleView(old(journal.streams), journal.streams)
      ensures view.Some? ==> StaleView(view.value, journal.streams)
      ensures view.Some? && StateAt(view.value, r).Some? ==>
              AnswerRecorded(known, view.value, r, StateAt(view.value, r).value)
    {
      ghost var before := journal.streams;
      hide *;
      var a, _, _ := FreshIds();
      var op := Revise(r, actor, a);
      SingleRevision(before, op);
      ReviseGuard(known, st, op, latest, d);
      var conflict: bool;
      view, conflict := AppendOne(known, op);
      if view.Some? {
        RevisionRecorded(before, journal.streams, known, view.value, st, op, latest, d);
      }
    }

    /** An ended run: the analysis ends with it, or waits for its open reservation to be reconciled. */
    method FollowEndedRun(known: Streams, r: Id, st: AnalysisState, ending: RunEnding) returns (result: Result)
      requires Valid() && StaleView(known, journal.streams) && StateAt(known, r) == Some(st)
      modifies this, journal
      ensures Valid() && old(history) <= history && StaleView(old(journal.streams), journal.streams)
      ensures Founded(journal.streams, r, result)
    {
      ghost var before := journal.streams;
      Remembers(r, Analysis(known, r));
      hide Run, StaleView, AnalysisAfter, Founded, NewIds, Plan, Commits, Shaped;
      SelfView(before);
      ThrewIsFounded(before, r);
      if st.reservation.Some? {
        if st.reconciliation.None? {
          var a, _, _ := FreshIds();
          var op := AnalysisSteps.Reconcile(r, st.reservation.value, false, NoUsage, a);
          SingleId(before, op);
          var appended, conflict := AppendOne(known, op);
          ThrewIsFounded(journal.streams, r);
          if appended.None? {
            return Threw;
          }
        }
        result := Advanced(Reconciling, st.reservation.value.payload.round);
        EndedIsFounded(journal.streams, r, result);
        return;
      }
      if ending == RunWasCancelled {
        if !st.cancelled && !st.completed {
          result := EndCancelled(known, r, st);
          EndedIsFounded(journal.streams, r, result);
          return;
        }
        result := Advanced(AnalysisCancelled, |st.observed|);
        EndedIsFounded(journal.streams, r, result);
        return;
      }
      if (ending == RunTimedOut && st.terminal == Some(TimedOut))
          || (ending == RunFailed && st.terminal == Some(Failed)) {
        result := Advanced(AnalysisEnded(st.terminal.value), |st.observed|);
        EndedIsFounded(journal.streams, r, result);
        return;
      }
      result := Threw;
    }

    method EndCancelled(known: Streams, r: Id, st: AnalysisState) returns (result: Result)
      requires Valid() && StaleView(known, journal.streams) && StateAt(known, r) == Some(st)
      requires !st.cancelled && !st.completed && st.reservation.None?
      modifies this, journal
      ensures Valid() && old(history) <= history && StaleView(old(journal.streams), journal.streams)
      ensures result.Advanced? ==> result == Advanced(AnalysisCancelled, |st.observed|)
    {
      ghost var before := journal.streams;
      hide Run, StaleView, AnalysisAfter, NewIds, Plan, Commits, Shaped;
      var run, view := Learn(known, RunStream(r));
      ghost var first := journal.streams;
      SameAnalysis(known, view, RunStream(r), r);
      if run == [] {
        return Threw;
      }
      var id := run[|run| - 1].eventId;
      var a, _, _ := FreshIds();
      var op := Close(r, RunCancelled, Cancelled(r, id), id, a);
      SingleId(first, op);
      var appended, conflict := AppendOne(view, op);
      ViewTrans(before, first, journal.streams);
      result := if appended.Some? then Advanced(AnalysisCancelled, |st.observed|) else Threw;
    }

    /** A reservation nobody in this process works on is put on record for an operator. */
    method AwaitReservation(known: Streams, r: Id, st: AnalysisState) returns (result: Result)
      requires Valid() && StaleView(known, journal.streams) && StateAt(known, r) == Some(st) && st.reservation.Some?
      modifies this, journal
      ensures Valid() && old(history) <= history && StaleView(old(journal.streams), journal.streams)
      ensures result.Advanced? ==> result.progress == Reconciling
    {
      Remembers(r, Analysis(known, r));
      hide Run, StaleView, AnalysisAfter;
      SelfView(journal.streams);
      var own := st.reservation.value;
      if own.eventId in activeReservations {
        return Advanced(Reconciling, own.payload.round);
      }
      result := Reconcile(known, r, own.payload.round, own, false, NoUsage, st.reconciliation.Some?);
    }

    /** One step of an analysis. A request is dispatched to the capsule only after it has been reserved in both
      * streams; what a dispatched request used is charged unless its outcome is left for an operator; and a
      * waiting, exhausted or completed analysis is one on the record. */
    method Advance(r: Id, requested: Budget, env: Environment) returns (result: Result, dispatched: bool)
      requires Valid()
      modifies this, journal
      ensures Valid() && old(history) <= history && StaleView(old(journal.streams), journal.streams)
      ensures Founded(journal.streams, r, result)
      ensures dispatched ==>
                && ReservedSince(journal.streams, r, |Analysis(old(journal.streams), r)|, env.request)
                && Paid(old(journal.streams), journal.streams, r, result, env.answer, Unresolved(journal.streams, r))
                && (result.Advanced? ==> AnsweredBy(env, result.progress))
      ensures Bounds.Bounded(Analysis(journal.streams, r))
      ensures Bounds.Granted(Analysis(journal.streams, r), Read(journal.streams, BudgetStream(r)))
    {
      ghost var before := journal.streams;
      hide *;
      SelfView(before);
      NothingKnown(before);
      ThrewIsFounded(before, r);
      if requested.maxQuestionnaireOptions > COMBINATION_CAP {
        StaysBounded(r);
        return Threw, false;
      }
      var now, analysis := LearnAnalysis(map[], r);
      ghost var first := journal.streams;
      var run, known := RequireRun(analysis, r);
      ghost var second := journal.streams;
      ViewTrans(before, first, second);
      LongerAnalysis(before, before, first, analysis, r);
      SameAnalysis(analysis, known, RunStream(r), r);
      ThrewIsFounded(second, r);
      if now.None? || !env.withinRun {
        StaysBounded(r);
        return Threw, false;
      }
      if run.lifecycle.Terminal? {
        result := FollowEndedRun(known, r, now.value, run.lifecycle.ending);
        dispatched := false;
      } else {
        result, dispatched := AdvanceLive(known, r, now.value, run, requested, env);
      }
      ViewTrans(before, second, journal.streams);
      if dispatched {
        EarlierReserved(before, known, journal.streams, r, env.request);
        EarlierPaid(before, second, journal.streams, r, result, env.answer, Unresolved(journal.streams, r));
      }
      StaysBounded(r);
    }

    /** The run so far kept every limit. */
    lemma StaysBounded(r: Id)
      requires Valid()
      ensures Bounds.Bounded(Analysis(journal.streams, r))
      ensures Bounds.Granted(Analysis(journal.streams, r), Read(journal.streams, BudgetStream(r)))
    {
      hide Run, Bounds.Bounded, Bounds.Granted;
      Bounds.RunIsBounded(history, |history| - 1, r);
      Bounds.RunIsGranted(history, |history| - 1, r);
    }

    method AdvanceLive(known: Streams, r: Id, now: AnalysisState, run: RunView, requested: Budget, env: Environment)
      returns (result: Result, dispatched: bool)
      requires Valid() && StaleView(known, journal.streams) && StateAt(known, r) == Some(now)
      requires requested.maxQuestionnaireOptions <= COMBINATION_CAP
      modifies this, journal
      ensures Valid() && old(history) <= history && StaleView(old(journal.streams), journal.streams)
      ensures Founded(journal.streams, r, result)
      ensures dispatched ==>
                && ReservedSince(journal.streams, r, |Analysis(known, r)|, env.request)
                && Paid(old(journal.streams), journal.streams, r, result, env.answer, Unresolved(journal.streams, r))
                && (result.Advanced? ==> AnsweredBy(env, result.progress))
    {
      ghost var before := journal.streams;
      hide *;
      dispatched := false;
      if now.cancelled || now.terminal.Some? {
        var followed := RunCommand(r, RunTerminal);
        result := if followed.None? then Threw
                  else if now.cancelled then Advanced(AnalysisCancelled, |now.observed|)
                  else Advanced(AnalysisEnded(now.terminal.value), |now.observed|);
        EndedIsFounded(journal.streams, r, result);
        return;
      }
      if now.completed && run.lifecycle == Planning {
        SelfView(before);
        WasCompleted(known, before, before, r, now, |now.observed|);
        return Advanced(AnalysisCompleted, |now.observed|), false;
      }
      var started, view := EnsureStarted(known, r, now, run, requested, env);
      ghost var first := journal.streams;
      ThrewIsFounded(first, r);
      if started.None? {
        return Threw, false;
      }
      result, dispatched := AdvanceStarted(view, r, started.value, requested, env);
      ViewTrans(before, first, journal.streams);
      if dispatched {
        LaterReserved(known, view, journal.streams, r, env.request);
        EarlierPaid(before, first, journal.streams, r, result, env.answer, Unresolved(journal.streams, r));
      }
    }

    method AdvanceStarted(known: Streams, r: Id, st: AnalysisState, requested: Budget, env: Environment)
      returns (result: Result, dispatched: bool)
      requires Valid() && StaleView(known, journal.streams) && StateAt(known, r) == Some(st)
      requires MatchesRequest(st, requested, env)
      modifies this, journal
      ensures Valid() && old(history) <= history && StaleView(old(journal.streams), journal.streams)
      ensures Founded(journal.streams, r, result)
      ensures dispatched ==>
                && ReservedSince(journal.streams, r, |Analysis(known, r)|, env.request)
                && Paid(old(journal.streams), journal.streams, r, result, env.answer, Unresolved(journal.streams, r))
                && (result.Advanced? ==> AnsweredBy(env, result.progress))
    {
      ghost var before := journal.streams;
      MatchedIsIdle(st, requested, env);
      hide *;
      dispatched := false;
      if st.completed {
        var finished := FinishRun(r);
        WasCompleted(known, before, journal.streams, r, st, |st.observed|);
        ThrewIsFounded(journal.streams, r);
        result := if finished then Advanced(AnalysisCompleted, |st.observed|) else Threw;
        return;
      }
      if st.reservation.Some? {
        result := AwaitReservation(known, r, st);
        EndedIsFounded(journal.streams, r, result);
        return;
      }
      if st.exhaustion.Some? {
        result := HandleExhaustion(known, r, st);
        HandledIsFounded(journal.streams, r, result, |st.observed|);
        return;
      }
      // Only after a start was lost to another client; its run has ended too, which forbids a dispatch.
      if st.cancelled || st.terminal.Some? {
        SelfView(before);
        ThrewIsFounded(before, r);
        return Threw, false;
      }
      var ready, view := st, known;
      SelfView(before);
      if UnansweredMaterial(st).Some? {
        var answered: Option<Result>;
        answered, ready, view := AnswerRound(known, r, st);
        if answered.Some? {
          return answered.value, false;
        }
      } else {
        NothingOpen(st);
      }
      ghost var first := journal.streams;
      result, dispatched := AdvanceAnswered(view, r, ready, env);
      ViewTrans(before, first, journal.streams);
      if dispatched {
        LaterReserved(known, view, journal.streams, r, env.request);
        EarlierPaid(before, first, journal.streams, r, result, env.answer, Unresolved(journal.streams, r));
      }
    }

    method AdvanceAnswered(known: Streams, r: Id, st: AnalysisState, env: Environment)
      returns (result: Result, dispatched: bool)
      requires Valid() && StaleView(known, journal.streams) && StateAt(known, r) == Some(st)
      requires Idle(st) && LatestAnswered(st)
      modifies this, journal
      ensures Valid() && old(history) <= history && StaleView(old(journal.streams), journal.streams)
      ensures Founded(journal.streams, r, result)
      ensures dispatched ==>
                && ReservedSince(journal.streams, r, |Analysis(known, r)|, env.request)
                && Paid(old(journal.streams), journal.streams, r, result, env.answer, Unresolved(journal.streams, r))
                && (result.Advanced? ==> AnsweredBy(env, result.progress))
    {
      IdleHasBudget(st);
      hide *;
      dispatched := false;
      if BudgetReason(st.observed, st.budget.value, true).Some? {
        result := Exhaust(known, r, st, false);
        ExhaustedIsFounded(journal.streams, r, result);
      } else if env.aborted {
        result := CancelSafely(known, r, |st.observed|);
        EndedIsFounded(journal.streams, r, result);
      } else {
        ghost var before := journal.streams;
        result, dispatched := Dispatch(known, r, st, env);
        if dispatched {
          ViewTrans(known, before, journal.streams);
          PaidOrUnresolved(known, st, before, journal.streams, r, result, env.answer);
        }
      }
    }

    // ---------- Operators ----------

    /** An operator resolves a reservation whose outcome is uncertain: it is released if it is known to have had
      * no effect, and otherwise charged and failed. */
    method ReconcileInvocation(r: Id, release: bool, actor: Actor) returns (result: Result)
      requires Valid()
      modifies this, journal
      ensures Valid() && old(history) <= history && StaleView(old(journal.streams), journal.streams)
      ensures result.Advanced? ==> actor.kind == Operator
      ensures release && result.Advanced? ==> result.progress == Reconciling
      ensures result.Advanced? && (release || result.progress != Reconciling) ==>
                SettledByOperator(old(journal.streams), journal.streams, r, release)
    {
      ghost var before := journal.streams;
      hide Run, StaleView, AnalysisAfter, ChargedSince, Pending, OwnReservation, SettledByOperator;
      SelfView(before);
      NothingKnown(before);
      if actor.kind != Operator {
        return Threw;
      }
      var now, known := LearnAnalysis(map[], r);
      ghost var first := journal.streams;
      if now.None? || now.value.reconciliation.None? || now.value.reservation.None? {
        return Threw;
      }
      var st := now.value;
      Remembers(r, Analysis(known, r));
      if release {
        if !st.reconciliation.value.payload.knownNoEffect {
          return Threw;
        }
        var released := Release(known, r, st, actor);
        ghost var second := journal.streams;
        ViewTrans(before, first, second);
        if !released {
          return Threw;
        }
        EarlierCharge(before, first, second, r, NoUsage);
        var resumed := EnsureWaiting(r);
        ViewTrans(before, second, journal.streams);
        ChargeRemains(second, journal.streams, r, |Read(before, BudgetStream(r))|, NoUsage);
        ViewTrans(first, second, journal.streams);
        OperatorSettles(before, first, journal.streams, r, st.reconciliation.value, true);
        return if resumed then Advanced(Reconciling, |st.observed| + 1) else Threw;
      }
      var run, view := RequireRun(known, r);
      ghost var second := journal.streams;
      ViewTrans(before, first, second);
      SameAnalysis(known, view, RunStream(r), r);
      IsOwn(view, r, st.reservation.value);
      var usage := st.reconciliation.value.payload.usage;
      ghost var followed: Option<RunEnding>;
      result, followed := SettleKnownTerminal(view, r, |st.observed|, st.reservation.value, Some(Failed), usage,
                                              run.streamVersion, true);
      ViewTrans(before, second, journal.streams);
      if result.Advanced? && result.progress != Reconciling {
        EarlierCharge(before, second, journal.streams, r, usage);
        ViewTrans(first, second, journal.streams);
        OperatorSettles(before, first, journal.streams, r, st.reconciliation.value, false);
      }
    }

    method Release(known: Streams, r: Id, st: AnalysisState, actor: Actor) returns (released: bool)
      requires Valid() && StaleView(known, journal.streams) && StateAt(known, r) == Some(st) && Releasable(st, actor)
      modifies this, journal
      ensures Valid() && old(history) <= history && StaleView(old(journal.streams), journal.streams)
      ensures released ==> ChargedSince(journal.streams, r, |Read(old(journal.streams), BudgetStream(r))|, NoUsage)
    {
      ghost var before := journal.streams;
      hide *;
      var ledger, view := LearnLedger(known, r);
      ghost var first := journal.streams;
      if ledger.None? || ledger.value.pending.None? {
        return false;
      }
      var a, b, c := FreshIds();
      var op := AnalysisSteps.Release(r, actor, a, b);
      ThreeIds(first, op, a, b, c);
      SameAnalysis(known, view, BudgetStream(r), r);
      ReleaseGuard(view, st, op);
      var conflict: bool;
      released, conflict := Charge(view, op, NoUsage);
      ViewTrans(before, first, journal.streams);
      if released {
        EarlierCharge(before, first, journal.streams, r, NoUsage);
      }
    }

    /** An exhausted analysis goes on with a strictly higher budget that covers what was consumed, after two
      * accepted decisions: to wait for a revision, and an operator's for exactly this budget. */
    method ReviseBudget(r: Id, budget: Budget, withinRun: bool) returns (result: Result)
      requires Valid()
      modifies this, journal
      ensures Valid() && old(history) <= history && StaleView(old(journal.streams), journal.streams)
      ensures result.Advanced? ==> RaisedTo(journal.streams, r, budget)
    {
      ghost var before := journal.streams;
      hide *;
      var ready, known, st := PrepareRaise(r, budget, withinRun);
      ghost var first := journal.streams;
      if !ready {
        return Threw;
      }
      var raised := CommitBudget(known, r, st, budget);
      ghost var second := journal.streams;
      ViewTrans(before, first, second);
      if !raised {
        return Threw;
      }
      var resumed := EnsureWaiting(r);
      ViewTrans(before, second, journal.streams);
      RaiseRemains(second, journal.streams, r, budget);
      result := if resumed then Advanced(Waiting, |st.observed|) else Threw;
    }

    /** Reads the analysis, then the ledger, then the decisions, and checks the proposed budget against them. */
    method PrepareRaise(r: Id, budget: Budget, withinRun: bool) returns (ready: bool, view: Streams, st: AnalysisState)
      requires Valid()
      modifies this, journal
      ensures Valid() && old(history) <= history && StaleView(old(journal.streams), journal.streams)
      ensures ready ==>
                && StaleView(view, journal.streams) && LedgerKnown(history, view, r)
                && StateAt(view, r) == Some(st) && MayRaise(view, r, st, budget)
    {
      ghost var before := journal.streams;
      hide *;
      NothingKnown(before);
      var now, known := LearnAnalysis(map[], r);
      ghost var first := journal.streams;
      view, st := known, Fresh;
      if now.None? || now.value.exhaustion.None? || now.value.budget.None? || !withinRun
         || budget.maxQuestionnaireOptions > COMBINATION_CAP {
        return false, view, st;
      }
      st := now.value;
      var ledger: Option<Ledger>;
      ledger, view := LearnLedger(known, r);
      ghost var second := journal.streams;
      ghost var past := history;
      ViewTrans(before, first, second);
      SameAnalysis(known, view, BudgetStream(r), r);
      if ledger.None? || !Covers(budget, ledger.value.consumed) || !StrictlyHigher(budget, st.budget.value) {
        return false, view, st;
      }
      ghost var ledgerView := view;
      ready, view := BudgetDecisions(view, r, st, budget);
      ViewTrans(before, second, journal.streams);
      StillLedger(past, history, ledgerView, view, r);
      if ready {
        RaiseIsAllowed(view, r, st, budget);
      }
    }

    /** Both decisions, asked for if they are not there yet. */
    method BudgetDecisions(known: Streams, r: Id, st: AnalysisState, budget: Budget)
      returns (accepted: bool, view: Streams)
      requires Valid() && StaleView(known, journal.streams) && StateAt(known, r) == Some(st) && st.exhaustion.Some?
      modifies this, journal
      ensures Valid() && old(history) <= history && StaleView(old(journal.streams), journal.streams)
      ensures StaleView(view, journal.streams)
      ensures Analysis(view, r) == Analysis(known, r) && Read(view, BudgetStream(r)) == Read(known, BudgetStream(r))
      ensures accepted ==> BothAccepted(view, r, st, budget)
    {
      ghost var before := journal.streams;
      Remembers(r, Analysis(known, r));
      hide Run, StaleView, AnalysisAfter;
      view := known;
      var evidence := st.exhaustion.value.payload.evidence;
      SelfView(before);
      if !evidence.ExhaustionEvidence? {
        return false, view;
      }
      var asked: bool;
      asked, view := EnsureBudgetAttention(known, r, evidence);
      ghost var first := journal.streams;
      if !asked || !AcceptedAs(view, evidence, AwaitRevision) {
        return false, view;
      }
      var proposal := RevisionEvidence(r, st.exhaustion.value.eventId, budget);
      ghost var waiting := view;
      asked, view := EnsureBudgetRevisionGate(view, r, proposal);
      ViewTrans(before, first, journal.streams);
      assert Read(view, DecisionStream(evidence)) == Read(waiting, DecisionStream(evidence));
      accepted := asked && AcceptedBy(view, proposal, ApplyRevision);
    }

    method CommitBudget(known: Streams, r: Id, st: AnalysisState, budget: Budget) returns (raised: bool)
      requires Valid() && StaleView(known, journal.streams) && LedgerKnown(history, known, r)
      requires StateAt(known, r) == Some(st) && MayRaise(known, r, st, budget)
      modifies this, journal
      ensures Valid() && old(history) <= history && StaleView(old(journal.streams), journal.streams)
      ensures raised ==> RaisedTo(journal.streams, r, budget)
    {
      ghost var before := journal.streams;
      hide *;
      var a, _, _ := FreshIds();
      var op := AnalysisSteps.ReviseBudget(r, budget, a);
      SingleBudget(before, op);
      RaiseGuard(known, st, op);
      var appended, conflict := Append(known, op);
      raised := appended.Some?;
      if raised {
        RaiseShown(before, journal.streams, known, st, op);
      }
    }
  }

  function QuestionnairePacket(r: Id, round: nat, canonical: seq<Uncertainty>, vectors: seq<seq<Selection>>): Packet {
    Packet(QuestionnaireEvidence(r, round, canonical), r, canonical, Combinations(vectors), HasMaterial(canonical))
  }

  predicate IsQuestionnaire(decision: Evidence, r: Id, round: nat, us: seq<Uncertainty>) {
    && QuestionnaireFor(r, round, us) == Some(decision) && decision.QuestionnaireEvidence?
    && decision.runId == r && decision.round == round && (HasMaterial(decision.uncertainties) <==> HasMaterial(us))
  }

  lemma PacketIsGenuine(r: Id, round: nat, us: seq<Uncertainty>, vectors: seq<seq<Selection>>)
    requires CanonicalUncertainties(us).Some?
    ensures var packet := QuestionnairePacket(r, round, CanonicalUncertainties(us).value, vectors);
      Genuine(packet) && IsQuestionnaire(packet.evidence, r, round, us)
  {
    CanonicalIsFixed(us);
    MaterialIsKept(us);
    hide CanonicalUncertainties, HasMaterial;
  }

  /** The journal at the moment the ledger was read, or now if it was not. */
  ghost function ReadMoment(history: seq<Streams>, known: Streams, op: Op): (t: Streams)
    requires Run(history) && StaleView(known, history[|history| - 1])
    requires AnalysisOp(op) && UsesLedger(op) ==> LedgerKnown(history, known, op.runId)
    ensures Moment(history, t) && StaleView(t, history[|history| - 1])
    ensures AnalysisOp(op) ==> Analysis(known, op.runId) <= Analysis(t, op.runId)
    ensures AnalysisOp(op) && UsesLedger(op) ==> Read(known, BudgetStream(op.runId)) == Read(t, BudgetStream(op.runId))
  {
    if AnalysisOp(op) && UsesLedger(op) then
      var j :| 0 <= j < |history| && LedgerReadAt(history, j, known, op.runId);
      RunGrows(history, j, |history| - 1);
      history[j]
    else history[|history| - 1]
  }

  lemma MakesStep(t: Streams, s: Streams, s': Streams, v: Streams, op: Op)
    requires StaleView(v, s) && StaleView(t, s) && (AnalysisOp(op) ==> Analysis(v, op.runId) <= Analysis(t, op.runId))
    requires Guard(v, v, op) && Guard(v, t, op) && Plan(v, v, op) == Plan(v, t, op) && NewIds(s, op)
    requires Accepts(s, Plan(v, v, op)) && s' == Applied(s, Plan(v, v, op))
    ensures Step(t, s, s', v, op)
  {
  }

  lemma SelfView(s: Streams)
    ensures StaleView(s, s)
  {
  }

  lemma NothingKnown(s: Streams)
    ensures StaleView(map[], s)
  {
  }

  lemma SingleId(s: Streams, op: Op)
    requires op.Elsewhere? || op.Ask? || op.Start? || op.Reconcile? || op.Revise? || op.Exhaust? || op.ReviseBudget?
             || op.Complete? || op.Close?
    requires Unused(s, op.id)
    ensures NewIds(s, op)
  {
  }

  lemma SingleStart(s: Streams, op: Op)
    requires op.Start? && Unused(s, op.id)
    ensures NewIds(s, op)
  {
  }

  lemma SingleRevision(s: Streams, op: Op)
    requires op.Revise? && Unused(s, op.id)
    ensures NewIds(s, op)
  {
  }

  lemma ThreeIds(s: Streams, op: Op, a: Id, b: Id, c: Id)
    requires Unused(s, a) && Unused(s, b) && Unused(s, c) && a != b && b != c && a != c
    requires (op.Settle? && op.id == a && op.ledgerId == b && (op.endsRun.Some? ==> op.runEventId == c))
             || ((op.Reserve? || op.Observe? || op.Release?) && op.id == a && op.ledgerId == b)
    ensures NewIds(s, op)
  {
  }

  /** Learning something else leaves the client's analysis as it was. */
  lemma SameAnalysis(known: Streams, view: Streams, x: StreamId, r: Id)
    requires view == known[x := Read(view, x)] && x != AnalysisStream(r)
    ensures Analysis(view, r) == Analysis(known, r) && StateAt(view, r) == StateAt(known, r)
  {
  }

  lemma SettleGuard(v: Streams, op: Op)
    requires op.Settle? && StateAt(v, op.runId).Some? && LedgerAt(v, op.runId).Some?
    requires LedgerAt(v, op.runId).value.pending.Some?
    ensures Guard(v, v, op) && AnalysisOp(op) && Charges(op) && ChargedUsage(op) == op.usage
  {
    PendingIsReserved(op.runId, Read(v, BudgetStream(op.runId)));
    hide AnalysisAfter, LedgerAfter;
  }

  // ---------- What a commit shows ----------

  /** The commit appended the one event of its plan to the analysis, and touched no ledger. */
  ghost predicate AppendedOne(s: Streams, s': Streams, v: Streams, op: Op) {
    && AnalysisOp(op) && !UsesLedger(op) && Guard(v, v, op) && Shaped(Plan(v, v, op), op.runId, false)
    && Analysis(v, op.runId) == Analysis(s, op.runId)
    && Commits(s, s', op.runId, Plan(v, v, op)[0].events[0], None)
  }

  lemma ChargeShown(s: Streams, s': Streams, v: Streams, op: Op)
    requires Charges(op) && Guard(v, v, op) && Shaped(Plan(v, v, op), op.runId, true)
    requires Commits(s, s', op.runId, Plan(v, v, op)[0].events[0], Some(Plan(v, v, op)[1].events[0]))
    ensures ChargedSince(s', op.runId, |Read(s, BudgetStream(op.runId))|, ChargedUsage(op))
  {
    PlanShapeUncharged(v, v, op);
    hide AnalysisAfter, LedgerAfter, Guard, Plan, AnalysisEvent;
    var b := Read(s', BudgetStream(op.runId));
    assert IsCharge(b[|Read(s, BudgetStream(op.runId))|], ChargedUsage(op));
  }

  lemma ExhaustionWaits(a: seq<Event>, r: Id, st: AnalysisState, d: Evidence)
    requires AnalysisAfter(r, a) == Some(st) && st.exhaustion.Some? && IsExhaustion(st.exhaustion.value, d)
    ensures WaitsAt(a, r, d)
  {
    hide AnalysisAfter;
  }

  lemma RoundWaits(a: seq<Event>, r: Id, st: AnalysisState, latest: Event, d: Evidence)
    requires AnalysisAfter(r, a) == Some(st) && Idle(st) && UnansweredMaterial(st) == Some(latest)
    requires latest.payload.Observed? && IsQuestionnaire(d, r, latest.payload.round, latest.payload.uncertainties)
    ensures WaitsAt(a, r, d)
  {
    hide AnalysisAfter, QuestionnaireFor, UnansweredMaterial;
  }

  lemma AskedBefore(known: Streams, s: Streams, view: Streams, r: Id, d: Evidence)
    requires WaitsAt(Analysis(known, r), r, d) && StaleView(known, s) && Analysis(view, r) == Analysis(s, r)
    ensures OwnQuestion(view, r, d)
  {
    hide WaitsAt;
    var n := |Analysis(known, r)|;
    assert Analysis(known, r) <= Analysis(s, r);
    assert Analysis(view, r)[..n] == Analysis(known, r);
  }

  lemma EarlierCharge(before: Streams, first: Streams, now: Streams, r: Id, usage: Usage)
    requires StaleView(before, first) && ChargedSince(now, r, |Read(first, BudgetStream(r))|, usage)
    ensures ChargedSince(now, r, |Read(before, BudgetStream(r))|, usage)
  {
    assert Read(before, BudgetStream(r)) <= Read(first, BudgetStream(r));
    var k :| |Read(first, BudgetStream(r))| <= k < |Read(now, BudgetStream(r))|
             && IsCharge(Read(now, BudgetStream(r))[k], usage);
  }

  predicate IsExhaustion(e: Event, evidence: Evidence) {
    e.payload.Exhausted? && e.payload.evidence == evidence
  }

  ghost predicate ExhaustedOn(s: Streams, r: Id, evidence: Evidence) {
    exists e :: e in Analysis(s, r) && IsExhaustion(e, evidence)
  }

  lemma ExhaustionShown(s: Streams, s': Streams, v: Streams, st: AnalysisState, op: Op, evidence: Evidence)
    requires op.Exhaust? && AppendedOne(s, s', v, op) && StateAt(v, op.runId) == Some(st)
    requires st.budget.Some? && BudgetReason(st.observed, st.budget.value, !op.afterObservation).Some?
    requires evidence == ExhaustionEvidence(BudgetReason(st.observed, st.budget.value, !op.afterObservation).value,
                                            st.budget.value, SumUsage(st.observed))
    ensures ExhaustedOn(s', op.runId, evidence)
  {
    PlanShapeUncharged(v, v, op);
    hide AnalysisAfter, LedgerAfter, BudgetReason, SumUsage, LatestAnswered;
    var a := Analysis(s', op.runId);
    assert IsExhaustion(a[|Analysis(s, op.runId)|], evidence);
  }

  lemma NowAsked(first: Streams, view: Streams, now: Streams, r: Id, evidence: Evidence)
    requires ExhaustedOn(first, r, evidence) && StaleView(first, now) && StaleView(view, now)
    requires Read(view, DecisionStream(evidence)) != []
    ensures AskedAboutBudget(now, r)
  {
    var e :| e in Analysis(first, r) && IsExhaustion(e, evidence);
    assert Analysis(first, r) <= Analysis(now, r);
    assert Read(view, DecisionStream(evidence)) <= Read(now, DecisionStream(evidence));
    assert e in Analysis(now, r);
  }

  // ---------- Reservation and observation ----------

  /** What the coordinator checks before it reserves: a live, idle, answered analysis within its budget, and a
    * ledger without a reservation that has consumed what was observed and leaves something. */
  predicate MayReserve(known: Streams, r: Id, st: AnalysisState) {
    && Idle(st) && LatestAnswered(st) && st.started.value.Started?
    && BudgetReason(st.observed, st.budget.value, true).None?
    && LedgerAt(known, r).Some? && LedgerAt(known, r).value.pending.None?
    && LedgerAt(known, r).value.consumed == SumUsage(st.observed)
    && Remaining(st.budget.value, LedgerAt(known, r).value.consumed).Some?
  }

  lemma ReserveGuard(v: Streams, st: AnalysisState, op: Op)
    requires op.Reserve? && StateAt(v, op.runId) == Some(st) && MayReserve(v, op.runId, st)
    ensures Guard(v, v, op) && AnalysisOp(op) && Touches(op)
  {
    hide AnalysisAfter, LedgerAfter, BudgetReason, SumUsage, Remaining, LatestAnswered;
  }

  lemma ReservationShown(s: Streams, s': Streams, v: Streams, st: AnalysisState, op: Op)
    requires op.Reserve? && Guard(v, v, op) && Shaped(Plan(v, v, op), op.runId, true)
    requires StateAt(v, op.runId) == Some(st) && MayReserve(v, op.runId, st)
    requires Analysis(v, op.runId) == Analysis(s, op.runId)
    requires Commits(s, s', op.runId, Plan(v, v, op)[0].events[0], Some(Plan(v, v, op)[1].events[0]))
    ensures var e := Stored(AnalysisStream(op.runId), |Analysis(v, op.runId)|, Plan(v, v, op)[0].events[0]);
      && e in Analysis(s', op.runId) && e.payload.Reserved? && e.payload.request == op.request
      && e.payload.runVersion == op.runVersion && e.payload.round == |st.observed| + 1
      && ReservedSince(s', op.runId, |Analysis(v, op.runId)|, op.request)
  {
    hide AnalysisAfter, LedgerAfter, BudgetReason, SumUsage, Remaining, LatestAnswered;
    var r, a, b := op.runId, Analysis(s', op.runId), Read(s', BudgetStream(op.runId));
    var n, m := |Analysis(s, r)|, |Read(s, BudgetStream(r))|;
    assert a[n] in a && b[m] in b;
    assert NameEachOther(a[n], b[m]);
    assert IsReservation(s', r, a[n], op.request);
  }

  lemma ObserveGuard(v: Streams, op: Op)
    requires op.Observe? && StateAt(v, op.runId).Some? && LedgerAt(v, op.runId).Some?
    requires LedgerAt(v, op.runId).value.pending.Some? && OwnReservation(v, op.runId, op.reservation)
    ensures Guard(v, v, op) && AnalysisOp(op) && Charges(op) && ChargedUsage(op) == op.usage
  {
    PendingIsReserved(op.runId, Read(v, BudgetStream(op.runId)));
    hide AnalysisAfter, LedgerAfter;
  }

  lemma ObservationShown(s: Streams, s': Streams, v: Streams, op: Op)
    requires op.Observe? && Guard(v, v, op) && Shaped(Plan(v, v, op), op.runId, true)
    requires Commits(s, s', op.runId, Plan(v, v, op)[0].events[0], Some(Plan(v, v, op)[1].events[0]))
    ensures var e := Stored(AnalysisStream(op.runId), |Analysis(s, op.runId)|, Plan(v, v, op)[0].events[0]);
      && e in Analysis(s', op.runId) && op.reservation.payload.Reserved?
      && e.payload == Observed(op.runId, op.reservation.payload.round, op.observations, op.uncertainties, op.usage,
                               op.reservation.payload.source, op.reservation.eventId)
  {
    PlanShapeUncharged(v, v, op);
    hide AnalysisAfter, LedgerAfter;
    var a := Analysis(s', op.runId);
    assert a[|Analysis(s, op.runId)|] in a;
  }

  lemma SettlementShown(s: Streams, s': Streams, v: Streams, op: Op)
    requires op.Settle? && Guard(v, v, op) && Shaped(Plan(v, v, op), op.runId, true)
    requires Commits(s, s', op.runId, Plan(v, v, op)[0].events[0], Some(Plan(v, v, op)[1].events[0]))
    ensures EndingRecorded(s', op.runId, op.outcome, op.reservation, op.usage)
  {
    PlanShapeUncharged(v, v, op);
    hide AnalysisAfter, LedgerAfter;
    var a := Analysis(s', op.runId);
    assert EndsAs(a[|Analysis(s, op.runId)|], op.outcome, op.reservation, op.usage);
  }

  lemma UncertaintyShown(s: Streams, s': Streams, v: Streams, op: Op)
    requires op.Reconcile? && AppendedOne(s, s', v, op)
    ensures UncertaintyRecorded(s', op.runId, op.reservation, op.knownNoEffect, op.usage)
  {
    PlanShapeUncharged(v, v, op);
    hide AnalysisAfter, LedgerAfter;
    var a := Analysis(s', op.runId);
    assert a[|Analysis(s, op.runId)|] in a;
  }

  // ---------- Endings ----------

  function FollowOp(r: Id, outcome: Option<Outcome>, runEventId: Id, reservation: Event, usage: Usage, id: Id): Op {
    Close(r, AfterObservation,
          if outcome.None? then Cancelled(r, runEventId)
          else Terminated(r, outcome.value, runEventId, reservation.eventId, usage), runEventId, id)
  }

  lemma SingleFollow(s: Streams, r: Id, outcome: Option<Outcome>, runEventId: Id, reservation: Event, usage: Usage,
                     id: Id)
    requires Unused(s, id)
    ensures NewIds(s, FollowOp(r, outcome, runEventId, reservation, usage, id))
  {
  }

  lemma FollowGuard(v: Streams, st: AnalysisState, r: Id, outcome: Option<Outcome>, runEventId: Id, reservation: Event,
                    usage: Usage, id: Id)
    requires StateAt(v, r) == Some(st) && |st.observed| > 0
    ensures var op := FollowOp(r, outcome, runEventId, reservation, usage, id);
      Guard(v, v, op) && AnalysisOp(op) && !UsesLedger(op) && op.runId == r
  {
    hide AnalysisAfter, LedgerAfter;
  }

  lemma FollowShown(s: Streams, s': Streams, v: Streams, r: Id, outcome: Option<Outcome>, runEventId: Id,
                    reservation: Event, usage: Usage, id: Id)
    requires AppendedOne(s, s', v, FollowOp(r, outcome, runEventId, reservation, usage, id))
    ensures EndingRecorded(s', r, outcome, reservation, usage)
  {
    PlanShapeUncharged(v, v, FollowOp(r, outcome, runEventId, reservation, usage, id));
    hide AnalysisAfter, LedgerAfter;
    var a := Analysis(s', r);
    assert EndsAs(a[|Analysis(s, r)|], outcome, reservation, usage);
  }

  predicate MayComplete(st: AnalysisState, round: nat) {
    && st.started.Some? && st.started.value.Started? && st.budget.Some?
    && BudgetReason(st.observed, st.budget.value, false).None?
    && 1 <= round <= |st.observed| && !HasMaterial(UncertaintiesOf(st.observed[round - 1]))
  }

  lemma CompleteGuard(v: Streams, st: AnalysisState, op: Op)
    requires op.Complete? && StateAt(v, op.runId) == Some(st) && MayComplete(st, op.round)
    ensures Guard(v, v, op) && AnalysisOp(op) && !UsesLedger(op)
  {
    hide AnalysisAfter, LedgerAfter, BudgetReason, HasMaterial;
  }

  lemma CompletionShown(s: Streams, s': Streams, v: Streams, st: AnalysisState, op: Op)
    requires op.Complete? && AppendedOne(s, s', v, op)
    ensures CompletionRecorded(s', op.runId)
  {
    PlanShapeUncharged(v, v, op);
    hide AnalysisAfter, LedgerAfter, BudgetReason, HasMaterial;
    var a := Analysis(s', op.runId);
    assert a[|Analysis(s, op.runId)|] in a;
  }

  lemma NothingMaterial(us: seq<Uncertainty>)
    requires us == []
    ensures !HasMaterial(us)
  {
  }

  /** What a client finds when it reads its analysis again after its own observation. */
  lemma AfterOwnRound(known: Streams, before: Streams, first: Streams, view: Streams, r: Id, st: AnalysisState,
                      source: Payload, own: Event)
    requires StaleView(known, before) && StaleView(before, first) && StateAt(view, r) == Some(st)
    requires Analysis(view, r) == Analysis(first, r) && own in Analysis(before, r) && own.payload.Observed?
    requires StateAt(known, r).Some? && StateAt(known, r).value.started == Some(source)
    ensures st.started == Some(source) && source.Started?
    ensures 1 <= own.payload.round <= |st.observed|
    ensures UncertaintiesOf(st.observed[own.payload.round - 1]) == own.payload.uncertainties
  {
    assert Analysis(known, r) <= Analysis(before, r) <= Analysis(first, r);
    Remembers(r, Analysis(known, r));
    StartStays(r, Analysis(known, r), Analysis(first, r));
    RoundIsKept(r, Analysis(first, r), own);
  }

  // ---------- What a result is founded on ----------

  /** A completed analysis has its completion on record, a waiting one has asked its question, an exhausted one
    * has asked how to go on. */
  ghost predicate Founded(s: Streams, r: Id, result: Result) {
    result.Advanced? ==>
      && (result.progress == AnalysisCompleted ==> CompletionRecorded(s, r))
      && (result.progress == Waiting ==> AskedAbout(s, r, result.round))
      && (result.progress == BudgetExhausted ==> AskedAboutBudget(s, r))
  }

  lemma ThrewIsFounded(s: Streams, r: Id)
    ensures Founded(s, r, Threw)
  {
  }

  lemma ExhaustedIsFounded(s: Streams, r: Id, result: Result)
    requires result.Advanced? ==> result.progress == BudgetExhausted && AskedAboutBudget(s, r)
    ensures Founded(s, r, result)
  {
  }

  lemma EndedIsFounded(s: Streams, r: Id, result: Result)
    requires result.Advanced? ==>
               result.progress == Reconciling || result.progress == AnalysisCancelled || result.progress.AnalysisEnded?
    ensures Founded(s, r, result)
  {
  }

  lemma CompletedIsFounded(s: Streams, r: Id, round: nat)
    requires CompletionRecorded(s, r)
    ensures Founded(s, r, Advanced(AnalysisCompleted, round))
  {
  }

  lemma WaitingIsFounded(view: Streams, s: Streams, r: Id, round: nat, us: seq<Uncertainty>, decision: Evidence)
    requires IsQuestionnaire(decision, r, round, us) && HasMaterial(us) && StaleView(view, s)
    requires Read(view, DecisionStream(decision)) != []
    ensures Founded(s, r, Advanced(Waiting, round))
  {
    assert Read(view, DecisionStream(decision)) <= Read(s, DecisionStream(decision));
    assert decision == QuestionnaireEvidence(r, round, decision.uncertainties);
    assert AskedAbout(s, r, round);
  }

  // ---------- What a dispatch costs ----------

  function Spent(answer: Answered): Usage {
    match answer
    case Returned(_, _, usage) => usage
    case Raised(_, _, usage) => usage
    case Broken => NoUsage
  }

  /** Whatever the capsule reported is charged, or left on record for an operator; `reconciled` says that something
    * was left to one before. */
  ghost predicate Paid(before: Streams, now: Streams, r: Id, result: Result, answer: Answered, reconciled: bool) {
    result.Advanced? ==>
      || ChargedSince(now, r, |Read(before, BudgetStream(r))|, Spent(answer))
      || (result.progress == Reconciling && (reconciled || LeftToOperator(now, r, Spent(answer))))
  }

  lemma ThrewIsPaid(before: Streams, now: Streams, r: Id, answer: Answered, reconciled: bool)
    ensures Paid(before, now, r, Threw, answer, reconciled)
  {
  }

  lemma UncertainIsPaid(before: Streams, now: Streams, r: Id, result: Result, answer: Answered, reconciled: bool,
                        reservation: Event)
    requires result.Advanced? ==>
               && result.progress == Reconciling
               && (reconciled || UncertaintyRecorded(now, r, reservation, false, Spent(answer)))
    ensures Paid(before, now, r, result, answer, reconciled)
  {
    SelfView(now);
    if result.Advanced? && !reconciled {
      UncertaintyIsLeft(now, now, r, reservation, false, Spent(answer));
    }
  }

  lemma ChargedIsPaid(before: Streams, now: Streams, r: Id, result: Result, answer: Answered, reconciled: bool)
    requires result.Advanced? ==> ChargedSince(now, r, |Read(before, BudgetStream(r))|, Spent(answer))
    ensures Paid(before, now, r, result, answer, reconciled)
  {
  }

  lemma SettledIsPaid(before: Streams, now: Streams, r: Id, result: Result, answer: Answered, reconciled: bool,
                      reservation: Event)
    requires result.Advanced? && result.progress != Reconciling ==>
               ChargedSince(now, r, |Read(before, BudgetStream(r))|, Spent(answer))
    requires result.Advanced? && result.progress == Reconciling ==>
               reconciled || UncertaintyRecorded(now, r, reservation, false, Spent(answer))
    ensures Paid(before, now, r, result, answer, reconciled)
  {
    hide Paid;
    if result.Advanced? && result.progress == Reconciling {
      UncertainIsPaid(before, now, r, result, answer, reconciled, reservation);
    } else {
      ChargedIsPaid(before, now, r, result, answer, reconciled);
    }
  }

  lemma EarlierPaid(before: Streams, first: Streams, now: Streams, r: Id, result: Result, answer: Answered,
                    reconciled: bool)
    requires StaleView(before, first) && Paid(first, now, r, result, answer, reconciled)
    ensures Paid(before, now, r, result, answer, reconciled)
  {
    if ChargedSince(now, r, |Read(first, BudgetStream(r))|, Spent(answer)) {
      EarlierCharge(before, first, now, r, Spent(answer));
    }
  }

  /** For a caller that has not read the analysis yet: something is left to an operator at the end. */
  lemma PaidOrUnresolved(known: Streams, st: AnalysisState, before: Streams, now: Streams, r: Id, result: Result,
                         answer: Answered)
    requires StaleView(known, now) && StateAt(known, r) == Some(st)
    requires Paid(before, now, r, result, answer, st.reconciliation.Some?)
    ensures Paid(before, now, r, result, answer, Unresolved(now, r))
  {
    if st.reconciliation.Some? {
      Remembers(r, Analysis(known, r));
      assert Unresolved(known, r);
      UnresolvedRemains(known, now, r);
    }
  }

  /** After its reservation the client reads the same start, and its reservation. */
  lemma StillStarted(known: Streams, before: Streams, first: Streams, view: Streams, r: Id, st: AnalysisState,
                     reservation: Event)
    requires StaleView(known, before) && StaleView(before, first) && Analysis(view, r) == Analysis(first, r)
    requires StateAt(known, r) == Some(st) && st.started.Some? && StateAt(view, r).Some?
    requires reservation in Analysis(before, r) && reservation.payload.Reserved?
    ensures StateAt(view, r).value.started == st.started && OwnReservation(view, r, reservation)
  {
    assert Analysis(known, r) <= Analysis(before, r) <= Analysis(first, r);
    StartStays(r, Analysis(known, r), Analysis(first, r));
  }

  // ---------- Starting and answering ----------

  function FindIntake(run: seq<Event>, r: Id): (id: Option<Id>)
    ensures id.Some? ==> exists i :: 0 <= i < |run| && IsIntake(run[i], r, id.value)
  {
    if run == [] then None
    else
      var earlier := FindIntake(run[..|run| - 1], r);
      if earlier.Some? then
        var i :| 0 <= i < |run| - 1 && IsIntake(run[..|run| - 1][i], r, earlier.value);
        assert IsIntake(run[i], r, earlier.value);
        earlier
      else
        var last := run[|run| - 1];
        if IsIntake(last, r, last.eventId) then Some(last.eventId) else None
  }

  /** The durable start and budget are the requested ones, and the intake is the retained one. */
  predicate MatchesRequest(st: AnalysisState, requested: Budget, env: Environment) {
    && st.started.Some? && st.started.value.Started? && st.budget == Some(requested)
    && st.started.value.snapshot == env.snapshot && st.started.value.source == env.source
    && st.started.value.sourceCount == env.sourceCount
  }

  lemma StartGuard(v: Streams, st: AnalysisState, op: Op)
    requires op.Start? && StateAt(v, op.runId) == Some(st) && st.started.None? && !st.cancelled && st.terminal.None?
    requires op.budget.maxQuestionnaireOptions <= COMBINATION_CAP
    requires FindIntake(Read(v, RunStream(op.runId)), op.runId) == Some(op.intakeEventId)
    ensures Guard(v, v, op) && AnalysisOp(op) && !UsesLedger(op)
  {
    hide AnalysisAfter, LedgerAfter;
  }

  lemma LongerAnalysis(known: Streams, before: Streams, now: Streams, view: Streams, r: Id)
    requires StaleView(known, before) && StaleView(before, now) && Analysis(view, r) == Analysis(now, r)
    ensures |Analysis(known, r)| <= |Analysis(view, r)|
  {
    assert Analysis(known, r) <= Analysis(before, r) <= Analysis(now, r);
  }

  lemma LatestIsRound(st: AnalysisState, latest: Event)
    requires UnansweredMaterial(st) == Some(latest) && forall e :: e in st.observed ==> e.payload.Observed?
    ensures latest in st.observed && latest.payload.Observed? && UncertaintiesOf(latest) == latest.payload.uncertainties
    ensures HasMaterial(latest.payload.uncertainties)
  {
  }

  /** An operator accepted one of the combinations on offer. */
  predicate Offered(us: seq<Uncertainty>, cap: nat, es: seq<Event>) {
    && PacketOf(es).Some? && Acceptance(es).Some? && Acceptance(es).value.payload.optionId.Combination?
    && Acceptance(es).value.payload.actor.kind == Operator
    && Combined(us, cap).Some? && Acceptance(es).value.payload.optionId.selections in Combined(us, cap).value
  }

  /** The client holds the accepted answer to the open question of the latest round. */
  predicate Answering(known: Streams, r: Id, st: AnalysisState, latest: Event, d: Evidence) {
    && StateAt(known, r) == Some(st) && Idle(st)
    && UnansweredMaterial(st) == Some(latest) && latest.payload.Observed?
    && IsQuestionnaire(d, r, latest.payload.round, latest.payload.uncertainties)
    && Offered(latest.payload.uncertainties, st.budget.value.maxQuestionnaireOptions, Read(known, DecisionStream(d)))
  }

  predicate AnswerRecorded(known: Streams, view: Streams, r: Id, answered: AnalysisState) {
    && StateAt(view, r) == Some(answered) && Idle(answered) && LatestAnswered(answered)
    && |Analysis(known, r)| <= |Analysis(view, r)|
  }

  lemma AnswerIsOffered(known: Streams, r: Id, st: AnalysisState, latest: Event, d: Evidence)
    requires StateAt(known, r) == Some(st) && Idle(st)
    requires UnansweredMaterial(st) == Some(latest) && latest.payload.Observed?
    requires IsQuestionnaire(d, r, latest.payload.round, latest.payload.uncertainties)
    requires st.budget.Some?
    requires Offered(latest.payload.uncertainties, st.budget.value.maxQuestionnaireOptions,
                     Read(known, DecisionStream(d)))
    ensures Answering(known, r, st, latest, d)
  {
  }

  lemma ReviseGuard(v: Streams, st: AnalysisState, op: Op, latest: Event, d: Evidence)
    requires op.Revise? && Answering(v, op.runId, st, latest, d)
    ensures Guard(v, v, op) && AnalysisOp(op) && !UsesLedger(op)
  {
    hide AnalysisAfter, LedgerAfter, Combined, QuestionnaireFor, UnansweredMaterial;
  }

  lemma AnswerParts(st: AnalysisState, es: seq<Event>)
    requires Idle(st) && Acceptance(es).Some?
    ensures st.budget.Some? && Acceptance(es).value.payload.Decided?
  {
  }

  /** The recorded answer is the answer to the latest round. */
  lemma RevisionRecorded(s: Streams, s': Streams, v: Streams, view: Streams, st: AnalysisState, op: Op, latest: Event,
                         d: Evidence)
    requires op.Revise? && AppendedOne(s, s', v, op) && Answering(v, op.runId, st, latest, d)
    requires Analysis(view, op.runId) == Analysis(s', op.runId)
    ensures StateAt(view, op.runId).Some? ==> AnswerRecorded(v, view, op.runId, StateAt(view, op.runId).value)
  {
    var a := Analysis(s, op.runId);
    var e := AppendedRevision(s, s', v, st, op, latest, d);
    AnalysisSnoc(op.runId, a, e);
    hide AppendedOne, AnalysisAfter, UnansweredMaterial, Advance;
    AfterRevision(op.runId, st, a, e, d, latest);
  }

  lemma AppendedRevision(s: Streams, s': Streams, v: Streams, st: AnalysisState, op: Op, latest: Event, d: Evidence)
    returns (e: Event)
    requires op.Revise? && AppendedOne(s, s', v, op) && Answering(v, op.runId, st, latest, d)
    ensures Analysis(s', op.runId) == Analysis(s, op.runId) + [e] && Analysis(v, op.runId) == Analysis(s, op.runId)
    ensures e.payload.Revised? && e.payload.round == latest.payload.round && e.payload.answer.decision == d
  {
    hide AnalysisAfter, LedgerAfter, Combined, Meanings, CanonicalUncertainties, HasMaterial, BudgetReason;
    PlanShapeUncharged(v, v, op);
    e := Analysis(s', op.runId)[|Analysis(s, op.runId)|];
  }

  lemma AfterRevision(r: Id, st: AnalysisState, before: seq<Event>, e: Event, d: Evidence, latest: Event)
    requires Idle(st) && e.payload.Revised? && e.payload.answer.decision == d && d.QuestionnaireEvidence?
    requires d.round == e.payload.round
    ensures var st' := Advance(r, st, LastId(before), e, |before|);
      st'.Some? ==> Idle(st'.value) && LatestAnswered(st'.value)
  {
    hide UnansweredMaterial;
  }

  // ---------- Advancing ----------

  lemma EarlierReserved(before: Streams, known: Streams, now: Streams, r: Id, request: Id)
    requires ReservedSince(now, r, |Analysis(known, r)|, request) && |Analysis(before, r)| <= |Analysis(known, r)|
    ensures ReservedSince(now, r, |Analysis(before, r)|, request)
  {
    var a, k :| |Analysis(known, r)| <= k < |Analysis(now, r)| && Analysis(now, r)[k] == a
        && IsReservation(now, r, a, request);
  }

  lemma LaterReserved(known: Streams, view: Streams, now: Streams, r: Id, request: Id)
    requires ReservedSince(now, r, |Analysis(view, r)|, request) && |Analysis(known, r)| <= |Analysis(view, r)|
    ensures ReservedSince(now, r, |Analysis(known, r)|, request)
  {
    EarlierReserved(known, view, now, r, request);
  }

  lemma WasCompleted(known: Streams, before: Streams, now: Streams, r: Id, st: AnalysisState, rounds: nat)
    requires StaleView(known, before) && StaleView(before, now) && StateAt(known, r) == Some(st) && st.completed
    ensures Founded(now, r, Advanced(AnalysisCompleted, rounds))
  {
    CompletedIsRecorded(known, r);
    CompletionRemains(known, before, r);
    CompletionRemains(before, now, r);
  }

  lemma HandledIsFounded(s: Streams, r: Id, result: Result, rounds: nat)
    requires result.Advanced? ==>
               || result == Advanced(AnalysisCancelled, rounds)
               || (result == Advanced(BudgetExhausted, rounds) && AskedAboutBudget(s, r))
    ensures Founded(s, r, result)
  {
  }

  lemma MatchedIsIdle(st: AnalysisState, requested: Budget, env: Environment)
    requires MatchesRequest(st, requested, env)
    ensures !st.completed && !st.cancelled && st.terminal.None? && st.reservation.None? && st.exhaustion.None? ==>
            Idle(st)
  {
  }

  lemma NothingOpen(st: AnalysisState)
    requires UnansweredMaterial(st).None?
    ensures LatestAnswered(st)
  {
  }

  lemma IdleHasBudget(st: AnalysisState)
    requires Idle(st)
    ensures st.budget.Some?
  {
  }

  // ---------- Operators ----------

  lemma IsOwn(v: Streams, r: Id, reservation: Event)
    requires reservation in Analysis(v, r) && reservation.payload.Reserved?
    ensures OwnReservation(v, r, reservation)
  {
  }

  predicate Releasable(st: AnalysisState, actor: Actor) {
    && actor.kind == Operator && st.reconciliation.Some? && st.reservation.Some?
    && st.reconciliation.value.payload.ReconciliationRequired? && st.reconciliation.value.payload.knownNoEffect
  }

  lemma ReleaseGuard(v: Streams, st: AnalysisState, op: Op)
    requires op.Release? && StateAt(v, op.runId) == Some(st) && Releasable(st, op.actor)
    requires LedgerAt(v, op.runId).Some? && LedgerAt(v, op.runId).value.pending.Some?
    ensures Guard(v, v, op) && AnalysisOp(op) && Charges(op) && ChargedUsage(op) == NoUsage
  {
    PendingIsReserved(op.runId, Read(v, BudgetStream(op.runId)));
    hide AnalysisAfter, LedgerAfter;
  }

  lemma SingleBudget(s: Streams, op: Op)
    requires op.ReviseBudget? && Unused(s, op.id)
    ensures NewIds(s, op)
  {
  }

  predicate BothAccepted(v: Streams, r: Id, st: AnalysisState, budget: Budget) {
    && st.exhaustion.Some? && st.exhaustion.value.payload.Exhausted?
    && AcceptedAs(v, st.exhaustion.value.payload.evidence, AwaitRevision)
    && AcceptedBy(v, RevisionEvidence(r, st.exhaustion.value.eventId, budget), ApplyRevision)
  }

  predicate MayRaise(v: Streams, r: Id, st: AnalysisState, budget: Budget) {
    && BothAccepted(v, r, st, budget) && st.budget.Some? && LedgerAt(v, r).Some?
    && Covers(budget, LedgerAt(v, r).value.consumed) && StrictlyHigher(budget, st.budget.value)
    && budget.maxQuestionnaireOptions <= COMBINATION_CAP
  }

  lemma RaiseIsAllowed(v: Streams, r: Id, st: AnalysisState, budget: Budget)
    requires BothAccepted(v, r, st, budget) && st.budget.Some? && LedgerAt(v, r).Some?
    requires Covers(budget, LedgerAt(v, r).value.consumed) && StrictlyHigher(budget, st.budget.value)
    requires budget.maxQuestionnaireOptions <= COMBINATION_CAP
    ensures MayRaise(v, r, st, budget)
  {
  }

  lemma StillLedger(past: seq<Streams>, now: seq<Streams>, known: Streams, view: Streams, r: Id)
    requires LedgerKnown(past, known, r) && past <= now
    requires Analysis(view, r) == Analysis(known, r) && Read(view, BudgetStream(r)) == Read(known, BudgetStream(r))
    ensures LedgerKnown(now, view, r) && StateAt(view, r) == StateAt(known, r)
            && LedgerAt(view, r) == LedgerAt(known, r)
  {
    LedgerStaysKnown(past, now, known, view, r);
  }

  lemma RaiseGuard(v: Streams, st: AnalysisState, op: Op)
    requires op.ReviseBudget? && StateAt(v, op.runId) == Some(st) && MayRaise(v, op.runId, st, op.budget)
    ensures Guard(v, v, op) && AnalysisOp(op) && !Touches(op)
  {
    hide AnalysisAfter, LedgerAfter, Covers, StrictlyHigher;
  }

  ghost predicate RaisedTo(s: Streams, r: Id, budget: Budget) {
    exists e :: e in Analysis(s, r) && IsRaise(e, budget)
  }

  /** A strictly higher budget, revised by an operator. */
  predicate IsRaise(e: Event, budget: Budget) {
    && e.payload.BudgetRevised? && e.payload.budget == budget && StrictlyHigher(budget, e.payload.priorBudget)
    && e.payload.actor.kind == Operator
  }

  lemma RaiseShown(s: Streams, s': Streams, v: Streams, st: AnalysisState, op: Op)
    requires op.ReviseBudget? && StateAt(v, op.runId) == Some(st) && MayRaise(v, op.runId, st, op.budget)
    requires Guard(v, v, op) && Shaped(Plan(v, v, op), op.runId, Touches(op)) && !Touches(op)
    requires Commits(s, s', op.runId, Plan(v, v, op)[0].events[0], None)
    ensures RaisedTo(s', op.runId, op.budget)
  {
    PlanShapeUncharged(v, v, op);
    hide AnalysisAfter, LedgerAfter, Covers, StrictlyHigher;
    var a := Analysis(s', op.runId);
    assert IsRaise(a[|Analysis(s, op.runId)|], op.budget);
    assert a[|Analysis(s, op.runId)|] in a;
  }

  lemma RaiseRemains(s: Streams, s': Streams, r: Id, budget: Budget)
    requires RaisedTo(s, r, budget) && StaleView(s, s')
    ensures RaisedTo(s', r, budget)
  {
    var e :| e in Analysis(s, r) && IsRaise(e, budget);
    assert Analysis(s, r) <= Analysis(s', r);
    assert e in Analysis(s', r);
  }
}
