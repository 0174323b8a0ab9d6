# Zentra: a model of its event-sourced core

Zentra's services share one append-only journal. Each of them reads some streams, decides, and commits a list of
writes that is accepted only if every named stream is still at the version the writer expects. This project models
that journal, the protocols built on it and the algorithms around them, and proves what they keep over every
interleaving of any number of clients.

## How it is modelled

* **Journal** (`EventJournal`). A store maps streams to events. A commit is all-or-nothing; a write without events is a
  pure version check. A client knows a *stale view*: stream by stream a prefix of the current journal, each read at a
  moment of its own. Everything a service plans, it plans on such a view.
* **Runs.** A step is one commit: guard and plan evaluated on a stale view, accepted against the current store. A run
  is any sequence of steps of any number of clients. Theorems about runs therefore hold under every interleaving.
* **Services as classes.** `AttentionService`, `AttentionControlledDispatcher`, `AnalysisCoordinator`,
  `GitHubEffectBroker` and `JournalAgentTrailEvidenceSink` are classes over the journal, with the methods, branches and
  retry loops of the originals. Between any two of their reads and writes stands a call of `Interfere`, of which
  a caller knows only that the run went on legally. Every commit a method makes is proved to be a step of the
  protocol; a ghost `history` records the run.
* **Projections.** Each replay is a loop over local accumulators, proved equal to an event-by-event automaton on which
  the theorems are stated. Beside each automaton stands a second description that knows no state, only which events
  may follow which and what they say (`AttentionRecord`, `AnalysisRecord`, `AnalysisAcceptance`, `ArtifactRecord`,
  `ValidExactly`), and the two are proved to be the same.
* **Identities** are numbers, random ones new to the journal; a **digest** is the value it is the digest of, which makes
  hashing injective, also for the digest prefixes in decision identities. Sorted, duplicate-free arrays are sets.
* **What comes from outside** (the clock, the capsule's answer, hooks, abort signals, network outcomes, the run's
  lifecycle) is a parameter or an arbitrary choice.

The modules follow the program: attention (`Attention*`, `Dispatcher`, `StreamNames`), analysis (`Questionnaire`,
`Sorting`, `Analysis*`), GitHub grants (`Grant*`), artifacts (`Artifact*`), and the algorithmic cores
(`WriterEvents`, `Cost`, `CostRender`, `Utf8`, `SnapshotChunks`, `TextSplit`, `EgressAddresses`, `ConformanceReport`,
`AgentTrailEvents`).

## Where the code does less than one might expect

These are results: the code is modelled as it is; runs from the empty journal show that it happens, and the exact
condition under which the property holds is proved.

* **Analysis commits that are overtaken.** After an observation, in `reviseBudget` and in `cancelFromDecision`
  (src/analysis/analysis-coordinator.ts:335-382, 384-417, 649-671) the coordinator appends to a fresh reading of the
  stream without asking whether the analysis has ended or a reservation of another client is open. The two ledgers of
  a run agree in all journals if and only if every commit is *timely*, a check on the state just read
  (`AgreementExactly`, per commit `StepAgreesExactly`). Two families of runs show how it fails. `EndedTwice`: one client
  follows the run's cancellation, another its own refused question, both commits are accepted and the stream no longer
  replays (`BrokenAnalysisIsReachable`). `EndedUnderway`: a client ends the analysis while another's reservation is
  open, and the ledger stays pending (`PendingForeverIsReachable`).
* **Completed analyses the verifier refuses.** Even timely writers can complete a stream that the strict replay
  rejects (`UnobservedIsRefused`). `WriterVerifierAgreement` gives the exact condition, event by event: identities new
  to all rounds, canonical questionnaires, no round revised twice, reconciliations of the open reservation, a settled
  completion after an immaterial last round, and no ending of the run in between. A round can be revised twice only
  after an earlier round without a material uncertainty, because answers and rounds are merely counted
  (`MaterialRoundsAreRevisedOnce`). `OrdinaryAnalysesVerify` is the case without concurrency accidents.
* **Releases stall.** The ledger keeps the receipt of its last charge, and a release charges a zero receipt. The guard
  before a reservation compares receipts too (src/analysis/analysis-coordinator.ts:229-232). In timely runs it shuts on
  a live analysis if and only if a release followed the last observed round and that round's receipt is not the zero
  one (`GuardShutExactly`, `StalledIsReachable`), and then no further round of that run is ever reserved
  (`ReleaseStalls`, `StalledForever`).
* **Denied grants.** A denied receipt says that its own call sent nothing, now and ever; it does not say so of the
  grant, which an earlier call may have used (`DeniedGrantMayBeSent`). A grant can still be sent if and only if nothing
  is on record for it, or a call holds it or has sent it (`GrantMayBeSentExactly`); on the journal alone, a denial at
  the head of its stream or in its observation means that it never is (`RecordedDenialIsFinal`).
* **Completed pushes of three events.** A push whose first reconciliation completes before its own observation was
  recorded (`CompletedUnobservedIsReachable`) can never support a pull request, which asks for four events
  (`CompletedUnobservedIsStuck`); otherwise a completed push of the policy's own grant does (`PrerequisiteExactly`).
* **Returning incarnations.** The lifecycle compares an incarnation with the preceding one only
  (`IncarnationMayReturn`). An incarnation stands for one process, whatever valid events follow its starts, if and only
  if every start names an incarnation that had no process before (`OneProcessExactly`, `FreshStartsKeepProcess`): a
  check on the history before the start, which the random incarnations of the supervisor pass.
* **Redundant networks.** Nine of the thirteen special IPv6 networks lie outside global unicast or inside another entry
  (`PublicIpv6Exactly`).

## Model

| member | source | states |
|---|---|---|
| EventJournal.Journal.AppendAtomically | src/journal/sqlite-journal.ts:198-284 | An append happens entirely or not at all; success means every expected version matched and the store is the old one with every write applied; a malformed batch, a version conflict and a busy database change nothing |
| EventJournal.ExtendedStream | src/journal/sqlite-journal.ts:231-275 | A commit over distinct streams extends each named stream by exactly its own events, stamped with consecutive versions |
| EventJournal.UntouchedStream | src/journal/sqlite-journal.ts:231-275 | A commit leaves every stream it does not name alone |
| EventJournal.AcceptedViewIsCurrent | src/journal/sqlite-journal.ts:232-239 | Whatever a client has read, however long ago, is still current on every stream whose version check passes |
| AttentionModel.ProjectAttention | src/attention/attention-projection.ts:51-211 | The one-pass replay of a decision is the event-by-event automaton, failures included |
| AttentionRecord.ProjectionTells | src/attention/attention-projection.ts:51-211 | Without the automaton: the replay yields a view exactly when the events open it, decide it in the way it reports (option, digests or reason, actor, evidence) and then close it with that outcome, each at its place |
| AttentionRecord.DecidedAs | src/attention/attention-projection.ts:107-187 | The deciding event of a decision, wherever it stands, is the one its view reports |
| AttentionModel.ProjectAttentionIndex | src/attention/attention-index.ts:24-75 | The loop over pending items, known identities and admissions computes the index fold, and rejects exactly what the fold rejects |
| AttentionRecord.IndexTells | src/attention/attention-index.ts:24-75 | Without the automaton: the index replays to a view exactly when attention is raised once and resolved once after that, admissions are single and know their place, and the view lists what was raised and not resolved |
| AttentionRuns.RunInvariant | src/attention/attention-service.ts:883-1021 | The cross-stream invariant (decisions, index, identities, reservations, run readiness) holds in every journal of every run of interleaved commits |
| AttentionRuns.StepPreserves | src/attention/attention-service.ts:955-1021 | Every single commit of every service operation, planned on any stale view, keeps that invariant |
| AttentionResolve.ResolvePreserves | src/attention/attention-service.ts:955-1021 | Consuming a decision moves decision, index, reservation and run together and keeps the invariant |
| AttentionRaise.RaisePreserves | src/attention/attention-service.ts:883-953 | Raising a material decision creates identity, reservation, decision and index entry together and keeps the invariant |
| AttentionTheorems.IndexAgreesWithDecisions | src/attention/attention-index.ts:24-75 | In every reachable journal the pending map of a run is exactly the set of its pending material decisions, with the same identities and scopes, in both directions |
| AttentionTheorems.AttentionOwnedOnce | src/attention/attention-service.ts:852-881 | An attention identity belongs to one decision or one warning, never to two |
| AttentionTheorems.AttentionRaisedOnce | src/attention/attention-service.ts:883-953 | No attention identity is raised twice, neither in one index nor in the indexes of two runs |
| AttentionTheorems.AdmittedOnce | src/attention/attention-index.ts:57-64 | Each admission identity is admitted at most once in its run |
| AttentionTheorems.AdmissionSafety | src/attention/attention-service.ts:472-522 | On the journal a scope admission commits to, no pending material decision of the run touches the scope or any of its dependencies |
| AttentionTheorems.ConsumedIsFinal | src/attention/attention-service.ts:578-608 | The stream of a consumed decision never changes again in any continuation |
| AttentionTheorems.OneDecisionPerRequest | src/attention/attention-service.ts:167-219 | At most one decision is ever requested, hence accepted, per approval request of a run |
| AttentionTheorems.OutcomeAgrees | src/attention/approval-reservation.ts:18-53 | The outcome of an approval reservation is always exactly the terminal status of its decision |
| AttentionTheorems.ReadyExactlyWhenAccepted | src/attention/attention-service.ts:986-1019 | An approval that was accepted was accepted with its own packet, and has made the run of that packet ready right after the request it answers |
| AttentionTheorems.ReadyOnlyWhenAccepted | src/attention/attention-service.ts:986-1019 | A run is made ready only by an accepted approval that names it at that version |
| AttentionTheorems.DecidedAtPacketVersion | src/attention/attention-service.ts:610-727 | Acceptance and rejection happen only while the run is at exactly the packet's version, and an acceptance commits in the same step the ready event at version + 1 |
| AttentionProvenance.RunDocumented | src/attention/attention-service.ts:852-1033 | Every event of every journal of every run agrees field by field with the other streams it speaks of: index entries, reservations, identities, the awaited request, the outcome in all streams, the ready event of the run |
| AttentionPossible.RaisePossibleExactly | src/attention/attention-service.ts:883-953 | In every reachable journal material attention can be raised if and only if its identities are free and, for an approval, the run awaits exactly the packet and the request is unreserved |
| AttentionPossible.ResolvePossibleExactly | src/attention/attention-service.ts:955-1033 | In every reachable journal a decision can be consumed if and only if it is pending and the event is one that decides it; an approval is accepted or rejected only while its run has not moved |
| AttentionPossible.AdmitPossibleExactly | src/attention/attention-service.ts:472-522 | In every reachable journal a scope can be admitted if and only if its admission identity is unused and no pending material decision touches it or its dependencies |
| AttentionHistory.OneWinner | src/attention/attention-service.ts:578-727 | Of any number of concurrent answers, rejections, acceptances, expiries and stale marks of one decision exactly one is ever the consuming event |
| AttentionHistory.ConsumedStatus | src/attention/attention-service.ts:578-727 | What consumed a decision at some step determines its status and its resolution in every later journal |
| AttentionServices.AttentionService.CreateMaterialDecision | src/attention/attention-service.ts:883-953 | Bounded retries; success means this packet was created by this call, in one atomic step of a legal run |
| AttentionServices.AttentionService.CreateReservedAttention | src/attention/attention-service.ts:817-850 | Success of an advisory creation means this packet was created by this call |
| AttentionServices.AttentionService.RequestQuestion | src/attention/attention-service.ts:124-165 | A question succeeds only with a valid packet that this call created and a view of it seen during the call; an attention identity is called reserved only if it is |
| AttentionServices.AttentionService.RequestApproval | src/attention/attention-service.ts:167-219 | An approval is bound to the request the run was awaiting during the call; it was created, or this very decision already held the reservation |
| AttentionServices.AttentionService.AppendResolution | src/attention/attention-service.ts:955-1021 | Success means that exactly this terminal event consumed the decision, together with index, reservation and run |
| AttentionServices.AttentionService.AppendProjected | src/attention/attention-service.ts:1023-1033 | The same for an advisory decision, on its own stream only |
| AttentionServices.AttentionService.Consume | src/attention/attention-service.ts:578-608 | The retry loop of answers and rejections: success means this very event consumed the decision |
| AttentionServices.AttentionService.ConsumeApproval | src/attention/attention-service.ts:610-695 | Success means this very acceptance consumed the decision; a moved run ends in a stale mark instead |
| AttentionServices.AttentionService.ConsumeApprovalRejection | src/attention/attention-service.ts:697-727 | Success means this very rejection consumed the approval |
| AttentionServices.AttentionService.Answer | src/attention/attention-service.ts:262-288 | Success means accepted with this option by this answer, in time, by an operator if the decision is material, and the view returned is the decision's, with this option, actor and evidence; a refusal before anything is tried has its ground in a view of the decision during the call |
| AttentionServices.AttentionService.Reject | src/attention/attention-service.ts:290-321 | Success means rejected by this rejection, in time, and the view returned carries its reason, actor and evidence; early refusals have their ground |
| AttentionServices.AttentionService.AcceptApproval | src/attention/attention-service.ts:323-349 | Success means an operator accepted exactly the packet's digests in time, this acceptance consumed the decision, and the view returned carries it; early refusals have their ground |
| AttentionServices.AttentionService.Expire | src/attention/attention-service.ts:351-390 | Expires only a decision whose time has come, by exactly this expiry event; a second call reports the same expiry; not expired and never expiring are said only of a decision seen so |
| AttentionServices.AttentionService.AdmitScope | src/attention/attention-service.ts:472-522 | The answer is founded on one journal state during the call: admitted there, or blocked by exactly the attention pending there; an admission is called consumed only if it is on the index |
| AttentionServices.AttentionService.MarkApprovalStale | src/attention/attention-service.ts:1040-1073 | Ends with a decision that is no longer pending |
| AttentionServices.AttentionService.ReconcileApproval | src/attention/attention-service.ts:1075-1091 | An approval is left pending only if its run awaited exactly its packet during the call |
| AttentionServices.AttentionService.GetDecision | src/attention/attention-service.ts:414-419 | The view returned was the decision's at some moment during the call; an approval is reported pending only if its run awaited exactly its packet during the call |
| AttentionServices.AttentionService.ValidateSubmission | src/attention/attention-service.ts:729-748 | A submission passes if and only if it is for the decision's own run, pending, unexpired and at the expected version, and then leaves no trace; otherwise the first failing condition is the error |
| AttentionServices.AttentionService.AppendAttempt | src/attention/attention-service.ts:750-815 | Where the refusal is returned, the attempt stream of the command holds exactly this refusal's record; another content under the same command and a lost race are errors of their own |
| StreamNames.AttemptNameExactly | src/attention/attention-contracts.ts:288-304 | A name parses to two identities if and only if it was built from them; the lenient base64url decoder accepts no other spelling |
| StreamNames.AttemptNameExample | src/attention/attention-contracts.ts:288-304 | One name, spelled out |
| StreamNames.NamesAreInjective | src/attention/attention-contracts.ts:280-316 | No two of the nine kinds of streams, whatever their identities, share a name |
| StreamNames.DecodeEncode | src/attention/attention-contracts.ts:318-324 | Base64url without padding (section 5 of RFC 4648) round-trips on every byte sequence |
| StreamNames.EncodesBits | src/attention/attention-contracts.ts:318-324 | The encoding is the bits of the bytes in groups of six, each spelled in the alphabet of section 5 of RFC 4648, without padding |
| Dispatcher.TransitiveDependencies | src/attention/attention-dispatcher.ts:38-48 | The worklist terminates and returns exactly the reachable scopes, cycles included |
| Dispatcher.AdmittedIsClear | src/attention/attention-dispatcher.ts:12-36 | An admission of the reachable set went through on a journal where nothing pending touched the scope or anything reachable from it |
| Dispatcher.DispatchedOnce | src/attention/attention-dispatcher.ts:12-36 | Over the whole run one admission identity lets work through at one step only |
| Dispatcher.AttentionControlledDispatcher.Dispatch | src/attention/attention-dispatcher.ts:12-36 | Completed work was admitted during this call on such a clear journal; work is withheld by exactly the attention that, at one state during the call, was pending on the scope or on something reachable from it |
| Questionnaire.QuestionOrderIsImmaterial | src/analysis/analysis-questionnaire.ts:12-19 | Permuting the questions does not change the canonical questionnaire |
| Questionnaire.CanonicalExactly | src/analysis/analysis-questionnaire.ts:12-19 | A questionnaire is refused exactly when two questions, or two options of one or of different questions, bear the same identity |
| Questionnaire.OptionOrderIsImmaterial | src/analysis/analysis-questionnaire.ts:12-19 | Permuting the options of a question does not change it either |
| Questionnaire.CanonicalIsFixed | src/analysis/analysis-questionnaire.ts:12-19 | The canonical form is its own canonical form |
| Questionnaire.CanonicalAsksTheSame | src/analysis/analysis-questionnaire.ts:12-19 | The canonical form asks the same questions with the same options, in ascending order |
| Questionnaire.QuestionnaireBoundReason | src/analysis/analysis-questionnaire.ts:21-34 | The overflow-free division guard rejects exactly when the product of the option counts would exceed the cap (or a count is out of bounds) |
| Questionnaire.CombinedQuestionnaireOptions | src/analysis/analysis-questionnaire.ts:36-60 | The nested loops list the choice vectors of the canonical questionnaire, at most as many as the cap, or refuse |
| Questionnaire.CombinedIsExact | src/analysis/analysis-questionnaire.ts:36-60 | Every complete answer is offered exactly once, nothing else is, and there are as many as the product of the option counts |
| Questionnaire.RecommendedIsOffered | src/analysis/analysis-coordinator.ts:673-683 | The vector of the per-question recommendations is always on offer |
| AnalysisModel.ProjectAnalysis | src/analysis/analysis-coordinator.ts:775-872 | The replay loop with its accumulators is the event-by-event automaton, failures included |
| AnalysisRecord.ReplayShows | src/analysis/analysis-coordinator.ts:775-872 | Without the automaton: an analysis replays exactly when each of its events may follow those before it, and then to the rounds, budget, answers, endings and open items its events show |
| AnalysisModel.ProjectAnalysisBudget | src/analysis/analysis-budget.ts:22-47 | The ledger loop is the event-by-event ledger, failures included |
| AnalysisRecord.LedgerReplay | src/analysis/analysis-budget.ts:22-47 | Without the automaton: the ledger replays exactly when reservations and charges that name them alternate; what it has consumed is their sum, field by field |
| AnalysisModel.LedgerAlternates | src/analysis/analysis-budget.ts:22-47 | A ledger that replays alternates: each reservation is followed by the one charge that names it; it is pending exactly at odd length |
| AnalysisLedger.StepAgreesExactly | src/analysis/analysis-coordinator.ts:184-382 | One commit keeps the analysis and the ledger in agreement if and only if it is timely (the analysis has not ended, an observation is on the open reservation, an uncharged ending leaves none open) |
| AnalysisLedger.TimelyRunAgrees | src/analysis/analysis-coordinator.ts:507-574 | Over any run of timely commits, of any number of coordinators: a reservation is open in the ledger exactly when it is in the analysis, the two name each other, and until an ending the ledger has consumed exactly what the rounds used |
| AnalysisLedger.AgreementExactly | src/analysis/analysis-coordinator.ts:618-647 | A run keeps the ledgers of all analyses in agreement in all its journals if and only if all its commits are timely |
| AnalysisLedger.ChargedOnce | src/analysis/analysis-budget.ts:116-144 | No reservation is charged twice, in any run at all |
| AnalysisLedger.AfterImpliesBefore | src/analysis/analysis-coordinator.ts:905-931 | Whatever exhausts a budget after a round also forbids the next one |
| AnalysisBounds.ReasonIsFirstReached | src/analysis/analysis-coordinator.ts:905-931 | The reason given for an exhausted budget is the first limit, in the order of the code, that the rounds have really reached, measured field by field; none is given exactly when none is reached |
| AnalysisBounds.RunIsBounded | src/analysis/analysis-coordinator.ts:225-382 | In every journal of every run each reservation is for the next round with nothing open, within every limit of the budget it carries, and each recorded exhaustion names the first limit reached, with the usage of the rounds as its evidence |
| AnalysisBounds.RunIsGranted | src/analysis/analysis-budget.ts:49-94 | In every journal of every run an invocation is granted exactly what the ledger has left of its budget |
| AnalysisBounds.HigherExactly | src/analysis/analysis-coordinator.ts:952-955 | A revised budget counts as higher exactly when it lowers no limit and raises at least one |
| AnalysisBounds.SumPerField | src/analysis/analysis-coordinator.ts:933-943 | The usage summed is, field by field, the sum over the rounds; its receipt is the last |
| AnalysisStall.GuardShutExactly | src/analysis/analysis-coordinator.ts:229-232 | In a timely run the guard before a reservation fails on an analysis not ended if and only if a release followed the last observed round and that round's receipt is not the zero one |
| AnalysisStall.GuardIsTheReceipt | src/analysis/analysis-coordinator.ts:229-232 | Where the ledgers agree, the guard before a reservation holds exactly when the receipt digests coincide |
| AnalysisStall.ReleaseStalls | src/analysis/analysis-coordinator.ts:628-641 | A release after a round with a receipt of its own leaves the analysis in a state where that guard fails |
| AnalysisStall.StalledForever | src/analysis/analysis-coordinator.ts:229-232 | From then on, whatever anybody commits, no round of that run is ever reserved again |
| AnalysisScenarios.StalledIsReachable | src/analysis/analysis-coordinator.ts:229-232 | A timely run from the empty journal to such a state: a material round, the operator's answer, a reservation given up before dispatch, and its release |
| AnalysisRaces.EndedTwice | src/analysis/analysis-coordinator.ts:649-671 | The first failing family: from any run whose live analysis has been refused its own question, two clients following the code end it twice, and the stream no longer replays |
| AnalysisRaces.EndedUnderway | src/analysis/analysis-coordinator.ts:349-366 | The second: from any run with an observed round and the next reservation open, a client following the run's ending cancels the analysis, and the ledger waits for a charge for ever |
| AnalysisScenarios.BrokenAnalysisIsReachable | src/analysis/analysis-coordinator.ts:184-193 | The first family from the empty journal on: intake, start, a material round, its question asked and dismissed, the run cancelled, two endings |
| AnalysisScenarios.PendingForeverIsReachable | src/analysis/analysis-coordinator.ts:349-366 | The second from the empty journal on: one client observes, another reserves, the run is cancelled, the first follows |
| AnalysisVerifier.VerifyAnalysisReplay | src/analysis/analysis-completion.ts:59-281 | The loop over its accumulators and identity sets accepts exactly what the verifying automaton accepts, and reports the completion it ends in |
| AnalysisAcceptance.VerifiesExactly | src/analysis/analysis-completion.ts:59-281 | Without the automaton: a replay verifies exactly when it has at least four events, each acceptable after those before it and backed by the journal events it refers to, and was completed |
| AnalysisVerifier.Completions.PrepareAnalysisCompletion | src/analysis/analysis-completion.ts:41-50 | A capability is issued exactly for a replay that verifies, under a new handle, and nothing else changes |
| AnalysisVerifier.Completions.ConsumeAnalysisCompletion | src/analysis/analysis-completion.ts:52-57 | A capability is honoured once: it is gone afterwards, and the others stay |
| AnalysisSoundness.VerifierIsSound | src/analysis/analysis-completion.ts:77-272 | An accepted replay has rounds 1..n, at least one observation, an immaterial last round, budgets that never decrease, usage within the last of them, and no reservation left open |
| AnalysisSoundness.RoundsAreCharged | src/analysis/analysis-completion.ts:112-142 | Every round of an accepted replay was charged to the ledger at exactly its usage |
| AnalysisSoundness.MaterialBeforeReservation | src/analysis/analysis-completion.ts:94-202 | Between a material round and any later reservation lies an operator's answer to that very round |
| AnalysisSoundness.BudgetsOnlyGrow | src/analysis/analysis-completion.ts:211-231 | The budgets of an accepted replay never decrease in any field |
| AnalysisSoundness.ReservationsClose | src/analysis/analysis-completion.ts:77-272 | Every reservation but the one still open is closed by a later event that names it |
| AnalysisProvenance.TimelyRunDocumented | src/analysis/analysis-coordinator.ts:184-382 | Along any run of timely commits every event of every analysis is lawful for the state it extended and backed by the events it refers to |
| AnalysisRecord.RevisionMeans | src/analysis/analysis-coordinator.ts:184-223 | A recorded revision answers every question of its round, and the meaning it records is the option selected |
| AnalysisAgreement.WriterVerifierAgreement | src/analysis/analysis-completion.ts:59-281 | Of the completed analyses that runs of timely commits can produce, the verifier accepts those, and only those, whose every event was acceptable to the state it extended |
| AnalysisScenarios.UnobservedIsRefused | src/analysis/analysis-completion.ts:251-251 | A timely run that completes an analysis the replay refuses: one immaterial round without observations |
| AnalysisAgreement.OrdinaryAnalysesVerify | src/analysis/analysis-completion.ts:59-281 | A completed analysis with canonical capsule output, new identities, at least one observation and a material uncertainty in every round but the last is accepted |
| AnalysisAgreement.MaterialRoundsAreRevisedOnce | src/analysis/analysis-coordinator.ts:897-903 | No round is revised twice as long as every earlier round carried a material uncertainty |
| AnalysisCoordinators.AnalysisCoordinator.Advance | src/analysis/analysis-coordinator.ts:80-382 | A request is dispatched only after it was reserved in both streams, within every limit of the budget and for exactly what is left of it; what a dispatched request used is charged, or its outcome is on record for an operator; an uncertain answer waits for one, and a capsule that gave up or was aborted never completes a round; a waiting, exhausted or completed result has its question or completion on record; every commit is a step of a legal run |
| AnalysisCoordinators.AnalysisCoordinator.EnsureStarted | src/analysis/analysis-coordinator.ts:134-159 | The analysis goes on only with the requested budget and the retained intake |
| AnalysisCoordinators.AnalysisCoordinator.AnswerRound | src/analysis/analysis-coordinator.ts:184-223 | An open material round is asked, awaited, or answered by an operator's combination on offer; the answer recorded is the latest round's |
| AnalysisCoordinators.AnalysisCoordinator.Dispatch | src/analysis/analysis-coordinator.ts:229-382 | Reservation, dispatch and conclusion of one round |
| AnalysisCoordinators.AnalysisCoordinator.ReserveAnalysisBudget | src/analysis/analysis-budget.ts:49-94 | The reservation is in both streams, naming each other, for the round after the observed ones |
| AnalysisCoordinators.AnalysisCoordinator.Observe | src/analysis/analysis-budget.ts:102-144 | The observation of the own reservation, word for word the answer, is recorded together with a charge of exactly its usage |
| AnalysisCoordinators.AnalysisCoordinator.AfterObservation | src/analysis/analysis-coordinator.ts:335-382 | Exhaustion, a question on record, an ending, or a recorded completion |
| AnalysisCoordinators.AnalysisCoordinator.SettleKnownTerminal | src/analysis/analysis-coordinator.ts:507-543 | The ending, with its outcome, is recorded and the capsule's usage charged with it; where it has to be reconciled instead, the uncertainty and the usage are on record |
| AnalysisCoordinators.AnalysisCoordinator.SettleAgainstExternalTerminal | src/analysis/analysis-coordinator.ts:545-574 | The analysis follows the ending of its run: the ending is recorded and its usage charged |
| AnalysisCoordinators.AnalysisCoordinator.ReconcileChangedRun | src/analysis/analysis-coordinator.ts:576-593 | A run that moved leaves the reservation and its usage on record for an operator, unless something is already |
| AnalysisCoordinators.AnalysisCoordinator.HandleExhaustion | src/analysis/analysis-coordinator.ts:449-463 | Cancelled, or still exhausted with the question on record |
| AnalysisCoordinators.AnalysisCoordinator.Exhaust | src/analysis/analysis-coordinator.ts:465-485 | The exhaustion and the question about it are on record |
| AnalysisCoordinators.AnalysisCoordinator.ReconcileInvocation | src/analysis/analysis-coordinator.ts:618-647 | Only an operator reconciles; a release needs an invocation known to have had no effect and charges zero, any other settlement charges the usage of the reconciliation event then on the stream |
| AnalysisCoordinators.AnalysisCoordinator.ReviseBudget | src/analysis/analysis-coordinator.ts:384-417 | A budget is raised only to a strictly higher one, by an operator's acceptance of exactly it |
| AnalysisCoordinators.AnalysisCoordinator.EnsureQuestionnaire | src/analysis/analysis-coordinator.ts:673-701 | The questionnaire asked is the canonical one of the round, and it is in the journal afterwards |
| AnalysisCoordinators.AnalysisCoordinator.Commit | src/analysis/analysis-coordinator.ts:766-772 | Every commit is a step of the protocol from a stale view, so the run stays legal |
| GrantProtocol.GrantStreamShape | src/capsule/github-broker.ts:271-520 | Over any run of concurrent brokers every grant stream is empty, denied, or consumed, accepted, observed at most once and then reconciled with attempts 1..k, k at most 5, nothing after a completed one |
| GrantProtocol.SentOnce | src/capsule/github-broker.ts:271-384 | However many brokers are called however often, one grant sends at most one effect |
| GrantProtocol.DeniedNeverSent | src/capsule/github-broker.ts:271-384 | A call answered with a denied receipt sent nothing |
| GrantProtocol.SentIsAuthorised | src/capsule/github-broker.ts:386-422 | Over any run every call that holds its grant or was sent has a host policy whose own grant, of the right audience, names exactly its action, a pull request exactly its push |
| GrantProtocol.AdmissibleExactly | src/capsule/github-broker.ts:386-454 | The checks before an admission pass exactly when the call is authorised, not expired and, for a pull request, its push is on record as completed |
| GrantProtocol.DenialHasCause | src/capsule/github-broker.ts:386-422 | A denial recorded for cause means that on what was read one of these failed |
| GrantProtocol.DeniedStaysUnsent | src/capsule/github-broker.ts:271-384 | and never will, in any continuation |
| GrantProtocol.GrantMayBeSentExactly | src/capsule/github-broker.ts:271-422 | A grant is sent in some continuation if and only if nothing is on record for it yet, or a call holds it or has sent it |
| GrantProtocol.RecordedDenialIsFinal | src/capsule/github-broker.ts:386-461 | Once a grant's stream starts with a denial, or its observation is a denial, no call ever sends it; an uncertain observation means that it was sent |
| GrantProtocol.DeniedGrantMayBeSent | src/capsule/github-broker.ts:386-422 | The denial of a call does not speak of its grant: a run in which a denied second call shares its grant with a sent first one |
| GrantProtocol.SentPullRequestHasPush | src/capsule/github-broker.ts:424-454 | A pull request that was sent rests on a push whose grant stream has at least four events and ends completed, now and in every later journal |
| GrantProtocol.PrerequisiteExactly | src/capsule/github-broker.ts:424-454 | The prerequisite holds exactly when the policy's own push grant ends completed with a stream that is not of length three |
| GrantProtocol.CompletedUnobservedIsStuck | src/capsule/github-broker.ts:433-433 | A push completed by its first reconciliation before its own observation was recorded can never support a pull request |
| GrantProtocol.CompletedUnobservedIsReachable | src/capsule/github-broker.ts:433-433 | A run whose sent push has exactly that stream: consumed, accepted, reconciled as completed |
| GrantProtocol.CompletedInFuture | src/capsule/github-broker.ts:463-520 | Nothing is ever appended to a completed grant |
| GrantModel.ReconciliationState | src/capsule/github-broker.ts:463-520 | The strict replay allows a further attempt exactly when the stream is reconcilable, and numbers it |
| GrantProtocol.ReconcilableExactly | src/capsule/github-broker.ts:463-520 | On well-shaped streams a further reconciliation is allowed exactly when the effect was consumed under the policy's own grant, not denied, not completed, tried less than five times and still in its window |
| GrantBroker.GitHubEffectBroker.Dispatch | src/capsule/github-broker.ts:271-384 | The flag logic: a denied receipt means nothing was sent, an uncertain one that something was |
| GrantBroker.GitHubEffectBroker.Admit | src/capsule/github-broker.ts:386-422 | A call is admitted, with the grant consumed for exactly its action, only under a host policy whose own grant of the right audience names that action and has not expired; otherwise it is denied, and admission itself sends nothing |
| GrantBroker.GitHubEffectBroker.ObserveEffect | src/capsule/github-broker.ts:456-461 | The call ends with the receipt of its outcome, or without one when a reconciliation came first |
| GrantBroker.GitHubEffectBroker.ReconcileEffect | src/capsule/github-broker.ts:173-269 | A recorded outcome is the last event of a well-shaped stream, within the bound on attempts |
| Artifacts.ProjectArtifacts | src/contracts/artifact.ts:224-375 | The fold over maps and pending markers accepts exactly the streams the automaton accepts and returns what it retains |
| ArtifactRecord.AcceptedExactly | src/contracts/artifact.ts:224-375 | Without the replay's state: a stream is accepted exactly when every event is legal after those before it, by event types, identities and digests alone |
| ArtifactRecord.ViewExactly | src/contracts/artifact.ts:224-375 | and what is returned is what the events say was retained |
| ArtifactTheorems.ArtifactChain | src/contracts/artifact.ts:490-590 | One artifact of a kind; both maps keyed by exactly the retained identities; every digest that of its evidence; a review names the retained patch and validation; a receipt embeds the retained review |
| ArtifactTheorems.ReceiptKeepsPreparation | src/contracts/artifact.ts:520-560 | A receipt after a preparation equals it except possibly in its outcome, and exactly if completed |
| ArtifactTheorems.MarkerProtocol | src/contracts/artifact.ts:245-277 | Each marker is followed by exactly the artifact it announces and then by the consuming event its evidence determines |
| ArtifactRecord.MarkedIsConsumed | src/contracts/artifact.ts:640-692 | By event types: after a marked patch validation starts; after an approved review it is approved, after a refused one it is denied; after a receipt comes the event of its own outcome |
| ArtifactScenario.OrdinaryIsAccepted | src/contracts/artifact.ts:224-375 | An ordinary marked stream, from creation to completion, is accepted |
| ArtifactTheorems.NothingAfterTerminal | src/contracts/artifact.ts:338-368 | In artifact mode nothing follows a terminal event, and no artifact or marker ever does |
| WriterEvents.CheckWriterEventChain | src/agents/writer-events.ts:40-54 | The checking loop accepts exactly the well-formed chains |
| WriterEvents.CreateWriterEventChain | src/agents/writer-events.ts:59-145 | A chain is returned exactly where the output reports the events line by line within the bounds on bytes and events; it retains, record by record at its position, kind, status, tool, path, line digest and bytes, or one tool-use event per nested block with the line's bytes on the last; it passes the checker, accounts for every byte once and ends in the whole output |
| WriterEvents.EmitBlocks | src/agents/writer-events.ts:117-137 | Nested blocks share a line: one event each, all the bytes of the line on the last one and none on the others |
| WriterEvents.FramingRestores | src/agents/writer-events.ts:65-67 | Splitting into lines loses nothing |
| WriterEvents.ChainDeterminesOutput | src/agents/writer-events.ts:40-54 | Two checked chains over the same events describe the same output |
| Cost.DecimalIsFloor | src/contracts/cost.ts:28-33 | Plain decimals: floor of the exact value times ten to the ninth |
| Cost.ScientificIsFloor | src/contracts/cost.ts:35-47 | Scientific notation: the same floor in all three positions of the point |
| Cost.ParsersAgree | src/contracts/cost.ts:7-14 | Both parsers agree on every two spellings of one number |
| Cost.FloorOfValue | src/contracts/cost.ts:28-47 | The floor depends on the number only, not on how it is written |
| CostRender.RenderRoundTrip | src/contracts/cost.ts:7-14 | Printing n nanodollars as section 6.1.6.1.20 of ECMA-262 does and parsing gives n, for every n up to 10^13 |
| CostRender.RenderIsInjective | src/contracts/cost.ts:7-14 | No two amounts print alike |
| SnapshotChunks.StreamSource | src/analysis/analysis-repository-snapshot.ts:103-141 | The nested loops write, hash and count exactly the UTF-8 encoding of the whole text within the budget, or fail; a budget failure means it does not fit |
| SnapshotChunks.WriteAll | src/analysis/analysis-repository-snapshot.ts:123-130 | Short writes are continued until the chunk is out, or fail without progress |
| SnapshotChunks.ChunkingIsTransparent | src/analysis/analysis-repository-snapshot.ts:103-141 | From every chunk boundary on, the encodings of the chunks concatenate to the encoding of the text |
| Utf8.EncodeConcat | src/analysis/analysis-repository-snapshot.ts:115-119 | Encoding is compositional wherever no surrogate pair is cut (section 3 of RFC 3629) |
| Utf8.DecodeEncode | src/analysis/analysis-repository-snapshot.ts:115-119 | A decoder by the byte ranges of section 4 of RFC 3629 reads the written bytes back to the text, lone surrogates replaced |
| Utf8.SequenceExactly | src/analysis/analysis-repository-snapshot.ts:115-119 | Such a sequence stands for a scalar value exactly when it is what the encoder writes for it: no overlong form, no surrogate |
| Utf8.StraddlingDiffers | src/analysis/analysis-repository-snapshot.ts:118-118 | and is not where one is cut, which is why the chunk boundary moves |
| EgressAddresses.Ipv4Inverse | src/capsule/egress-policy.ts:207-212 | Reading and printing are mutual inverses between dotted texts and 32-bit values |
| EgressAddresses.FormReads | src/capsule/egress-policy.ts:213-225 | Every textual form of section 2.2 of RFC 4291 reads as the number its eight groups make up |
| EgressAddresses.OneAddressOneValue | src/capsule/egress-policy.ts:213-225 | Two forms have the same value exactly when they name the same address, and it is below 2^128 |
| EgressAddresses.SubnetIsRange | src/capsule/egress-policy.ts:226-229 | A subnet is exactly the numeric range of its prefix |
| EgressAddresses.PublicIpv4Exactly | src/capsule/egress-policy.ts:177-182 | The verdict on an IPv4 text, octet range by octet range |
| EgressAddresses.PublicIpv6Exactly | src/capsule/egress-policy.ts:183-205 | The verdict on every textual form of an IPv6 address, by its groups: nine of the thirteen listed networks are redundant |
| EgressAddresses.MappedVerdict | src/capsule/egress-policy.ts:185-185 | An IPv4-mapped address (section 2.5.5.2 of RFC 4291), however it is written, gets the verdict of its embedded address |
| EgressAddresses.MappedText | src/capsule/egress-policy.ts:185-185 | In particular the usual spelling does |
| ConformanceReport.BuildReport | src/conformance/three-pod-report.ts:39-135 | On well-formed timestamps and identifiers, a report is returned exactly when the evidence is in order, announced as expected, within the configured capacity at all times, with the expected pods, no acceptance of a unit never formed and no event after the trusted clock |
| ConformanceReport.ConfiguredCapacities | src/conformance/three-pod-report.ts:205-218 | The limits are those of the last announcement, found from the end, with the expected writer and integration capacity where it is silent; none where it is missing or malformed |
| ConformanceReport.FoldCapacities | src/conformance/three-pod-report.ts:57-70 | The fold fails exactly on a malformed amount or a release that was not acquired, and otherwise returns the peaks |
| ConformanceReport.PeakIsMaximum | src/conformance/three-pod-report.ts:67-67 | A peak is the greatest use over all prefixes, and it is reached |
| ConformanceReport.CausationExactly | src/conformance/three-pod-report.ts:124-134 | There are no gaps exactly when the first causal event is an uncaused start and every causal event reaches it by a finite chain of strictly earlier causes |
| ConformanceReport.AssertEventSequence | src/conformance/three-pod-report.ts:230-238 | Accepts exactly strictly increasing positive positions with distinct identities |
| ConformanceReport.HandoverIsImmaterial | src/conformance/three-pod-report.ts:48-49 | The order in which the events are handed over does not matter |
| AgentTrailEvents.ValidateLifecycle | src/agenttrail/agenttrail-events.ts:170-224 | The validating loop accepts exactly the histories of the one-event-at-a-time automaton |
| AgentTrailEvents.ValidExactly | src/agenttrail/agenttrail-events.ts:170-224 | Without the automaton: a history is valid exactly when each event may follow those before it, process identities in force included |
| AgentTrailEvents.PrefixClosed | src/agenttrail/agenttrail-events.ts:170-224 | Every prefix of a valid history is valid, and its next event is a step of the automaton |
| AgentTrailEvents.ReadyIsSeparated | src/agenttrail/agenttrail-events.ts:170-224 | Before every ready event but the first come a failure, the start of another incarnation and a restart naming the failed one |
| AgentTrailEvents.PidIsConstant | src/agenttrail/agenttrail-events.ts:226-232 | Between two starts the process identity and the incarnation are constant |
| AgentTrailEvents.FreshStartsKeepProcess | src/agenttrail/agenttrail-events.ts:164-238 | While every start names an incarnation without a process on record, all events of one incarnation name one process |
| AgentTrailEvents.OneProcessExactly | src/agenttrail/agenttrail-events.ts:164-238 | And only then: the starts of a valid history are fresh if and only if each of its prefixes, however it validly goes on up to the next start, has one process per incarnation |
| AgentTrailEvents.IncarnationMayReturn | src/agenttrail/agenttrail-events.ts:186-192 | Only the preceding incarnation is compared: a valid history in which an older one returns with another process |
| AgentTrailEvents.ValidateStoredHistory | src/agenttrail/agenttrail-events.ts:139-162 | Accepts exactly one correlation, an unbroken causation chain, evidence of the schema and a valid lifecycle |
| AgentTrailEvents.PinnedReplays | src/agenttrail/agenttrail-events.ts:131-137 | What a sink keeps can be replayed by someone who expects nothing |
| AgentTrailEvents.JournalAgentTrailEvidenceSink.Attach | src/agenttrail/agenttrail-events.ts:90-105 | A sink exists exactly for a stream that holds a valid history |
| AgentTrailEvents.JournalAgentTrailEvidenceSink.Record | src/agenttrail/agenttrail-events.ts:107-124 | A record extends stream and retained evidence by one event and keeps the stored history valid, or changes nothing |

## Left out

- Advance: says nothing about the record behind a cancelled, ended or reconciling result, because the code also returns these when only the run, or another client's reservation, says so.
- EnsureStarted: a start that is lost to a client which has ended the analysis since is answered with an error at once; the code finds out a few reads later, from the lifecycle of the run.
- CancelFromDecision: refuses to append to a stream that does not replay; the code appends without replaying.
- Commit: three readings of the ledger before a reservation are one reading here; the version check on both streams makes them equal whenever the commit is accepted.
- CreateWriterEventChain: JSON parsing of a line is a parameter, and fields beyond type, status, tool, path and the nested blocks are not modelled.
- RenderRoundTrip: the shortest decimal digits of a double are the decimal digits of the amount; rounding of doubles is not modelled.
- IsIpv4: texts are those the platform's address check accepts; zone suffixes of IPv6 addresses are not modelled.
- FoldCapacities: a payload field that is no nonnegative integer is a negative number here.
- BuildReport: the refusal of malformed timestamps, identifiers, payload shapes and clock values, and the figures on waits, throughput, conflicts and assignments, are not modelled.
- AttentionService: raising and resolving agent warnings are steps of the protocol (`RaiseWarning`, `ResolveWarning`) but not methods of the class; polling and the other read-only views add nothing to it. Their commits by other clients are part of `Interfere`.
- Journal limits (event counts, bytes, pages), identifier syntax of events, and the database underneath.
- Schema limits and regular expressions, except where a result depends on them; text lengths in questionnaires (`questionnaireShapeExceedsAttention`) and malformed nested fields of lifecycle payloads in artifact replay.
- The projection of the run itself: a run stream has a version and opaque events here, its lifecycle is an arbitrary answer, and the commands of the run service are single events.
- In the analysis, a decision stream is reduced to a question and one outcome; that it has at most one outcome, from an operator if the question is material, is what the attention theorems prove.
- Leases and the in-process lock of the GitHub broker, credentials, executables and processes; the proofs about grants do not need them.
- Retry delays, timers and abort signals while a capsule works; clock readings are parameters.
- Capsules, Docker, Git, HTTP, the scheduler, pods and path claims, intake and planning, the command line and its presentation.
