/** Replay of retained task artifacts: one fold with lookahead over a task's stream. */
module Artifacts {
  import opened EventJournal

  datatype Kind = Patch | ValidationReport | ReviewReport | IntegrationReceipt
  datatype Phase = Prepared | Final
  datatype Outcome = Completed | Cancelled | TimedOut | Failed

  /** Digests are injective: a digest is its content. Commits share their type. */
  datatype Digest =
    | DiffDigest(diff: Id)
    | CommandDigest(command: seq<Id>)
    | OutputDigest(stdout: Id, stderr: Id)
    | ReportDigest(report: Evidence)
    | ReviewDigest(decision: Evidence)
    | ReceiptDigest(receipt: Evidence)
    | OtherDigest(token: Id)

  datatype Evidence =
    | PatchEvidence(diff: Id, diffDigest: Digest, changedPath: Id, changedContent: Digest)
    | Report(name: Id, outcome: Outcome, exitCode: Option<int>, stdout: Id, stderr: Id, startedAt: int, finishedAt: int,
             command: seq<Id>, argvDigest: Digest, outputDigest: Digest, subject: Option<Digest>, provenance: Id)
    | Decision(reviewerId: Id, approved: bool, diffDigest: Digest, validationDigest: Digest, decidedAt: int, cause: Id)
    | Receipt(taskId: Id, projectId: Id, sourceCommit: Digest, original: Option<Digest>, result: Option<Digest>,
              review: Evidence, validation: Evidence, outcome: Outcome)

  datatype Artifact = Artifact(artifactId: Id, taskId: Id, kind: Kind, digest: Digest)

  const FOCUSED: Id := 1
  const FULL: Id := 2

  datatype TaskType =
    | Created | Started | ValidationStarted | ValidationCompleted | ReviewRequested | ReviewApproved
    | IntegrationStarted | IntegrationPrepared | IntegrationObserved
    | TaskCompleted | TaskCancelled | TaskDenied | TaskTimedOut | TaskFailed | OtherTask(name: Id)

  /** The payload fields a lifecycle event may carry. */
  datatype Fields = Fields(projectId: Option<Id>, reviewerId: Option<Id>, sourceCommit: Option<Digest>,
                           diffDigest: Option<Digest>, changed: Option<(Id, Digest)>, outcome: Option<Outcome>,
                           verified: bool, validation: Option<Evidence>, review: Option<Evidence>,
                           receipt: Option<Evidence>)

  datatype Payload =
    | Marker(artifactId: Id, kind: Kind, digest: Digest)
    | BadMarker
    | Recorded(artifact: Artifact, evidence: Evidence, explicitPhase: Option<Phase>)
    | BadRecord(recordKind: Kind)
    | Task(task: TaskType, fields: Fields)

  type Event = StoredEvent<Id, Payload>

  /** The schema of each evidence kind, as far as the replay depends on it. */
  predicate WellTyped(kind: Kind, evidence: Evidence) {
    match kind
    case Patch => evidence.PatchEvidence?
    case ValidationReport => evidence.Report? && ReportSchema(evidence)
    case ReviewReport => evidence.Decision?
    case IntegrationReceipt =>
      evidence.Receipt? && evidence.review.Decision? && evidence.validation.Report? && ReportSchema(evidence.validation)
  }

  predicate ReportSchema(r: Evidence)
    requires r.Report?
  {
    && (r.outcome == Completed ==> r.exitCode == Some(0))
    && (r.outcome == Failed ==> r.exitCode != Some(0))
    && (r.outcome in {Cancelled, TimedOut} ==> r.exitCode == None)
    && r.startedAt <= r.finishedAt
  }

  /** The digest an artifact must carry, unless its evidence contradicts itself. */
  function EvidenceDigest(kind: Kind, e: Evidence): Option<Digest> {
    if !WellTyped(kind, e) then None else
    match kind
    case Patch => if e.diffDigest != DiffDigest(e.diff) then None else Some(e.diffDigest)
    case ValidationReport =>
      if e.argvDigest != CommandDigest(e.command) || e.outputDigest != OutputDigest(e.stdout, e.stderr) then None
      else Some(ReportDigest(e))
    case ReviewReport => Some(ReviewDigest(e))
    case IntegrationReceipt => Some(ReceiptDigest(e))
  }

  predicate IsTerminal(t: TaskType) {
    t in {TaskCompleted, TaskCancelled, TaskDenied, TaskTimedOut, TaskFailed}
  }

  function TerminalOf(outcome: Outcome): TaskType {
    match outcome
    case Completed => TaskCompleted
    case Cancelled => TaskCancelled
    case TimedOut => TaskTimedOut
    case Failed => TaskFailed
  }

  // ---------- Looking around ----------

  /** The last event of this type before `version`. */
  function PriorEvent(events: seq<Event>, version: nat, t: TaskType): Option<Fields> {
    if events == [] then None else
    var last := events[|events| - 1];
    if last.streamVersion < version && last.payload.Task? && last.payload.task == t then Some(last.payload.fields)
    else PriorEvent(events[..|events| - 1], version, t)
  }

  predicate HasPrior(events: seq<Event>, version: nat, t: TaskType) {
    PriorEvent(events, version, t).Some?
  }

  predicate HasMatchingLaterPreparation(events: seq<Event>, version: nat, digest: Digest) {
    exists i :: 0 <= i < |events| && events[i].streamVersion > version && events[i].payload.Task?
      && events[i].payload.task == IntegrationPrepared && events[i].payload.fields.receipt.Some?
      && ReceiptDigest(events[i].payload.fields.receipt.value) == digest
  }

  predicate HasGap(events: seq<Event>) {
    exists i :: 0 < i < |events| && events[i].streamVersion != events[i - 1].streamVersion + 1
  }

  function AtVersion(events: seq<Event>, version: nat): Option<Payload> {
    if events == [] then None
    else if events[0].streamVersion == version then Some(events[0].payload)
    else AtVersion(events[1..], version)
  }

  // ---------- The fold ----------

  datatype Entry = Entry(artifact: Artifact, evidence: Evidence, phase: Phase)

  datatype Field = ValidationField | ReviewField | ReceiptField | NoField
  datatype Consumer = Consumer(types: set<TaskType>, field: Field)

  datatype State = State(artifacts: seq<Artifact>, evidence: map<Id, Evidence>, phases: map<Id, Phase>,
                         byKind: map<Kind, Entry>, ids: set<Id>, mode: bool, terminal: bool,
                         marker: Option<Payload>, consumer: Option<Consumer>)

  function Initial(events: seq<Event>): State {
    State([], map[], map[], map[], {}, HasGap(events), false, None, None)
  }

  function RecordKind(payload: Payload): Option<Kind> {
    match payload
    case Recorded(artifact, _, _) => Some(artifact.kind)
    case BadRecord(kind) => Some(kind)
    case _ => None
  }

  predicate CarriesField(fields: Fields, field: Field) {
    match field
    case ValidationField => fields.validation.Some?
    case ReviewField => fields.review.Some?
    case ReceiptField => fields.receipt.Some?
    case NoField => true
  }

  predicate Consumes(payload: Payload, consumer: Consumer) {
    payload.Task? && payload.task in consumer.types && CarriesField(payload.fields, consumer.field)
  }

  function RequiredConsumer(kind: Kind, evidence: Evidence, phase: Phase, patch: Option<Digest>): Consumer
    requires WellTyped(kind, evidence)
  {
    match kind
    case Patch => Consumer({ValidationStarted}, NoField)
    case ValidationReport =>
      Consumer(if evidence.subject != patch then {TaskFailed}
               else if evidence.outcome == Completed then {ValidationCompleted, ReviewRequested, TaskFailed}
               else {ValidationCompleted, TerminalOf(evidence.outcome)}, ValidationField)
    case ReviewReport => Consumer({if evidence.approved then ReviewApproved else TaskDenied}, ReviewField)
    case IntegrationReceipt =>
      Consumer({if phase == Prepared then IntegrationPrepared else TerminalOf(evidence.outcome)}, ReceiptField)
  }

  predicate InOrder(kind: Kind, events: seq<Event>, version: nat) {
    match kind
    case Patch => HasPrior(events, version, Started) && !HasPrior(events, version, ValidationStarted)
    case ValidationReport => HasPrior(events, version, ValidationStarted) && !HasPrior(events, version, ReviewRequested)
    case ReviewReport => HasPrior(events, version, ReviewRequested) && !HasPrior(events, version, ReviewApproved)
    case IntegrationReceipt => HasPrior(events, version, IntegrationStarted)
  }

  predicate SuccessfulPrepared(r: Evidence)
    requires r.Receipt? && r.review.Decision? && r.validation.Report?
  {
    && r.outcome == Completed && r.review.approved && r.original.Some? && r.result.Some?
    && r.validation.name == FULL && r.validation.outcome == Completed && r.validation.exitCode == Some(0)
    && r.validation.subject == r.result
  }

  predicate ImmediateValidationFailure(report: Evidence, version: nat, events: seq<Event>) {
    var next := AtVersion(events, version + 1);
    && next.Some? && next.value.Task? && next.value.task == TaskFailed
    && next.value.fields.validation == Some(report)
  }

  /** The receipt of the latest preparation before `version`. */
  function PreparedReceipt(events: seq<Event>, version: nat): Option<Evidence> {
    var prepared := PriorEvent(events, version, IntegrationPrepared);
    if prepared.Some? then prepared.value.receipt else None
  }

  predicate ReceiptChained(receipt: Evidence, phase: Phase, byKind: map<Kind, Entry>, event: Event, events: seq<Event>)
    requires WellTyped(IntegrationReceipt, receipt)
  {
    var created := PriorEvent(events, event.streamVersion, Created);
    var started := PriorEvent(events, event.streamVersion, IntegrationStarted);
    var prepared := PreparedReceipt(events, event.streamVersion);
    var expected := if receipt.result.Some? then receipt.result
      else if prepared.Some? && prepared.value.Receipt? then prepared.value.result else None;
    && ReviewReport in byKind && created.Some? && started.Some?
    && (phase == Prepared ==> SuccessfulPrepared(receipt))
    && receipt.taskId == event.streamId && created.value.projectId == Some(receipt.projectId)
    && started.value.sourceCommit == Some(receipt.sourceCommit)
    && receipt.review == byKind[ReviewReport].evidence && started.value.review == Some(receipt.review)
    && receipt.validation.name == FULL
    && (if expected.None? then phase == Final && receipt.outcome != Completed
        else receipt.validation.subject == expected)
    && (prepared.Some? ==> prepared.value.Receipt? && receipt.(outcome := prepared.value.outcome) == prepared.value)
    && (receipt.outcome == Completed && prepared.Some? ==> receipt == prepared.value)
  }

  /** What a new artifact must say about the artifacts it builds on. */
  predicate Chained(kind: Kind, e: Evidence, phase: Phase, byKind: map<Kind, Entry>, event: Event, events: seq<Event>)
    requires WellTyped(kind, e)
  {
    match kind
    case Patch => true
    case ValidationReport =>
      Patch in byKind && (e.subject == Some(byKind[Patch].artifact.digest)
                          || ImmediateValidationFailure(e, event.streamVersion, events))
    case ReviewReport =>
      && Patch in byKind && ValidationReport in byKind
      && var request := PriorEvent(events, event.streamVersion, ReviewRequested);
      && request.Some? && e.diffDigest == byKind[Patch].artifact.digest
      && e.validationDigest == byKind[ValidationReport].artifact.digest
      && request.value.reviewerId == Some(e.reviewerId)
    case IntegrationReceipt => ReceiptChained(e, phase, byKind, event, events)
  }

  /** What a lifecycle event may say once artifacts are in play. */
  predicate LifecycleReference(t: TaskType, f: Fields, byKind: map<Kind, Entry>) {
    && (t == ValidationStarted ==>
          && Patch in byKind && f.diffDigest == Some(byKind[Patch].artifact.digest)
          && byKind[Patch].evidence.PatchEvidence?
          && f.changed == Some((byKind[Patch].evidence.changedPath, byKind[Patch].evidence.changedContent)))
    && (t == ReviewRequested ==> f.validation.Some?)
    && (f.validation.Some? ==>
          && ValidationReport in byKind && f.validation.value.Report?
          && EvidenceDigest(ValidationReport, f.validation.value) == Some(byKind[ValidationReport].artifact.digest)
          && (t == ReviewRequested ==>
                f.validation.value.name == FOCUSED && f.validation.value.outcome == Completed
                && f.validation.value.exitCode == Some(0))
          && (t == ValidationCompleted ==>
                && f.outcome == Some(f.validation.value.outcome) && Patch in byKind
                && f.diffDigest == Some(byKind[Patch].artifact.digest)
                && f.validation.value.subject == Some(byKind[Patch].artifact.digest)))
    && (t in {ReviewApproved, IntegrationStarted} ==> f.review.Some?)
    && (f.review.Some? ==>
          && ReviewReport in byKind && ReviewDigest(f.review.value) == byKind[ReviewReport].artifact.digest
          && (t in {ReviewApproved, IntegrationStarted} ==> f.review.value.Decision? && f.review.value.approved))
    && (t == IntegrationPrepared ==>
          && f.receipt.Some? && IntegrationReceipt in byKind && byKind[IntegrationReceipt].phase == Prepared
          && ReceiptDigest(f.receipt.value) == byKind[IntegrationReceipt].artifact.digest
          && WellTyped(IntegrationReceipt, f.receipt.value) && SuccessfulPrepared(f.receipt.value))
    && (f.receipt.Some? && (t == IntegrationObserved ==> f.verified) ==>
          IntegrationReceipt in byKind && ReceiptDigest(f.receipt.value) == byKind[IntegrationReceipt].artifact.digest)
    && (f.receipt.Some? && IsTerminal(t) ==>
          f.receipt.value.Receipt? && t == TerminalOf(f.receipt.value.outcome))
  }

  function Without(artifacts: seq<Artifact>, id: Id): seq<Artifact> {
    if artifacts == [] then []
    else if artifacts[0].artifactId == id then artifacts[1..]
    else [artifacts[0]] + Without(artifacts[1..], id)
  }

  function PhaseOf(events: seq<Event>, event: Event): Phase
    requires event.payload.Recorded?
  {
    var artifact := event.payload.artifact;
    if artifact.kind == IntegrationReceipt && event.payload.explicitPhase.Some? then event.payload.explicitPhase.value
    else if artifact.kind == IntegrationReceipt
      && HasMatchingLaterPreparation(events, event.streamVersion, artifact.digest) then Prepared
    else Final
  }

  predicate Replaces(st: State, artifact: Artifact, phase: Phase) {
    artifact.kind == IntegrationReceipt && phase == Final && IntegrationReceipt in st.byKind
    && st.byKind[IntegrationReceipt].phase == Prepared
  }

  predicate RecordAccepted(events: seq<Event>, st: State, event: Event)
    requires event.payload.Recorded?
  {
    var artifact, evidence, phase := event.payload.artifact, event.payload.evidence, PhaseOf(events, event);
    && WellTyped(artifact.kind, evidence)
    && (st.marker.Some? ==> st.marker.value == Marker(artifact.artifactId, artifact.kind, artifact.digest))
    && artifact.taskId == event.streamId && artifact.artifactId !in st.ids
    && (artifact.kind in st.byKind ==> Replaces(st, artifact, phase))
    && EvidenceDigest(artifact.kind, evidence) == Some(artifact.digest)
    && InOrder(artifact.kind, events, event.streamVersion)
    && Chained(artifact.kind, evidence, phase, st.byKind, event, events)
  }

  function Record(events: seq<Event>, st: State, event: Event): State
    requires event.payload.Recorded? && RecordAccepted(events, st, event)
  {
    var artifact, evidence, phase := event.payload.artifact, event.payload.evidence, PhaseOf(events, event);
    var replaced := Replaces(st, artifact, phase);
    var earlier := if replaced then st.byKind[IntegrationReceipt].artifact.artifactId else 0;
    var byKind := st.byKind[artifact.kind := Entry(artifact, evidence, phase)];
    st.(artifacts := (if replaced then Without(st.artifacts, earlier) else st.artifacts) + [artifact],
        evidence := (if replaced then st.evidence - {earlier} else st.evidence)[artifact.artifactId := evidence],
        phases := (if replaced then st.phases - {earlier} else st.phases)[artifact.artifactId := phase],
        byKind := byKind, ids := st.ids + {artifact.artifactId}, mode := true, marker := None,
        consumer := if st.marker.Some?
          then Some(RequiredConsumer(artifact.kind, evidence, phase,
                                     if Patch in byKind then Some(byKind[Patch].artifact.digest) else None))
          else None)
  }

  /** One event of the replay; the whole stream is at hand for looking around. */
  function Step(events: seq<Event>, st: State, event: Event): Option<State> {
    var p := event.payload;
    if st.marker.Some? && (!st.marker.value.Marker? || RecordKind(p) != Some(st.marker.value.kind)) then None
    else if st.consumer.Some? && !Consumes(p, st.consumer.value) then None
    else if st.terminal && (st.mode || !p.Task?) then None
    else
      var open := st.(consumer := None, terminal := st.terminal || (p.Task? && IsTerminal(p.task)));
      match p
      case BadMarker => None
      case BadRecord(_) => None
      case Marker(_, _, _) => Some(open.(mode := true, marker := Some(p)))
      case Recorded(_, _, _) => if RecordAccepted(events, open, event) then Some(Record(events, open, event)) else None
      case Task(t, f) =>
        if !open.mode then Some(open)
        else if !LifecycleReference(t, f, open.byKind) then None
        else if t == IntegrationObserved && f.verified then
          if IntegrationReceipt in open.byKind then
            Some(open.(phases := open.phases[open.byKind[IntegrationReceipt].artifact.artifactId := Final]))
          else None
        else Some(open)
  }

  function After(events: seq<Event>, n: nat): Option<State>
    requires n <= |events|
  {
    if n == 0 then Some(Initial(events)) else
    var before := After(events, n - 1);
    if before.None? then None else Step(events, before.value, events[n - 1])
  }

  datatype View = View(artifacts: seq<Artifact>, evidence: map<Id, Evidence>, phases: map<Id, Phase>)

  predicate Accepted(events: seq<Event>) {
    var st := After(events, |events|);
    st.Some? && st.value.marker.None? && st.value.consumer.None?
  }

  function Retained(st: State): View {
    View(st.artifacts, st.evidence, st.phases)
  }

  method ProjectArtifacts(events: seq<Event>) returns (view: Option<View>)
    ensures view.Some? <==> Accepted(events)
    ensures view.Some? ==> view.value == Retained(After(events, |events|).value)
  {
    var st := Initial(events);
    for n := 0 to |events|
      invariant After(events, n) == Some(st)
    {
      var next := Step(events, st, events[n]);
      if next.None? {
        RejectedStays(events, n + 1, |events|);
        return None;
      }
      st := next.value;
    }
    if st.marker.Some? || st.consumer.Some? {
      return None;
    }
    view := Some(Retained(st));
  }

  lemma {:induction false} RejectedStays(events: seq<Event>, n: nat, m: nat)
    requires n <= m <= |events| && After(events, n).None?
    ensures After(events, m).None?
  {
    if n < m {
      RejectedStays(events, n, m - 1);
    }
  }

  lemma AcceptedPrefix(events: seq<Event>, n: nat, m: nat)
    requires n <= m <= |events| && After(events, m).Some?
    ensures After(events, n).Some?
  {
    if After(events, n).None? {
      RejectedStays(events, n, m);
    }
  }
}
