/** Which task streams the artifact replay accepts, said event by event without its state. */
module ArtifactRecord {
  import opened EventJournal
  import opened Artifacts
  import opened ArtifactTheorems

  // ---------- Around an event ----------

  predicate IsTask(e: Event, t: TaskType) {
    e.payload.Task? && e.payload.task == t
  }

  /** A lifecycle event of this type stands at an earlier version. */
  predicate Earlier(events: seq<Event>, version: nat, t: TaskType) {
    exists i :: 0 <= i < |events| && events[i].streamVersion < version && IsTask(events[i], t)
  }

  /** The latest lifecycle event of this type at an earlier version carries these fields. */
  predicate Latest(events: seq<Event>, version: nat, t: TaskType, f: Fields) {
    exists i :: 0 <= i < |events| && LatestAt(events, version, t, i) && events[i].payload.fields == f
  }

  predicate LatestAt(events: seq<Event>, version: nat, t: TaskType, i: nat)
    requires i < |events|
  {
    && events[i].streamVersion < version && IsTask(events[i], t)
    && forall j :: i < j < |events| && events[j].streamVersion < version ==> !IsTask(events[j], t)
  }

  lemma {:induction false} PriorIndex(events: seq<Event>, version: nat, t: TaskType) returns (i: nat)
    ensures PriorEvent(events, version, t).Some? ==>
              i < |events| && LatestAt(events, version, t, i)
                && events[i].payload.fields == PriorEvent(events, version, t).value
    ensures PriorEvent(events, version, t).None? ==>
              forall j :: 0 <= j < |events| && events[j].streamVersion < version ==> !IsTask(events[j], t)
  {
    i := 0;
    if events != [] {
      var front, last := events[..|events| - 1], events[|events| - 1];
      if last.streamVersion < version && IsTask(last, t) {
        i := |front|;
      } else {
        i := PriorIndex(front, version, t);
        assert forall j :: 0 <= j < |front| ==> front[j] == events[j];
      }
    }
  }

  lemma PriorIsLatest(events: seq<Event>, version: nat, t: TaskType)
    ensures PriorEvent(events, version, t).Some? <==> Earlier(events, version, t)
    ensures PriorEvent(events, version, t).Some? ==> Latest(events, version, t, PriorEvent(events, version, t).value)
    ensures forall f :: Latest(events, version, t, f) ==> PriorEvent(events, version, t) == Some(f)
  {
    var i := PriorIndex(events, version, t);
    hide PriorEvent, IsTask;
  }

  /** The last artifact of a kind recorded among the first `n` events. */
  function LastRecorded(events: seq<Event>, n: nat, kind: Kind): (last: Option<Event>)
    requires n <= |events|
    ensures last.Some? ==> last.value.payload.Recorded? && last.value.payload.artifact.kind == kind
  {
    if n == 0 then None
    else if events[n - 1].payload.Recorded? && events[n - 1].payload.artifact.kind == kind then Some(events[n - 1])
    else LastRecorded(events, n - 1, kind)
  }

  /** A receipt is a preparation where it says so, or, where it does not say, where a later preparation carries it. */
  predicate IsPreparation(events: seq<Event>, e: Event)
    requires e.payload.Recorded?
  {
    && e.payload.artifact.kind == IntegrationReceipt
    && (e.payload.explicitPhase == Some(Prepared)
        || (e.payload.explicitPhase == None
            && exists i :: 0 <= i < |events| && events[i].streamVersion > e.streamVersion
                 && IsTask(events[i], IntegrationPrepared) && events[i].payload.fields.receipt.Some?
                 && ReceiptDigest(events[i].payload.fields.receipt.value) == e.payload.artifact.digest))
  }

  lemma PhaseIsPreparation(events: seq<Event>, e: Event)
    requires e.payload.Recorded?
    ensures PhaseOf(events, e) == if IsPreparation(events, e) then Prepared else Final
  {
  }

  // ---------- Sound evidence ----------

  /** A report whose exit code fits its outcome and whose digests are those of its command and output. */
  predicate SoundReport(r: Evidence) {
    && r.Report? && r.startedAt <= r.finishedAt
    && (match r.outcome
        case Completed => r.exitCode == Some(0)
        case Failed => r.exitCode != Some(0)
        case Cancelled => r.exitCode == None
        case TimedOut => r.exitCode == None)
  }

  predicate SoundReceipt(r: Evidence) {
    r.Receipt? && r.review.Decision? && SoundReport(r.validation)
  }

  /** The integration succeeded: approved, with both commits, and fully validated on its result. */
  predicate Succeeded(r: Evidence) {
    && SoundReceipt(r) && r.outcome == Completed && r.review.approved && r.original.Some? && r.result.Some?
    && r.validation.name == FULL && r.validation.outcome == Completed && r.validation.subject == r.result
  }

  predicate Digests(kind: Kind, e: Evidence, digest: Digest) {
    match kind
    case Patch => e.PatchEvidence? && digest == e.diffDigest == DiffDigest(e.diff)
    case ValidationReport =>
      SoundReport(e) && digest == ReportDigest(e) && e.argvDigest == CommandDigest(e.command)
      && e.outputDigest == OutputDigest(e.stdout, e.stderr)
    case ReviewReport => e.Decision? && digest == ReviewDigest(e)
    case IntegrationReceipt => SoundReceipt(e) && digest == ReceiptDigest(e)
  }

  lemma DigestsIsDigest(kind: Kind, e: Evidence, digest: Digest)
    ensures WellTyped(kind, e) && EvidenceDigest(kind, e) == Some(digest) <==> Digests(kind, e, digest)
  {
  }

  // ---------- What may be recorded ----------

  predicate DigestOf(last: Option<Event>, digest: Digest)
    requires last.Some? ==> last.value.payload.Recorded?
  {
    last.Some? && last.value.payload.artifact.digest == digest
  }

  predicate PatchMayFollow(events: seq<Event>, n: nat)
    requires n < |events|
  {
    var v := events[n].streamVersion;
    Earlier(events, v, Started) && !Earlier(events, v, ValidationStarted)
  }

  /** The report is about the retained patch, or a failure follows at once. */
  predicate ReportMayFollow(events: seq<Event>, n: nat, r: Evidence)
    requires n < |events| && r.Report?
  {
    var v, patch := events[n].streamVersion, LastRecorded(events, n, Patch);
    && Earlier(events, v, ValidationStarted) && !Earlier(events, v, ReviewRequested) && patch.Some?
    && (r.subject == Some(patch.value.payload.artifact.digest)
        || (AtVersion(events, v + 1).Some?
            && AtVersion(events, v + 1).value.Task? && AtVersion(events, v + 1).value.task == TaskFailed
            && AtVersion(events, v + 1).value.fields.validation == Some(r)))
  }

  /** The review is that of the requested reviewer, of the retained patch and report. */
  ghost predicate ReviewMayFollow(events: seq<Event>, n: nat, d: Evidence)
    requires n < |events| && d.Decision?
  {
    var v := events[n].streamVersion;
    && Earlier(events, v, ReviewRequested) && !Earlier(events, v, ReviewApproved)
    && DigestOf(LastRecorded(events, n, Patch), d.diffDigest)
    && DigestOf(LastRecorded(events, n, ValidationReport), d.validationDigest)
    && exists f :: Latest(events, v, ReviewRequested, f) && f.reviewerId == Some(d.reviewerId)
  }

  /** The commit the validation of a receipt must be about: its result, else that of its preparation. */
  function Subject(r: Evidence, prepared: Option<Evidence>): Option<Digest>
    requires r.Receipt?
  {
    if r.result.Some? then r.result
    else if prepared.Some? && prepared.value.Receipt? then prepared.value.result
    else None
  }

  ghost predicate ReceiptMayFollow(events: seq<Event>, n: nat, r: Evidence)
    requires n < |events| && SoundReceipt(r) && events[n].payload.Recorded?
  {
    var e, review := events[n], LastRecorded(events, n, ReviewReport);
    && review.Some? && r.review == review.value.payload.evidence
    && r.taskId == e.streamId && r.validation.name == FULL
    && (exists f :: Latest(events, e.streamVersion, Created, f) && f.projectId == Some(r.projectId))
    && (exists f :: Latest(events, e.streamVersion, IntegrationStarted, f)
          && f.sourceCommit == Some(r.sourceCommit) && f.review == Some(r.review))
    && (IsPreparation(events, e) ==> Succeeded(r))
    && var prepared := PreparedReceipt(events, e.streamVersion);
    && (match Subject(r, prepared)
        case None => !IsPreparation(events, e) && r.outcome != Completed
        case Some(commit) => r.validation.subject == Some(commit))
    && (prepared.Some? ==>
          && prepared.value.Receipt? && r == prepared.value.(outcome := r.outcome)
          && (r.outcome == Completed ==> prepared.value.outcome == Completed))
  }

  ghost predicate MayFollow(events: seq<Event>, n: nat)
    requires n < |events| && events[n].payload.Recorded?
  {
    var e := events[n].payload.evidence;
    match events[n].payload.artifact.kind
    case Patch => PatchMayFollow(events, n)
    case ValidationReport => e.Report? && ReportMayFollow(events, n, e)
    case ReviewReport => e.Decision? && ReviewMayFollow(events, n, e)
    case IntegrationReceipt => SoundReceipt(e) && ReceiptMayFollow(events, n, e)
  }

  /** An artifact of its own task, with an identity of its own, the first of its kind or a final receipt after a
    * prepared one, announced by the marker before it if there is one, sound, and in order. */
  ghost predicate RecordLegal(events: seq<Event>, n: nat)
    requires n < |events| && events[n].payload.Recorded?
  {
    var e, a := events[n], events[n].payload.artifact;
    && (n > 0 && events[n - 1].payload.Marker? ==> events[n - 1].payload == Marker(a.artifactId, a.kind, a.digest))
    && a.taskId == e.streamId
    && (forall j :: 0 <= j < n && events[j].payload.Recorded? ==> events[j].payload.artifact.artifactId != a.artifactId)
    && (LastRecorded(events, n, a.kind).Some? ==>
          a.kind == IntegrationReceipt && !IsPreparation(events, e)
          && IsPreparation(events, LastRecorded(events, n, a.kind).value))
    && Digests(a.kind, e.payload.evidence, a.digest)
    && MayFollow(events, n)
  }

  /** The entries of the replay's index are the last recorded artifacts. */
  ghost predicate IndexTells(events: seq<Event>, n: nat, byKind: map<Kind, Entry>)
    requires n <= |events|
  {
    forall k: Kind ::
      && (k in byKind <==> LastRecorded(events, n, k).Some?)
      && (k in byKind ==> IsEntry(events, LastRecorded(events, n, k).value, byKind[k]))
  }

  predicate IsEntry(events: seq<Event>, e: Event, entry: Entry) {
    && e.payload.Recorded? && entry.artifact == e.payload.artifact && entry.evidence == e.payload.evidence
    && entry.phase == if IsPreparation(events, e) then Prepared else Final
  }

  ghost predicate IdsTell(events: seq<Event>, n: nat, ids: set<Id>)
    requires n <= |events|
  {
    forall id :: id in ids <==>
      exists j :: 0 <= j < n && events[j].payload.Recorded? && events[j].payload.artifact.artifactId == id
  }

  lemma SucceededExactly(r: Evidence)
    requires WellTyped(IntegrationReceipt, r)
    ensures SuccessfulPrepared(r) <==> Succeeded(r)
  {
  }

  lemma OrderExactly(kind: Kind, events: seq<Event>, version: nat)
    ensures InOrder(kind, events, version) <==>
              match kind
              case Patch => Earlier(events, version, Started) && !Earlier(events, version, ValidationStarted)
              case ValidationReport =>
                Earlier(events, version, ValidationStarted) && !Earlier(events, version, ReviewRequested)
              case ReviewReport => Earlier(events, version, ReviewRequested)
                  && !Earlier(events, version, ReviewApproved)
              case IntegrationReceipt => Earlier(events, version, IntegrationStarted)
  {
    PriorIsLatest(events, version, Started);
    PriorIsLatest(events, version, ValidationStarted);
    PriorIsLatest(events, version, ReviewRequested);
    PriorIsLatest(events, version, ReviewApproved);
    PriorIsLatest(events, version, IntegrationStarted);
    hide Earlier, PriorEvent, Latest;
  }

  lemma ReportChained(events: seq<Event>, n: nat, byKind: map<Kind, Entry>)
    requires n < |events| && events[n].payload.Recorded? && events[n].payload.artifact.kind == ValidationReport
    requires IndexTells(events, n, byKind) && events[n].payload.evidence.Report?
    requires WellTyped(ValidationReport, events[n].payload.evidence)
    ensures var e := events[n];
      InOrder(ValidationReport, events, e.streamVersion)
      && Chained(ValidationReport, e.payload.evidence, PhaseOf(events, e), byKind, e, events)
      <==> ReportMayFollow(events, n, e.payload.evidence)
  {
    OrderExactly(ValidationReport, events, events[n].streamVersion);
    hide InOrder, Earlier, AtVersion, LastRecorded, PhaseOf;
  }

  lemma ReviewChained(events: seq<Event>, n: nat, byKind: map<Kind, Entry>)
    requires n < |events| && events[n].payload.Recorded? && events[n].payload.artifact.kind == ReviewReport
    requires IndexTells(events, n, byKind) && events[n].payload.evidence.Decision?
    ensures var e := events[n];
      InOrder(ReviewReport, events, e.streamVersion)
      && Chained(ReviewReport, e.payload.evidence, PhaseOf(events, e), byKind, e, events)
      <==> ReviewMayFollow(events, n, e.payload.evidence)
  {
    var v := events[n].streamVersion;
    OrderExactly(ReviewReport, events, v);
    PriorIsLatest(events, v, ReviewRequested);
    hide InOrder, Earlier, AtVersion, LastRecorded, PhaseOf, PriorEvent, Latest;
  }

  lemma ReceiptChainedExactly(events: seq<Event>, n: nat, byKind: map<Kind, Entry>)
    requires n < |events| && events[n].payload.Recorded? && events[n].payload.artifact.kind == IntegrationReceipt
    requires IndexTells(events, n, byKind) && SoundReceipt(events[n].payload.evidence)
    requires WellTyped(IntegrationReceipt, events[n].payload.evidence)
    ensures var e := events[n];
      InOrder(IntegrationReceipt, events, e.streamVersion)
      && Chained(IntegrationReceipt, e.payload.evidence, PhaseOf(events, e), byKind, e, events)
      <==> ReceiptMayFollow(events, n, e.payload.evidence)
  {
    var e := events[n];
    var v := e.streamVersion;
    OrderExactly(IntegrationReceipt, events, v);
    PriorIsLatest(events, v, Created);
    PriorIsLatest(events, v, IntegrationStarted);
    PhaseIsPreparation(events, e);
    SucceededExactly(e.payload.evidence);
    hide InOrder, Earlier, AtVersion, LastRecorded, PhaseOf, PriorEvent, Latest, IsPreparation, Succeeded,
         SuccessfulPrepared,
         PreparedReceipt, ReportSchema, SoundReport;
  }

  /** The replay records exactly the artifacts that may be recorded there. */
  lemma RecordExactly(events: seq<Event>, n: nat, st: State)
    requires n < |events| && events[n].payload.Recorded?
    requires IndexTells(events, n, st.byKind) && IdsTell(events, n, st.ids)
    requires st.marker == if n > 0 && events[n - 1].payload.Marker? then Some(events[n - 1].payload) else None
    ensures RecordAccepted(events, st, events[n]) <==> RecordLegal(events, n)
  {
    var e := events[n];
    var a := e.payload.artifact;
    DigestsIsDigest(a.kind, e.payload.evidence, a.digest);
    PhaseIsPreparation(events, e);
    if Digests(a.kind, e.payload.evidence, a.digest) {
      match a.kind {
        case Patch => OrderExactly(Patch, events, e.streamVersion);
        case ValidationReport => ReportChained(events, n, st.byKind);
        case ReviewReport => ReviewChained(events, n, st.byKind);
        case IntegrationReceipt => ReceiptChainedExactly(events, n, st.byKind);
      }
    }
    hide InOrder, Earlier, PhaseOf, IsPreparation, ReportMayFollow, ReviewMayFollow, ReceiptMayFollow, LastRecorded,
         WellTyped, EvidenceDigest, ReceiptChained, ImmediateValidationFailure, PriorEvent, SoundReport;
  }

  // ---------- What a lifecycle event may say ----------

  predicate NamesReport(events: seq<Event>, n: nat, r: Evidence)
    requires n <= |events|
  {
    var report := LastRecorded(events, n, ValidationReport);
    report.Some? && Digests(ValidationReport, r, report.value.payload.artifact.digest)
  }

  predicate NamesReview(events: seq<Event>, n: nat, d: Evidence)
    requires n <= |events|
  {
    DigestOf(LastRecorded(events, n, ReviewReport), ReviewDigest(d))
  }

  predicate NamesReceipt(events: seq<Event>, n: nat, r: Evidence)
    requires n <= |events|
  {
    DigestOf(LastRecorded(events, n, IntegrationReceipt), ReceiptDigest(r))
  }

  /** The terminal event of an outcome. */
  predicate Ends(t: TaskType, outcome: Outcome) {
    match outcome
    case Completed => t == TaskCompleted
    case Cancelled => t == TaskCancelled
    case TimedOut => t == TaskTimedOut
    case Failed => t == TaskFailed
  }

  predicate StartsValidation(events: seq<Event>, n: nat, f: Fields)
    requires n <= |events|
  {
    var patch := LastRecorded(events, n, Patch);
    && patch.Some? && patch.value.payload.evidence.PatchEvidence?
    && f.diffDigest == Some(patch.value.payload.artifact.digest)
    && f.changed == Some((patch.value.payload.evidence.changedPath, patch.value.payload.evidence.changedContent))
  }

  predicate CompletesValidation(events: seq<Event>, n: nat, f: Fields)
    requires n <= |events|
  {
    f.validation.Some? ==>
      && f.validation.value.Report? && f.outcome == Some(f.validation.value.outcome) && f.diffDigest.Some?
      && f.diffDigest == f.validation.value.subject && DigestOf(LastRecorded(events, n, Patch), f.diffDigest.value)
  }

  /** Whatever evidence a lifecycle event carries is that of the retained artifact; and some events must carry it. */
  predicate TaskLegal(events: seq<Event>, n: nat, t: TaskType, f: Fields)
    requires n <= |events|
  {
    && (f.validation.Some? ==> NamesReport(events, n, f.validation.value))
    && (f.review.Some? ==> NamesReview(events, n, f.review.value))
    && (f.receipt.Some? && (t == IntegrationObserved ==> f.verified) ==> NamesReceipt(events, n, f.receipt.value))
    && match t
       case ValidationStarted => StartsValidation(events, n, f)
       case ValidationCompleted => CompletesValidation(events, n, f)
       case ReviewRequested =>
         f.validation.Some? && f.validation.value.Report? && f.validation.value.name == FOCUSED
         && f.validation.value.outcome == Completed
       case ReviewApproved => f.review.Some? && f.review.value.Decision? && f.review.value.approved
       case IntegrationStarted => f.review.Some? && f.review.value.Decision? && f.review.value.approved
       case IntegrationPrepared =>
         f.receipt.Some? && Succeeded(f.receipt.value)
         && IsPreparation(events, LastRecorded(events, n, IntegrationReceipt).value)
       case IntegrationObserved => f.verified ==> LastRecorded(events, n, IntegrationReceipt).Some?
       case TaskCompleted => f.receipt.Some? ==> f.receipt.value.Receipt? && f.receipt.value.outcome == Completed
       case TaskCancelled => f.receipt.Some? ==> f.receipt.value.Receipt? && f.receipt.value.outcome == Cancelled
       case TaskTimedOut => f.receipt.Some? ==> f.receipt.value.Receipt? && f.receipt.value.outcome == TimedOut
       case TaskFailed => f.receipt.Some? ==> f.receipt.value.Receipt? && f.receipt.value.outcome == Failed
       case TaskDenied => f.receipt.None?
       case _ => true
  }

  lemma CarriedExactly(events: seq<Event>, n: nat, byKind: map<Kind, Entry>, f: Fields)
    requires n <= |events| && IndexTells(events, n, byKind)
    ensures f.validation.Some? ==>
              (NamesReport(events, n, f.validation.value) <==>
                 ValidationReport in byKind && f.validation.value.Report?
                 && EvidenceDigest(ValidationReport, f.validation.value) ==
                    Some(byKind[ValidationReport].artifact.digest))
    ensures f.review.Some? ==>
              (NamesReview(events, n, f.review.value) <==>
                 ReviewReport in byKind && ReviewDigest(f.review.value) == byKind[ReviewReport].artifact.digest)
    ensures f.receipt.Some? ==>
              (NamesReceipt(events, n, f.receipt.value) <==>
                 IntegrationReceipt in byKind
                 && ReceiptDigest(f.receipt.value) == byKind[IntegrationReceipt].artifact.digest)
  {
    if f.validation.Some? && ValidationReport in byKind {
      DigestsIsDigest(ValidationReport, f.validation.value, byKind[ValidationReport].artifact.digest);
    }
    hide LastRecorded, IsPreparation, SoundReport, ReportSchema;
  }

  predicate TaskAsReplayed(t: TaskType, f: Fields, byKind: map<Kind, Entry>) {
    LifecycleReference(t, f, byKind) && (t == IntegrationObserved && f.verified ==> IntegrationReceipt in byKind)
  }

  lemma ValidationExactly(events: seq<Event>, n: nat, byKind: map<Kind, Entry>, t: TaskType, f: Fields)
    requires n <= |events| && IndexTells(events, n, byKind)
             && (t.ValidationStarted? || t.ValidationCompleted? || t.ReviewRequested?)
    ensures TaskAsReplayed(t, f, byKind) <==> TaskLegal(events, n, t, f)
  {
    CarriedExactly(events, n, byKind, f);
    if f.receipt.Some? && WellTyped(IntegrationReceipt, f.receipt.value) {
      SucceededExactly(f.receipt.value);
    }
    hide LastRecorded, IsPreparation, NamesReport, NamesReview, NamesReceipt, EvidenceDigest, Succeeded,
         SuccessfulPrepared;
  }

  lemma ReviewExactly(events: seq<Event>, n: nat, byKind: map<Kind, Entry>, t: TaskType, f: Fields)
    requires n <= |events| && IndexTells(events, n, byKind) && (t.ReviewApproved? || t.IntegrationStarted?)
    ensures TaskAsReplayed(t, f, byKind) <==> TaskLegal(events, n, t, f)
  {
    CarriedExactly(events, n, byKind, f);
    if f.receipt.Some? && WellTyped(IntegrationReceipt, f.receipt.value) {
      SucceededExactly(f.receipt.value);
    }
    hide LastRecorded, IsPreparation, NamesReport, NamesReview, NamesReceipt, EvidenceDigest, Succeeded,
         SuccessfulPrepared;
  }

  lemma IntegrationExactly(events: seq<Event>, n: nat, byKind: map<Kind, Entry>, t: TaskType, f: Fields)
    requires n <= |events| && IndexTells(events, n, byKind) && (t.IntegrationPrepared? || t.IntegrationObserved?)
    ensures TaskAsReplayed(t, f, byKind) <==> TaskLegal(events, n, t, f)
  {
    CarriedExactly(events, n, byKind, f);
    if f.receipt.Some? && WellTyped(IntegrationReceipt, f.receipt.value) {
      SucceededExactly(f.receipt.value);
    }
    hide LastRecorded, IsPreparation, NamesReport, NamesReview, NamesReceipt, EvidenceDigest, Succeeded,
         SuccessfulPrepared;
  }

  lemma EndingExactly(events: seq<Event>, n: nat, byKind: map<Kind, Entry>, t: TaskType, f: Fields)
    requires n <= |events| && IndexTells(events, n, byKind) && IsTerminal(t)
    ensures TaskAsReplayed(t, f, byKind) <==> TaskLegal(events, n, t, f)
  {
    CarriedExactly(events, n, byKind, f);
    if f.receipt.Some? && WellTyped(IntegrationReceipt, f.receipt.value) {
      SucceededExactly(f.receipt.value);
    }
    hide LastRecorded, IsPreparation, NamesReport, NamesReview, NamesReceipt, EvidenceDigest, Succeeded,
         SuccessfulPrepared;
  }

  lemma OtherExactly(events: seq<Event>, n: nat, byKind: map<Kind, Entry>, t: TaskType, f: Fields)
    requires n <= |events| && IndexTells(events, n, byKind) && (t.Created? || t.Started? || t.OtherTask?)
    ensures TaskAsReplayed(t, f, byKind) <==> TaskLegal(events, n, t, f)
  {
    CarriedExactly(events, n, byKind, f);
    if f.receipt.Some? && WellTyped(IntegrationReceipt, f.receipt.value) {
      SucceededExactly(f.receipt.value);
    }
    hide LastRecorded, IsPreparation, NamesReport, NamesReview, NamesReceipt, EvidenceDigest, Succeeded,
         SuccessfulPrepared;
  }

  lemma TaskExactly(events: seq<Event>, n: nat, byKind: map<Kind, Entry>, t: TaskType, f: Fields)
    requires n <= |events| && IndexTells(events, n, byKind)
    ensures TaskAsReplayed(t, f, byKind) <==> TaskLegal(events, n, t, f)
  {
    hide TaskAsReplayed, TaskLegal, IndexTells;
    if t.ValidationStarted? || t.ValidationCompleted? || t.ReviewRequested? {
      ValidationExactly(events, n, byKind, t, f);
    } else if t.ReviewApproved? || t.IntegrationStarted? {
      ReviewExactly(events, n, byKind, t, f);
    } else if t.IntegrationPrepared? || t.IntegrationObserved? {
      IntegrationExactly(events, n, byKind, t, f);
    } else if IsTerminal(t) {
      EndingExactly(events, n, byKind, t, f);
    } else {
      OtherExactly(events, n, byKind, t, f);
    }
  }

  // ---------- What must follow a marked artifact ----------

  /** The event that consumes a marked artifact, by what the artifact says. */
  predicate Follows(events: seq<Event>, k: nat, p: Payload)
    requires k < |events| && events[k].payload.Recorded?
  {
    var e, patch := events[k].payload.evidence, LastRecorded(events, k + 1, Patch);
    && p.Task?
    && match events[k].payload.artifact.kind
       case Patch => p.task == ValidationStarted
       case ValidationReport =>
         && e.Report? && p.fields.validation.Some?
         && (if e.subject.Some? && DigestOf(patch, e.subject.value) then
               if e.outcome == Completed then p.task in {ValidationCompleted, ReviewRequested, TaskFailed}
               else p.task == ValidationCompleted || Ends(p.task, e.outcome)
             else p.task == TaskFailed)
       case ReviewReport =>
         e.Decision? && p.fields.review.Some? && p.task == if e.approved then ReviewApproved else TaskDenied
       case IntegrationReceipt =>
         && e.Receipt? && p.fields.receipt.Some?
         && if IsPreparation(events, events[k]) then p.task == IntegrationPrepared else Ends(p.task, e.outcome)
  }

  lemma ConsumerExactly(events: seq<Event>, k: nat, byKind: map<Kind, Entry>, p: Payload)
    requires k < |events| && events[k].payload.Recorded? && IndexTells(events, k + 1, byKind)
    requires WellTyped(events[k].payload.artifact.kind, events[k].payload.evidence)
    requires events[k].payload.artifact.kind == ValidationReport ==> Patch in byKind
    ensures Consumes(p, RequiredConsumer(events[k].payload.artifact.kind, events[k].payload.evidence,
                                         PhaseOf(events, events[k]),
                                         if Patch in byKind then Some(byKind[Patch].artifact.digest) else None))
            <==> Follows(events, k, p)
  {
    PhaseIsPreparation(events, events[k]);
    hide LastRecorded, IsPreparation, PhaseOf, ReportSchema;
  }

  // ---------- The accepted streams ----------

  /** Artifacts are in play: versions are missing, or an artifact or marker came before. */
  predicate InPlay(events: seq<Event>, n: nat)
    requires n <= |events|
  {
    || (exists i :: 0 <= i < |events| - 1 && events[i].streamVersion + 1 != events[i + 1].streamVersion)
    || exists k :: 0 <= k < n && !events[k].payload.Task?
  }

  predicate Over(events: seq<Event>, n: nat)
    requires n <= |events|
  {
    exists k :: 0 <= k < n && Terminates(events[k])
  }

  predicate Terminates(e: Event) {
    IsTask(e, TaskCompleted) || IsTask(e, TaskCancelled) || IsTask(e, TaskDenied) || IsTask(e, TaskTimedOut)
    || IsTask(e, TaskFailed)
  }

  predicate MarkedAt(events: seq<Event>, n: int) {
    0 <= n < |events| && events[n].payload.Marker?
  }

  /** The event at `n` is in order where it stands. */
  ghost predicate LegalAt(events: seq<Event>, n: nat)
    requires n < |events|
  {
    && (MarkedAt(events, n - 1) ==> events[n].payload.Recorded?)
    && (MarkedAt(events, n - 2) ==> events[n - 1].payload.Recorded? && Follows(events, n - 1, events[n].payload))
    && (Over(events, n) ==> events[n].payload.Task? && !InPlay(events, n))
    && match events[n].payload
       case BadMarker => false
       case BadRecord(_) => false
       case Marker(_, _, _) => true
       case Recorded(_, _, _) => RecordLegal(events, n)
       case Task(t, f) => InPlay(events, n) ==> TaskLegal(events, n, t, f)
  }

  /** Every event is in order, and no marker is left without its artifact, no marked artifact without its consumer. */
  ghost predicate Legal(events: seq<Event>) {
    && (forall n :: 0 <= n < |events| ==> LegalAt(events, n))
    && !MarkedAt(events, |events| - 1) && !MarkedAt(events, |events| - 2)
  }

  ghost predicate ConsumerTells(events: seq<Event>, n: nat, consumer: Option<Consumer>)
    requires n <= |events|
  {
    && (consumer.Some? <==> MarkedAt(events, n - 2))
    && (consumer.Some? ==>
          events[n - 1].payload.Recorded? && forall p :: Consumes(p, consumer.value) <==> Follows(events, n - 1, p))
  }

  /** The state of the replay, read off the events. */
  ghost predicate StateTells(events: seq<Event>, n: nat, st: State)
    requires n <= |events|
  {
    && st.marker == (if MarkedAt(events, n - 1) then Some(events[n - 1].payload) else None)
    && ConsumerTells(events, n, st.consumer)
    && (st.mode <==> InPlay(events, n)) && (st.terminal <==> Over(events, n))
    && IndexTells(events, n, st.byKind) && IdsTell(events, n, st.ids)
  }

  lemma StartTells(events: seq<Event>)
    ensures StateTells(events, 0, Initial(events))
  {
    if HasGap(events) {
      var i :| 0 < i < |events| && events[i].streamVersion != events[i - 1].streamVersion + 1;
      assert events[i - 1].streamVersion + 1 != events[i - 1 + 1].streamVersion;
    }
    if i :| 0 <= i < |events| - 1 && events[i].streamVersion + 1 != events[i + 1].streamVersion {
      assert events[i + 1].streamVersion != events[i + 1 - 1].streamVersion + 1;
    }
  }

  lemma PlayGrows(events: seq<Event>, n: nat)
    requires n < |events|
    ensures InPlay(events, n + 1) <==> InPlay(events, n) || !events[n].payload.Task?
    ensures Over(events, n + 1) <==> Over(events, n) || Terminates(events[n])
    ensures Terminates(events[n]) <==> events[n].payload.Task? && IsTerminal(events[n].payload.task)
  {
  }

  /** Recording an artifact. */
  lemma RecordTells(events: seq<Event>, n: nat, st: State)
    requires n < |events| && events[n].payload.Recorded? && IndexTells(events, n, st.byKind)
             && IdsTell(events, n, st.ids)
    requires st.marker == if MarkedAt(events, n - 1) then Some(events[n - 1].payload) else None
    requires RecordAccepted(events, st, events[n])
    ensures var st' := Record(events, st, events[n]);
      && IndexTells(events, n + 1, st'.byKind) && IdsTell(events, n + 1, st'.ids)
      && ConsumerTells(events, n + 1, st'.consumer) && st'.mode && st'.marker == None && st'.terminal == st.terminal
  {
    var e, st' := events[n], Record(events, st, events[n]);
    PhaseIsPreparation(events, e);
    RecordedIndex(events, n, st, st');
    if MarkedAt(events, n - 1) {
      forall p ensures Consumes(p, st'.consumer.value) <==> Follows(events, n, p) {
        ConsumerExactly(events, n, st'.byKind, p);
      }
    }
    hide IndexTells, Follows, Consumes, RequiredConsumer, PhaseOf, IsPreparation, EvidenceDigest, InOrder, Replaces;
  }

  lemma RecordedIndex(events: seq<Event>, n: nat, st: State, st': State)
    requires n < |events| && events[n].payload.Recorded? && IndexTells(events, n, st.byKind)
             && IdsTell(events, n, st.ids)
    requires var e := events[n];
      st'.byKind == st.byKind[e.payload.artifact.kind := Entry(e.payload.artifact, e.payload.evidence,
                                                               PhaseOf(events, e))]
      && st'.ids == st.ids + {e.payload.artifact.artifactId}
    ensures IndexTells(events, n + 1, st'.byKind) && IdsTell(events, n + 1, st'.ids)
  {
    PhaseIsPreparation(events, events[n]);
    hide IsPreparation, PhaseOf;
    assert events[n].payload.artifact.artifactId in st'.ids;
  }

  lemma QuietIndex(events: seq<Event>, n: nat, st: State)
    requires n < |events| && !events[n].payload.Recorded? && IndexTells(events, n, st.byKind)
             && IdsTell(events, n, st.ids)
    ensures IndexTells(events, n + 1, st.byKind) && IdsTell(events, n + 1, st.ids)
  {
    hide IsPreparation;
  }

  /** The replay goes on exactly over the events that are in order. */
  lemma StepTells(events: seq<Event>, n: nat, st: State)
    requires n < |events| && StateTells(events, n, st)
    ensures Step(events, st, events[n]).Some? <==> LegalAt(events, n)
    ensures Step(events, st, events[n]).Some? ==> StateTells(events, n + 1, Step(events, st, events[n]).value)
  {
    hide InPlay, Over, IndexTells, IdsTell, RecordAccepted, Record, TaskLegal, LifecycleReference, Follows, Consumes;
    var e := events[n];
    PlayGrows(events, n);
    var open := st.(consumer := None, terminal := st.terminal || (e.payload.Task? && IsTerminal(e.payload.task)));
    if e.payload.Recorded? {
      RecordExactly(events, n, open);
      if RecordAccepted(events, open, e) {
        RecordTells(events, n, open);
      }
    } else {
      QuietIndex(events, n, open);
      if e.payload.Task? {
        TaskExactly(events, n, open.byKind, e.payload.task, e.payload.fields);
      }
    }
  }

  lemma {:induction false} AfterTells(events: seq<Event>, n: nat)
    requires n <= |events|
    ensures After(events, n).Some? <==> forall m :: 0 <= m < n ==> LegalAt(events, m)
    ensures After(events, n).Some? ==> StateTells(events, n, After(events, n).value)
  {
    hide Step, LegalAt, StateTells;
    if n == 0 {
      StartTells(events);
    } else {
      AfterTells(events, n - 1);
      if After(events, n - 1).Some? {
        StepTells(events, n - 1, After(events, n - 1).value);
      }
    }
  }

  /** The replay accepts exactly the legal streams. */
  lemma AcceptedExactly(events: seq<Event>)
    ensures Accepted(events) <==> Legal(events)
  {
    hide LegalAt, After, IndexTells, IdsTell, InPlay, Over;
    AfterTells(events, |events|);
  }

  /** After every marker comes the artifact it announces, and after that the lifecycle event its evidence demands. */
  lemma MarkedIsConsumed(events: seq<Event>, i: nat)
    requires Accepted(events) && i < |events| && events[i].payload.Marker?
    ensures i + 2 < |events| && events[i + 1].payload.Recorded? && events[i + 2].payload.Task?
    ensures var a := events[i + 1].payload.artifact;
      events[i].payload == Marker(a.artifactId, a.kind, a.digest)
    ensures var a, e, next, f := events[i + 1].payload.artifact, events[i + 1].payload.evidence,
                                 events[i + 2].payload.task, events[i + 2].payload.fields;
      && (a.kind == Patch ==> next == ValidationStarted)
      && (a.kind == ReviewReport ==> e.Decision? && f.review.Some? && next == if e.approved then ReviewApproved
          else TaskDenied)
      && (a.kind == IntegrationReceipt ==>
            && e.Receipt? && f.receipt.Some?
            && if IsPreparation(events, events[i + 1]) then next == IntegrationPrepared else Ends(next, e.outcome))
      && (a.kind == ValidationReport ==>
            && e.Report? && f.validation.Some?
            && if e.subject.Some? && DigestOf(LastRecorded(events, i + 1, Patch), e.subject.value) then
                 if e.outcome == Completed then next in {ValidationCompleted, ReviewRequested, TaskFailed}
                 else next == ValidationCompleted || Ends(next, e.outcome)
               else next == TaskFailed)
  {
    AcceptedExactly(events);
    hide Accepted, Digests, MayFollow, TaskLegal, IsPreparation;
    assert MarkedAt(events, i) && i + 2 < |events|;
    assert LegalAt(events, i + 1) && LegalAt(events, i + 2);
    assert LastRecorded(events, i + 2, Patch) ==
           if events[i + 1].payload.artifact.kind == Patch then Some(events[i + 1])
               else LastRecorded(events, i + 1, Patch);
  }

  // ---------- What is retained ----------

  function WithoutReceipts(artifacts: seq<Artifact>): seq<Artifact> {
    if artifacts == [] then []
    else (if artifacts[0].kind == IntegrationReceipt then [] else [artifacts[0]]) + WithoutReceipts(artifacts[1..])
  }

  /** The recorded artifacts in order; a further receipt takes the place of the one before. */
  function Kept(events: seq<Event>, n: nat): seq<Artifact>
    requires n <= |events|
  {
    if n == 0 then []
    else
      var before := Kept(events, n - 1);
      if !events[n - 1].payload.Recorded? then before
      else if events[n - 1].payload.artifact.kind == IntegrationReceipt then
        WithoutReceipts(before) + [events[n - 1].payload.artifact]
      else before + [events[n - 1].payload.artifact]
  }

  lemma {:induction false} NoReceipts(artifacts: seq<Artifact>)
    requires forall a :: a in artifacts ==> a.kind != IntegrationReceipt
    ensures WithoutReceipts(artifacts) == artifacts
  {
    if artifacts != [] {
      NoReceipts(artifacts[1..]);
    }
  }

  lemma {:induction false} WithoutTheReceipt(artifacts: seq<Artifact>, receipt: Artifact)
    requires DistinctKinds(artifacts) && DistinctIds(artifacts) && receipt in artifacts
             && receipt.kind == IntegrationReceipt
    ensures Without(artifacts, receipt.artifactId) == WithoutReceipts(artifacts)
  {
    if artifacts[0] == receipt {
      NoReceipts(artifacts[1..]);
    } else {
      var k :| 0 <= k < |artifacts| && artifacts[k] == receipt;
      assert artifacts[1..][k - 1] == receipt;
      WithoutTheReceipt(artifacts[1..], receipt);
    }
  }

  lemma RecordKeeps(events: seq<Event>, n: nat, st: State)
    requires n < |events| && events[n].payload.Recorded? && RecordAccepted(events, st, events[n])
    requires Consistent(st) && st.artifacts == Kept(events, n)
    ensures Record(events, st, events[n]).artifacts == Kept(events, n + 1)
  {
    var a := events[n].payload.artifact;
    if a.kind == IntegrationReceipt {
      if IntegrationReceipt in st.byKind {
        WithoutTheReceipt(st.artifacts, st.byKind[IntegrationReceipt].artifact);
      } else {
        NoReceipts(st.artifacts);
      }
    }
    hide InOrder, Chained, EvidenceDigest, PhaseOf, WellTyped, RequiredConsumer, Without, WithoutReceipts, Mapped;
  }

  lemma StepKeeps(events: seq<Event>, n: nat, st: State)
    requires n < |events| && Step(events, st, events[n]).Some? && Consistent(st) && st.artifacts == Kept(events, n)
    ensures Step(events, st, events[n]).value.artifacts == Kept(events, n + 1)
  {
    hide Record, RecordAccepted, LifecycleReference, Consumes, Consistent;
    var e := events[n];
    var open := st.(consumer := None, terminal := st.terminal || (e.payload.Task? && IsTerminal(e.payload.task)));
    Sideways(st, open);
    if e.payload.Recorded? {
      RecordKeeps(events, n, open);
    }
  }

  /** The replay retains the recorded artifacts in order, a further receipt in place of the one before. */
  lemma {:induction false} KeptExactly(events: seq<Event>, n: nat)
    requires n <= |events| && After(events, n).Some?
    ensures After(events, n).value.artifacts == Kept(events, n)
  {
    hide Step, Kept, Consistent, Linked;
    if n == 0 {
      NothingKept(events);
    } else {
      KeptExactly(events, n - 1);
      AlwaysConsistent(events, n - 1);
      StepKeeps(events, n - 1, After(events, n - 1).value);
    }
  }

  lemma NothingKept(events: seq<Event>)
    ensures Kept(events, 0) == [] == Initial(events).artifacts
  {
  }

  // ---------- The phases ----------

  /** The latest receipt was confirmed: observed and verified after it was recorded. */
  predicate Confirmed(events: seq<Event>, n: nat)
    requires n <= |events|
  {
    n > 0
    && !(events[n - 1].payload.Recorded? && events[n - 1].payload.artifact.kind == IntegrationReceipt)
    && ((IsTask(events[n - 1], IntegrationObserved) && events[n - 1].payload.fields.verified && InPlay(events, n - 1))
        || Confirmed(events, n - 1))
  }

  /** A retained artifact is final, unless it is a preparation not yet confirmed. */
  predicate PhasesFit(byKind: map<Kind, Entry>, phases: map<Id, Phase>, confirmed: bool) {
    forall k :: k in byKind ==>
      && byKind[k].artifact.artifactId in phases
      && phases[byKind[k].artifact.artifactId] ==
           if byKind[k].phase == Prepared && !confirmed then Prepared else Final
  }

  /** Only receipts are ever prepared. */
  predicate ReceiptsOnly(byKind: map<Kind, Entry>) {
    forall k :: k in byKind && k != IntegrationReceipt ==> byKind[k].phase == Final
  }

  lemma OnlyReceiptsArePrepared(events: seq<Event>, n: nat, byKind: map<Kind, Entry>)
    requires n <= |events| && IndexTells(events, n, byKind)
    ensures ReceiptsOnly(byKind)
  {
  }

  lemma ConfirmedByRecord(events: seq<Event>, n: nat)
    requires n < |events| && events[n].payload.Recorded?
    ensures Confirmed(events, n + 1) <==> events[n].payload.artifact.kind != IntegrationReceipt && Confirmed(events, n)
  {
  }

  lemma DropFits(st: State, confirmed: bool)
    requires Consistent(st) && IntegrationReceipt in st.byKind && PhasesFit(st.byKind, st.phases, confirmed)
    ensures PhasesFit(Dropped(st).byKind, Dropped(st).phases, confirmed)
  {
    OneReceipt(st);
    hide Consistent, Without;
  }

  lemma AppendFits(st: State, entry: Entry, before: bool, confirmed: bool)
    requires Consistent(st) && PhasesFit(st.byKind, st.phases, before) && ReceiptsOnly(st.byKind)
    requires entry.artifact.artifactId !in st.ids && entry.artifact.kind !in st.byKind
    requires entry.artifact.kind == IntegrationReceipt ==> !confirmed
    requires entry.artifact.kind != IntegrationReceipt ==> entry.phase == Final && before == confirmed
    ensures PhasesFit(ArtifactTheorems.Appended(st, entry).byKind, ArtifactTheorems.Appended(st, entry).phases,
                      confirmed)
  {
    IndexedIds(st);
    hide Consistent;
  }

  lemma RecordPhases(events: seq<Event>, n: nat, st: State)
    requires n < |events| && events[n].payload.Recorded? && RecordAccepted(events, st, events[n])
    requires Consistent(st) && PhasesFit(st.byKind, st.phases, Confirmed(events, n)) && IndexTells(events, n, st.byKind)
    ensures PhasesFit(Record(events, st, events[n]).byKind, Record(events, st, events[n]).phases,
                      Confirmed(events, n + 1))
  {
    hide RecordAccepted, PhaseOf, Consistent, Record, Dropped, ArtifactTheorems.Appended, IndexTells, Confirmed,
         PhasesFit,
         ReceiptsOnly, PhasesTell;
    var e := events[n];
    var artifact, phase := e.payload.artifact, PhaseOf(events, e);
    RecordIsAppend(events, st, e);
    ConfirmedByRecord(events, n);
    OnlyReceiptsArePrepared(events, n, st.byKind);
    if artifact.kind != IntegrationReceipt {
      FinalUnlessReceipt(events, e);
    }
    var entry := Entry(artifact, e.payload.evidence, phase);
    if Replaces(st, artifact, phase) {
      DropConsistent(st);
      DropFits(st, Confirmed(events, n));
      DroppedReceipts(st);
      AppendFits(Dropped(st), entry, Confirmed(events, n), Confirmed(events, n + 1));
    } else {
      AppendFits(st, entry, Confirmed(events, n), Confirmed(events, n + 1));
    }
  }

  lemma FinalUnlessReceipt(events: seq<Event>, e: Event)
    requires e.payload.Recorded? && e.payload.artifact.kind != IntegrationReceipt
    ensures PhaseOf(events, e) == Final
  {
  }

  lemma DroppedReceipts(st: State)
    requires IntegrationReceipt in st.byKind && ReceiptsOnly(st.byKind)
    ensures ReceiptsOnly(Dropped(st).byKind)
  {
    hide Without;
  }

  lemma IndexedIds(st: State)
    requires Consistent(st)
    ensures forall k :: k in st.byKind ==> st.byKind[k].artifact.artifactId in st.ids
  {
  }

  lemma OneReceipt(st: State)
    requires Consistent(st)
    ensures forall k :: k in st.byKind && k != IntegrationReceipt && IntegrationReceipt in st.byKind ==>
              st.byKind[k].artifact.artifactId != st.byKind[IntegrationReceipt].artifact.artifactId
  {
    forall k | k in st.byKind && k != IntegrationReceipt && IntegrationReceipt in st.byKind
      ensures st.byKind[k].artifact.artifactId != st.byKind[IntegrationReceipt].artifact.artifactId
    {
      assert st.byKind[k].artifact in st.artifacts && st.byKind[IntegrationReceipt].artifact in st.artifacts;
    }
    hide Mapped;
  }

  lemma ConfirmFits(st: State, before: bool)
    requires Consistent(st) && PhasesFit(st.byKind, st.phases, before) && ReceiptsOnly(st.byKind)
    requires IntegrationReceipt in st.byKind
    ensures PhasesFit(st.byKind, st.phases[st.byKind[IntegrationReceipt].artifact.artifactId := Final], true)
  {
    OneReceipt(st);
    hide Consistent;
  }

  lemma ConfirmedByTask(events: seq<Event>, n: nat)
    requires n < |events| && !events[n].payload.Recorded?
    ensures Confirmed(events, n + 1) <==>
              Confirmed(events, n)
              || (IsTask(events[n], IntegrationObserved) && events[n].payload.fields.verified && InPlay(events, n))
  {
    hide InPlay;
  }

  lemma TaskPhases(events: seq<Event>, n: nat, st: State)
    requires n < |events| && !events[n].payload.Recorded? && Step(events, st, events[n]).Some?
    requires Consistent(st) && PhasesFit(st.byKind, st.phases, Confirmed(events, n)) && IndexTells(events, n, st.byKind)
    requires st.mode <==> InPlay(events, n)
    ensures var st' := Step(events, st, events[n]).value;
      PhasesFit(st'.byKind, st'.phases, Confirmed(events, n + 1))
  {
    OnlyReceiptsArePrepared(events, n, st.byKind);
    ConfirmedByTask(events, n);
    if IntegrationReceipt in st.byKind {
      ConfirmFits(st, Confirmed(events, n));
    }
    hide LifecycleReference, Consumes, Consistent, IndexTells, InPlay, PhasesFit, Confirmed;
  }

  ghost predicate PhasesTell(events: seq<Event>, n: nat, st: State)
    requires n <= |events|
  {
    PhasesFit(st.byKind, st.phases, Confirmed(events, n))
  }

  lemma StepPhases(events: seq<Event>, n: nat, st: State)
    requires n < |events| && Step(events, st, events[n]).Some? && Consistent(st) && PhasesTell(events, n, st)
    requires StateTells(events, n, st)
    ensures PhasesTell(events, n + 1, Step(events, st, events[n]).value)
  {
    hide Record, RecordAccepted, LifecycleReference, Consumes, Consistent, IndexTells, IdsTell, ConsumerTells, InPlay,
         Over,
         Confirmed, PhasesFit;
    if events[n].payload.Recorded? {
      var open := st.(consumer := None);
      Sideways(st, open);
      RecordPhases(events, n, open);
    } else {
      TaskPhases(events, n, st);
    }
  }

  lemma {:induction false} PhasesExactly(events: seq<Event>, n: nat)
    requires n <= |events| && After(events, n).Some?
    ensures PhasesTell(events, n, After(events, n).value)
  {
    hide Step, PhasesTell, Consistent, Linked, StateTells;
    if n == 0 {
      NoPhases(events);
    } else {
      PhasesExactly(events, n - 1);
      AlwaysConsistent(events, n - 1);
      AfterTells(events, n - 1);
      StepPhases(events, n - 1, After(events, n - 1).value);
    }
  }

  lemma NoPhases(events: seq<Event>)
    ensures PhasesTell(events, 0, Initial(events))
  {
  }

  /** What the view of an accepted stream shows of the last recorded artifact of each kind. */
  ghost predicate Shown(events: seq<Event>, view: View, k: Kind) {
    match LastRecorded(events, |events|, k)
    case None => forall a :: a in view.artifacts ==> a.kind != k
    case Some(e) =>
      && var a := e.payload.artifact;
      && a in view.artifacts && a.artifactId in view.evidence && a.artifactId in view.phases
      && view.evidence[a.artifactId] == e.payload.evidence
      && view.phases[a.artifactId] ==
           if IsPreparation(events, e) && !Confirmed(events, |events|) then Prepared else Final
  }

  /** The view of an accepted stream: the recorded artifacts in order, each with its own evidence and phase. */
  lemma ViewExactly(events: seq<Event>)
    requires Accepted(events)
    ensures var view := Retained(After(events, |events|).value);
      view.artifacts == Kept(events, |events|) && forall k: Kind :: Shown(events, view, k)
  {
    var n := |events|;
    KeptExactly(events, n);
    AfterTells(events, n);
    PhasesExactly(events, n);
    AlwaysConsistent(events, n);
    hide After, Linked, Confirmed, LegalAt, InPlay, Over;
    var st := After(events, n).value;
    forall k: Kind ensures Shown(events, Retained(st), k) {
      KindShown(events, st, k);
    }
  }

  lemma KindShown(events: seq<Event>, st: State, k: Kind)
    requires Consistent(st) && IndexTells(events, |events|, st.byKind) && PhasesTell(events, |events|, st)
    ensures Shown(events, Retained(st), k)
  {
    hide DistinctKinds, DistinctIds, Confirmed, IsPreparation;
  }
}
