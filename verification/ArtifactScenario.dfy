/** An ordinary task with marked artifacts, from its creation to its completion. */
module ArtifactScenario {
  import opened EventJournal
  import opened Artifacts
  import opened ArtifactRecord

  const TASK: Id := 7
  const RESULT := OtherDigest(23)

  const PATCH := PatchEvidence(1, DiffDigest(1), 2, OtherDigest(3))
  const FOCUSED_REPORT := Report(FOCUSED, Completed, Some(0), 4, 5, 0, 1, [6], CommandDigest([6]), OutputDigest(4, 5),
                                 Some(DiffDigest(1)), 8)
  const REVIEW := Decision(9, true, DiffDigest(1), ReportDigest(FOCUSED_REPORT), 2, 3)
  const FULL_REPORT := Report(FULL, Completed, Some(0), 4, 5, 2, 3, [6], CommandDigest([6]), OutputDigest(4, 5),
                              Some(RESULT), 8)
  const RECEIPT := Receipt(TASK, 20, OtherDigest(21), Some(OtherDigest(22)), Some(RESULT), REVIEW, FULL_REPORT,
                           Completed)

  const NOTHING := Fields(None, None, None, None, None, None, false, None, None, None)

  function ArtifactOf(kind: Kind, id: Id): Artifact {
    Artifact(id, TASK, kind,
      match kind
      case Patch => DiffDigest(1)
      case ValidationReport => ReportDigest(FOCUSED_REPORT)
      case ReviewReport => ReviewDigest(REVIEW)
      case IntegrationReceipt => ReceiptDigest(RECEIPT))
  }

  function EvidenceOf(kind: Kind): Evidence {
    match kind
    case Patch => PATCH
    case ValidationReport => FOCUSED_REPORT
    case ReviewReport => REVIEW
    case IntegrationReceipt => RECEIPT
  }

  function Marks(kind: Kind, id: Id): Payload {
    Marker(id, kind, ArtifactOf(kind, id).digest)
  }

  function Records(kind: Kind, id: Id, phase: Option<Phase>): Payload {
    Recorded(ArtifactOf(kind, id), EvidenceOf(kind), phase)
  }

  function PayloadAt(i: nat): Payload {
    if i == 0 then Task(Created, NOTHING.(projectId := Some(20)))
    else if i == 1 then Task(Started, NOTHING)
    else if i == 2 then Marks(Patch, 10)
    else if i == 3 then Records(Patch, 10, None)
    else if i == 4 then
      Task(ValidationStarted, NOTHING.(diffDigest := Some(DiffDigest(1)), changed := Some((2, OtherDigest(3)))))
    else if i == 5 then Marks(ValidationReport, 11)
    else if i == 6 then Records(ValidationReport, 11, None)
    else if i == 7 then Task(ReviewRequested, NOTHING.(reviewerId := Some(9), validation := Some(FOCUSED_REPORT)))
    else if i == 8 then Marks(ReviewReport, 12)
    else if i == 9 then Records(ReviewReport, 12, None)
    else if i == 10 then Task(ReviewApproved, NOTHING.(review := Some(REVIEW)))
    else if i == 11 then
      Task(IntegrationStarted, NOTHING.(sourceCommit := Some(OtherDigest(21)), review := Some(REVIEW)))
    else if i == 12 then Marks(IntegrationReceipt, 13)
    else if i == 13 then Records(IntegrationReceipt, 13, Some(Prepared))
    else if i == 14 then Task(IntegrationPrepared, NOTHING.(receipt := Some(RECEIPT)))
    else if i == 15 then Marks(IntegrationReceipt, 14)
    else if i == 16 then Records(IntegrationReceipt, 14, Some(Final))
    else Task(TaskCompleted, NOTHING.(receipt := Some(RECEIPT)))
  }

  function Ordinary(): (events: seq<Event>)
    ensures |events| == 18
    ensures forall i :: 0 <= i < 18 ==> events[i].payload == PayloadAt(i) && events[i].streamVersion == i + 1
    ensures forall i :: 0 <= i < 18 ==> events[i].streamId == TASK
  {
    seq(18, i requires 0 <= i < 18 => StoredEvent(i, TASK, i + 1, PayloadAt(i), None, TASK))
  }

  /** The last artifact of a kind, by its position. */
  lemma {:induction false} LastIs(events: seq<Event>, n: nat, kind: Kind, i: nat)
    requires i < n <= |events| && events[i].payload.Recorded? && events[i].payload.artifact.kind == kind
    requires forall j :: i < j < n ==> !(events[j].payload.Recorded? && events[j].payload.artifact.kind == kind)
    ensures LastRecorded(events, n, kind) == Some(events[i])
  {
    if i < n - 1 {
      LastIs(events, n - 1, kind, i);
    }
  }

  lemma {:induction false} NoneYet(events: seq<Event>, n: nat, kind: Kind)
    requires n <= |events|
    requires forall j :: 0 <= j < n ==> !(events[j].payload.Recorded? && events[j].payload.artifact.kind == kind)
    ensures LastRecorded(events, n, kind) == None
  {
    if n > 0 {
      NoneYet(events, n - 1, kind);
    }
  }

  /** Where each lifecycle event stands. */
  lemma Places()
    ensures var events := Ordinary();
      && IsTask(events[0], Created) && IsTask(events[1], Started) && IsTask(events[4], ValidationStarted)
      && IsTask(events[7], ReviewRequested) && IsTask(events[10], ReviewApproved)
      && IsTask(events[11], IntegrationStarted)
      && IsTask(events[14], IntegrationPrepared) && IsTask(events[17], TaskCompleted)
    ensures forall i, t :: 0 <= i < 18 && IsTask(Ordinary()[i], t) ==>
              && (t == Created <==> i == 0) && (t == ValidationStarted <==> i == 4)
                 && (t == ReviewRequested <==> i == 7)
              && (t == ReviewApproved <==> i == 10) && (t == IntegrationStarted <==> i == 11)
              && (t == IntegrationPrepared <==> i == 14) && (t == TaskCompleted <==> i == 17)
  {
    hide Ordinary;
  }

  lemma NotOver(n: nat)
    requires n <= 17
    ensures !Over(Ordinary(), n)
  {
    hide Ordinary;
  }

  /** The artifacts recorded so far, kind by kind. */
  lemma RecordedSoFar(n: nat)
    requires n <= 18
    ensures var events := Ordinary();
      && LastRecorded(events, n, Patch) == (if n > 3 then Some(events[3]) else None)
      && LastRecorded(events, n, ValidationReport) == (if n > 6 then Some(events[6]) else None)
      && LastRecorded(events, n, ReviewReport) == (if n > 9 then Some(events[9]) else None)
      && LastRecorded(events, n, IntegrationReceipt) ==
           (if n > 16 then Some(events[16]) else if n > 13 then Some(events[13]) else None)
  {
    var events := Ordinary();
    hide LastRecorded, Ordinary;
    if n > 3 { LastIs(events, n, Patch, 3); } else { NoneYet(events, n, Patch); }
    if n > 6 { LastIs(events, n, ValidationReport, 6); } else { NoneYet(events, n, ValidationReport); }
    if n > 9 { LastIs(events, n, ReviewReport, 9); } else { NoneYet(events, n, ReviewReport); }
    if n > 16 {
      LastIs(events, n, IntegrationReceipt, 16);
    } else if n > 13 {
      LastIs(events, n, IntegrationReceipt, 13);
    } else {
      NoneYet(events, n, IntegrationReceipt);
    }
  }

  /** Every evidence of the stream is sound and has the digest of its artifact. */
  lemma Sound(kind: Kind, id: Id)
    ensures Digests(kind, EvidenceOf(kind), ArtifactOf(kind, id).digest) && Succeeded(RECEIPT)
  {
  }

  lemma OwnIdentity(n: nat)
    requires n < 18 && Ordinary()[n].payload.Recorded?
    ensures forall j :: 0 <= j < n && Ordinary()[j].payload.Recorded? ==>
              Ordinary()[j].payload.artifact.artifactId != Ordinary()[n].payload.artifact.artifactId
  {
    hide Ordinary;
  }

  lemma PatchIsLegal()
    ensures RecordLegal(Ordinary(), 3)
  {
    var events := Ordinary();
    Places();
    RecordedSoFar(3);
    Sound(Patch, 10);
    OwnIdentity(3);
    hide Ordinary, LastRecorded, Digests, IsTask;
    assert Earlier(events, 4, Started) && !Earlier(events, 4, ValidationStarted);
  }

  lemma ReportInOrder()
    ensures Earlier(Ordinary(), 7, ValidationStarted) && !Earlier(Ordinary(), 7, ReviewRequested)
  {
    Places();
    hide Ordinary, IsTask, AtVersion;
  }

  lemma ReportIsLegal()
    ensures RecordLegal(Ordinary(), 6)
  {
    ReportInOrder();
    Places();
    RecordedSoFar(6);
    Sound(ValidationReport, 11);
    OwnIdentity(6);
    hide Ordinary, LastRecorded, Digests, IsTask, AtVersion, Earlier;
  }

  lemma LatestIs(version: nat, t: TaskType, i: nat)
    requires i < 18 && Ordinary()[i].streamVersion < version && IsTask(Ordinary()[i], t)
    requires forall j :: 0 <= j < 18 && IsTask(Ordinary()[j], t) ==> j == i
    ensures Latest(Ordinary(), version, t, Ordinary()[i].payload.fields)
  {
    hide Ordinary;
    assert LatestAt(Ordinary(), version, t, i);
  }

  lemma ReviewIsLegal()
    ensures RecordLegal(Ordinary(), 9)
  {
    var events := Ordinary();
    Places();
    RecordedSoFar(9);
    Sound(ReviewReport, 12);
    OwnIdentity(9);
    LatestIs(10, ReviewRequested, 7);
    hide Ordinary, LastRecorded, Digests, IsTask, Latest;
    assert Earlier(events, 10, ReviewRequested) && !Earlier(events, 10, ReviewApproved);
  }

  lemma PreparedIs(version: nat)
    requires version <= 19
    ensures PreparedReceipt(Ordinary(), version) == if version > 15 then Some(RECEIPT) else None
  {
    PriorIsLatest(Ordinary(), version, IntegrationPrepared);
    Places();
    if version > 15 {
      LatestIs(version, IntegrationPrepared, 14);
    }
    hide Ordinary, PriorEvent, Latest, IsTask;
  }

  lemma PreparationIs(n: nat)
    requires n == 13 || n == 16
    ensures IsPreparation(Ordinary(), Ordinary()[n]) <==> n == 13
  {
    hide Ordinary;
  }

  lemma ReceiptContext(n: nat)
    requires n == 13 || n == 16
    ensures Latest(Ordinary(), n + 1, Created, PayloadAt(0).fields)
    ensures Latest(Ordinary(), n + 1, IntegrationStarted, PayloadAt(11).fields)
    ensures PreparedReceipt(Ordinary(), n + 1) == if n == 16 then Some(RECEIPT) else None
  {
    Places();
    LatestIs(n + 1, Created, 0);
    LatestIs(n + 1, IntegrationStarted, 11);
    PreparedIs(n + 1);
    hide Ordinary, Latest, PreparedReceipt, IsTask;
  }

  /** A successful receipt in its context may follow, prepared or final. */
  lemma InContext(events: seq<Event>, n: nat, r: Evidence, review: Event, created: Fields, started: Fields)
    requires n < |events| && events[n].payload.Recorded? && Succeeded(r) && r.taskId == events[n].streamId
    requires LastRecorded(events, n, ReviewReport) == Some(review) && review.payload.evidence == r.review
    requires Latest(events, events[n].streamVersion, Created, created) && created.projectId == Some(r.projectId)
    requires Latest(events, events[n].streamVersion, IntegrationStarted, started)
    requires started.sourceCommit == Some(r.sourceCommit) && started.review == Some(r.review)
    requires PreparedReceipt(events, events[n].streamVersion) in {None, Some(r)}
    ensures ReceiptMayFollow(events, n, r)
  {
    hide LastRecorded, IsPreparation, Latest, PreparedReceipt;
  }

  lemma ReceiptFollows(n: nat)
    requires n == 13 || n == 16
    ensures ReceiptMayFollow(Ordinary(), n, RECEIPT)
  {
    var events := Ordinary();
    ReceiptContext(n);
    RecordedSoFar(n);
    Sound(IntegrationReceipt, 13);
    assert events[n].payload.Recorded? && events[n].streamId == RECEIPT.taskId;
    assert events[9].payload.evidence == RECEIPT.review;
    hide *;
    InContext(events, n, RECEIPT, events[9], PayloadAt(0).fields, PayloadAt(11).fields);
  }

  lemma ReceiptIsLegal(n: nat)
    requires n == 13 || n == 16
    ensures RecordLegal(Ordinary(), n)
  {
    var events := Ordinary();
    hide Digests, LastRecorded, ReceiptMayFollow;
    RecordedSoFar(n);
    Sound(IntegrationReceipt, 13);
    Sound(IntegrationReceipt, 14);
    ReceiptFollows(n);
    OwnIdentity(n);
    assert SoundReceipt(RECEIPT);
    assert IsPreparation(events, events[13]) && !IsPreparation(events, events[16]);
    hide Ordinary, IsPreparation, Succeeded, SoundReceipt;
  }

  // ---------- The lifecycle events ----------

  lemma EarlyTaskIsLegal(n: nat)
    requires n in {0, 1, 4, 7, 10, 11}
    ensures TaskLegal(Ordinary(), n, Ordinary()[n].payload.task, Ordinary()[n].payload.fields)
  {
    RecordedSoFar(n);
    Sound(ValidationReport, 11);
    hide Ordinary, LastRecorded, Digests;
  }

  lemma LateTaskIsLegal(n: nat)
    requires n in {14, 17}
    ensures TaskLegal(Ordinary(), n, Ordinary()[n].payload.task, Ordinary()[n].payload.fields)
  {
    RecordedSoFar(n);
    Sound(IntegrationReceipt, 13);
    assert IsPreparation(Ordinary(), Ordinary()[13]);
    hide Ordinary, LastRecorded, Digests, Succeeded, IsPreparation;
  }

  lemma MarkedFollows(k: nat)
    requires k in {3, 6, 9}
    ensures Follows(Ordinary(), k, Ordinary()[k + 1].payload)
  {
    RecordedSoFar(k + 1);
    hide Ordinary, LastRecorded, IsPreparation;
  }

  lemma ReceiptIsFollowed(k: nat)
    requires k in {13, 16}
    ensures Follows(Ordinary(), k, Ordinary()[k + 1].payload)
  {
    assert IsPreparation(Ordinary(), Ordinary()[13]) && !IsPreparation(Ordinary(), Ordinary()[16]);
    hide Ordinary, LastRecorded, IsPreparation;
  }

  lemma EventIsLegal(n: nat)
    requires n < 18
    ensures LegalAt(Ordinary(), n)
  {
    hide InPlay, RecordLegal, TaskLegal, Follows, Over;
    NotOver(n);
    if n == 3 {
      PatchIsLegal();
    } else if n == 6 {
      ReportIsLegal();
    } else if n == 9 {
      ReviewIsLegal();
    } else if n in {13, 16} {
      ReceiptIsLegal(n);
    } else if n in {0, 1, 4, 7, 10, 11} {
      EarlyTaskIsLegal(n);
    } else if n in {14, 17} {
      LateTaskIsLegal(n);
    }
    if n - 1 in {3, 6, 9} {
      MarkedFollows(n - 1);
    } else if n - 1 in {13, 16} {
      ReceiptIsFollowed(n - 1);
    }
    hide Ordinary;
  }

  /** The replay accepts this stream: a patch, a report, an approved review, a prepared and a final receipt, each
    * behind its marker and before the event that consumes it. */
  lemma OrdinaryIsAccepted()
    ensures Accepted(Ordinary())
  {
    hide Accepted, LegalAt;
    AcceptedExactly(Ordinary());
    forall n | 0 <= n < 18 ensures LegalAt(Ordinary(), n) {
      EventIsLegal(n);
    }
    hide Ordinary;
  }
}
