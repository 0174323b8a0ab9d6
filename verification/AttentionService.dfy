/** The attention service: its methods over the shared journal, with other clients committing between
  * any two of its reads and writes.  Every commit it makes is a step of the protocol, so `history`,
  * the run it takes part in, stays legal. */
module AttentionServices {
  import opened EventJournal
  import opened AttentionModel
  import opened AttentionSteps
  import opened AttentionInvariant
  import opened AttentionRecord
  import opened AttentionRuns
  import opened AttentionHistory

  const ATTEMPTS := 8

  /** The service actors that act on nobody's behalf, and the command identity of reconciliation. */
  const RESERVATIONS := Actor(0, Service)
  const RECONCILER := Actor(1, Service)
  const RECONCILE: Id := 0

  datatype Error =
    | NotFound | InvalidPacket | AlreadyReserved | AlreadyKnown | ReservedByAnother | Mismatch | NotAwaitingApproval
    | AlreadyConsumedError | StaleError | NotExpired | NeverExpires | WrongKind | OperatorRequired | InvalidOption
    | WrongRun | VersionConflict | RetriesExhausted | Contradiction | CommandReused | AdmissionConsumed | HasExpired
    | JournalBusy

  datatype Result<+T> = Ok(value: T) | Err(error: Error)

  datatype Attempt = Done(view: View) | Raced | Lost | Locked | Failing(error: Error)

  datatype Submission = Submission(runId: Id, expectedVersion: nat, actor: Actor, commandId: Id, evidence: Id)

  /** Why raising attention may fail once its packet is well-formed. */
  predicate RaiseError(error: Error) {
    || error.AlreadyReserved? || error.AlreadyKnown? || error.ReservedByAnother? || error.VersionConflict?
    || error.CommandReused? || error.RetriesExhausted? || error.Contradiction?
  }

  /** Why a commit that consumes a decision may fail for good. */
  predicate CommitError(error: Error) {
    error.Contradiction? || error.AlreadyConsumedError? || error.RetriesExhausted?
  }

  /** The refusal is one of raising, and the attention identity is called reserved only if it is. */
  predicate RaiseRefused(s: Streams, p: Packet, error: Error) {
    RaiseError(error) && (error == AlreadyReserved ==> IdentityTaken(s, p.attentionId))
  }

  predicate Approvable(known: Streams, p: Packet)
    requires p.Exact?
  {
    var binding := RunBinding(Read(known, RunStream(p.runId)));
    binding.Some? && BindingMatches(p, binding.value) && Read(known, Reservation(p)) == []
  }

  lemma RaiseGuardHolds(view: Streams, p: Packet, ids: seq<Id>)
    requires |ids| >= 6 && RaiseGuard(view, p)
    ensures Guard(view, RaiseMaterial(p, ids))
  {
  }

  lemma UnreservedIsEmpty(events: seq<Event>)
    requires ProjectReservation(events).Unreserved?
    ensures events == []
  {
  }

  lemma SamePrefix(a: seq<Event>, b: seq<Event>, c: seq<Event>)
    requires a <= b <= c && |a| == |c|
    ensures a == c
  {
  }

  /** The same decision at a later moment. */
  predicate Later(w: View, w': View) {
    w' == w.(status := w'.status, resolution := w'.resolution, streamVersion := w'.streamVersion)
  }

  /** A finished attempt: its own event consumed the decision, and the caller sees the result. */
  ghost predicate Settles(history: seq<Streams>, start: nat, w: View, op: Op, r: Attempt)
    requires op.Resolve?
  {
    r.Done? ==>
      && Later(w, r.view) && r.view.status == op.resolution
         && (IsTerminal(op.terminal) ==> Decides(op.terminal, r.view))
      && w.decisionId == op.decisionId && ConsumedSince(history, start, op.decisionId, op.terminal, op.resolution)
      && SeenSince(history, start, op.decisionId, r.view)
  }

  /** The digests of the latest approval request in `run`, else those the packet asked for. */
  function ObservedDigests(run: seq<Event>, p: Packet): (Id, Id)
    requires p.Exact?
  {
    if run == [] then (p.planDigest, p.envelopeDigest)
    else if run[|run| - 1].payload.RunApprovalRequested? then
      (run[|run| - 1].payload.planDigest, run[|run| - 1].payload.envelopeDigest)
    else ObservedDigests(run[..|run| - 1], p)
  }

  lemma {:induction false} ObservedIsLatest(run: seq<Event>, p: Packet, k: nat)
    requires p.Exact? && k < |run| && run[k].payload.RunApprovalRequested?
    requires forall j :: k < j < |run| ==> !run[j].payload.RunApprovalRequested?
    ensures ObservedDigests(run, p) == (run[k].payload.planDigest, run[k].payload.envelopeDigest)
  {
    if k < |run| - 1 {
      ObservedIsLatest(run[..|run| - 1], p, k);
    }
  }

  lemma {:induction false} NothingObserved(run: seq<Event>, p: Packet)
    requires p.Exact? && forall j :: 0 <= j < |run| ==> !run[j].payload.RunApprovalRequested?
    ensures ObservedDigests(run, p) == (p.planDigest, p.envelopeDigest)
  {
    if run != [] {
      NothingObserved(run[..|run| - 1], p);
    }
  }

  function Acceptance(p: Packet, submission: Submission): Payload
    requires p.Exact?
  {
    ApprovalAccepted(p.decisionId, submission.runId, p.planDigest, p.envelopeDigest, p.approvalRequestEventId, p,
                     submission.actor, submission.commandId, submission.evidence)
  }

  function Refusal(w: View, reason: Id, submission: Submission): Payload {
    if w.kind == ApprovalKind then
      ApprovalRejected(w.decisionId, submission.runId, reason, submission.actor, submission.commandId,
                       submission.evidence)
    else
      DecisionRejected(w.decisionId, submission.runId, reason, submission.actor, submission.commandId,
                       submission.evidence)
  }

  function Expiration(w: View, now: int): Payload {
    if w.kind == ApprovalKind then ApprovalExpired(w.decisionId, w.runId, now, RECONCILE)
    else DecisionExpired(w.decisionId, w.runId, now, RECONCILE)
  }

  /** The decision is open, and due later or never. */
  predicate Unexpired(w: View, now: int, error: Error) {
    w.status == Pending && if w.expiry.At? then error == NotExpired && now < w.expiry.expiresAt
      else error == NeverExpires
  }

  /** The decision is open, not yet due, of the run and at the version the submission names. */
  predicate MaySubmit(w: View, submission: Submission, now: int) {
    && submission.runId == w.runId && w.status == Pending && (w.expiry.At? ==> now < w.expiry.expiresAt)
    && submission.expectedVersion == w.streamVersion
  }

  /** The first of these conditions that fails, in the order they are tested. */
  function SubmissionError(w: View, submission: Submission, now: int): Error
    requires !MaySubmit(w, submission, now)
  {
    if submission.runId != w.runId then WrongRun
    else if w.status != Pending then AlreadyConsumedError
    else if w.expiry.At? && w.expiry.expiresAt <= now then HasExpired
    else VersionConflict
  }

  /** Submissions that fail before anything is tried, and why. */
  predicate EarlyError(error: Error) {
    || error.WrongKind? || error.OperatorRequired? || error.InvalidOption? || error.Mismatch? || error.WrongRun?
    || error.HasExpired?
  }

  predicate SubmissionRefused(w: View, submission: Submission, now: int, error: Error) {
    !MaySubmit(w, submission, now) && error == SubmissionError(w, submission, now)
  }

  predicate AnswerRefused(w: View, optionId: Id, submission: Submission, now: int, error: Error) {
    match error
    case WrongKind => w.kind != QuestionKind
    case OperatorRequired => w.kind == QuestionKind && w.material && submission.actor.kind != Operator
    case InvalidOption =>
      && MaySubmit(w, submission, now) && w.packet.Some? && w.packet.value.Question?
      && optionId !in w.packet.value.options
    case _ => SubmissionRefused(w, submission, now, error)
  }

  predicate AcceptanceRefused(w: View, plan: Id, envelope: Id, submission: Submission, now: int, error: Error) {
    match error
    case WrongKind => w.kind != ApprovalKind
    case Mismatch =>
      && MaySubmit(w, submission, now) && w.packet.Some? && w.packet.value.Exact?
      && (w.packet.value.planDigest != plan || w.packet.value.envelopeDigest != envelope)
    case _ => SubmissionRefused(w, submission, now, error)
  }

  function AttemptError(r: Attempt): Error {
    match r
    case Failing(error) => error
    case Lost => VersionConflict
    case Locked => JournalBusy
    case _ => Contradiction
  }

  predicate Fits(op: Op, w: View) {
    && op.Resolve? && IsTerminal(op.terminal) && |op.ids| >= 6 && op.decisionId == w.decisionId
    && (op.terminal.ApprovalAccepted? || op.terminal.ApprovalRejected? ==> w.kind == ApprovalKind)
  }

  /** Everything consuming `w` checks besides the decision's own replay. */
  predicate Ready(view: Streams, w: View, op: Op)
    requires Fits(op, w) && w.packet.Some? && w.packet.value.Exact? == (w.kind == ApprovalKind)
  {
    var events := Read(view, DecisionStream(w.decisionId));
    && Project(events + Stamp(DecisionStream(w.decisionId), |events|, TerminalEvents(w, op))).Projected?
    && (w.material ==>
          var index := IndexAfter(w.runId, Read(view, IndexStream(w.runId)));
          index.Some? && w.attentionId in index.value.pending
          && index.value.pending[w.attentionId].decisionId == w.decisionId)
    && (w.kind == ApprovalKind ==>
          var reserved := ProjectReservation(Read(view, Reservation(w.packet.value)));
          reserved.Reserved? && reserved.view.decisionId == w.decisionId
          && reserved.view.packet == w.packet.value && reserved.view.outcome.None?)
    && (op.terminal.ApprovalAccepted? ==> ReadyFits(Read(view, RunStream(w.packet.value.runId)), w.packet.value))
  }

  lemma GuardHolds(view: Streams, w: View, op: Op)
    requires Knows(view, w) && Fits(op, w) && Ready(view, w, op)
    ensures ResolveGuard(view, op) && Plan(view, op) == ResolveWrites(view, w, op)
  {
    hide IndexAfter, ProjectReservation, RunBinding;
  }

  /** The client has read decision `w` and holds its replay. */
  ghost predicate Knows(view: Streams, w: View) {
    && ViewAt(view, w.decisionId) == Projected(w) && w.streamVersion == |Read(view, DecisionStream(w.decisionId))|
    && w.kind != AdvisoryKind && w.packet.Some? && w.packet.value.Exact? == (w.kind == ApprovalKind)
    && w.packet.value.decisionId == w.decisionId && w.packet.value.attentionId == w.attentionId
    && w.packet.value.runId == w.runId && w.material == w.packet.value.Material()
  }

  lemma KnownPacket(view: Streams, w: View)
    requires Knows(view, w)
    ensures w.packet.Some? && w.packet.value.Exact? == (w.kind == ApprovalKind) && w.packet.value.runId == w.runId
  {
    hide Project;
  }

  /** Reading another stream does not change what is known of the decision. */
  lemma StillKnows(view: Streams, x: StreamId, events: seq<Event>, w: View)
    requires Knows(view, w) && x != DecisionStream(w.decisionId)
    ensures Knows(view[x := events], w) && w.packet.Some? && w.packet.value.Exact? == (w.kind == ApprovalKind)
  {
    hide Project;
  }

  lemma IsStep(s: Streams, s': Streams, view: Streams, op: Op)
    requires StaleView(view, s) && Guard(view, op) && Accepts(s, Plan(view, op)) && s' == Applied(s, Plan(view, op))
    ensures Step(s, s', view, op)
  {
  }

  lemma RunSnoc(history: seq<Streams>, s': Streams, view: Streams, op: Op)
    requires Run(history) && Step(history[|history| - 1], s', view, op)
    ensures Run(history + [s'])
  {
    hide Step;
    assert Next(history[|history| - 1], s');
    hide Next;
  }

  class AttentionService {
    const journal: Journal<StreamId, Payload>
    ghost var history: seq<Streams>

    ghost predicate Valid()
      reads this, journal
    {
      |history| > 0 && Run(history) && history[|history| - 1] == journal.streams
    }

    constructor (journal: Journal<StreamId, Payload>, ghost past: seq<Streams>)
      requires Run(past) && past[|past| - 1] == journal.streams
      ensures Valid() && this.journal == journal && history == past
    {
      this.journal := journal;
      this.history := past;
    }

    /** Other clients may commit here, any number of times. A caller knows only this contract: the
      * run went on legally, so every stream it has read so far is still a prefix. */
    method Interfere()
      requires Valid()
      modifies this, journal
      ensures Valid() && old(history) <= history
      ensures StaleView(old(journal.streams), journal.streams)
    {
    }

    /** Reads one stream at some later moment and adds it to what the client knows. */
    method Learn(known: Streams, stream: StreamId) returns (events: seq<Event>, view: Streams)
      requires Valid() && StaleView(known, journal.streams)
      modifies this, journal
      ensures Valid() && old(history) <= history
      ensures StaleView(old(journal.streams), journal.streams) && StaleView(view, journal.streams)
      ensures events == Read(journal.streams, stream) && view == known[stream := events]
    {
      Interfere();
      events := journal.ReadStream(stream);
      StaleViewTrans(known, old(journal.streams), journal.streams);
      KnowMore(known, journal.streams, stream);
      view := known[stream := events];
    }

    /** One guarded commit, planned on `view`. */
    method CommitStep(view: Streams, ghost op: Op, writes: Commit) returns (outcome: AppendOutcome)
      requires Valid() && StaleView(view, journal.streams) && Guard(view, op) && writes == Plan(view, op)
      modifies this, journal
      ensures Valid()
      ensures outcome == Appended ==>
                history == old(history) + [journal.streams] && Step(old(journal.streams), journal.streams, view, op)
      ensures outcome != Appended ==> history == old(history) && journal.streams == old(journal.streams)
    {
      hide Run, Guard, Plan, Step, StaleView, Accepts, Applied;
      outcome := journal.AppendAtomically(writes);
      if outcome == Appended {
        IsStep(old(journal.streams), journal.streams, view, op);
        RunSnoc(history, journal.streams, view, op);
        history := history + [journal.streams];
      }
    }

    /** Replays a decision as it stands at some later moment. Reachable journals always replay. */
    method ReadDecision(known: Streams, d: Id) returns (found: Option<View>, view: Streams)
      requires Valid() && StaleView(known, journal.streams)
      modifies this, journal
      ensures Valid() && old(history) <= history
      ensures StaleView(old(journal.streams), journal.streams) && StaleView(view, journal.streams)
      ensures found.Some? ==> Knows(view, found.value) && found.value.decisionId == d
      ensures ViewAt(journal.streams, d) == if found.Some? then Projected(found.value) else Absent
      ensures view == known[DecisionStream(d) := Read(journal.streams, DecisionStream(d))]
    {
      var events: seq<Event>;
      events, view := Learn(known, DecisionStream(d));
      RunInvariant(history, |history| - 1);
      assert DecisionOk(journal.streams, d);
      var projection := ProjectAttention(events);
      hide Project, Run, Inv;
      found := if projection.Projected? then Some(projection.view) else None;
    }

    /** Consumes a material decision together with its index entry, its reservation and, for an
      * acceptance, the run: all or nothing. */
    method AppendResolution(current: View, op: Op, known: Streams) returns (r: Attempt)
      requires Valid() && StaleView(known, journal.streams) && Knows(known, current)
      requires Fits(op, current) && current.material
      requires op.terminal.ApprovalAccepted? ==>
                 ReadyFits(Read(known, RunStream(current.packet.value.runId)), current.packet.value)
      modifies this, journal
      ensures Valid() && old(history) <= history
      ensures Settles(history, |old(history)|, current, op, r)
      ensures r.Failing? ==> CommitError(r.error)
    {
      hide Run, Project, ResolveGuard, ReadyFits, ProjectReservation, IndexAfter, RunBinding, Later, TerminalEvents,
           Decides, Consumes, Sees;
      var indexEvents, events, reservedEvents: seq<Event>;
      var view: Streams;
      indexEvents, view := Learn(known, IndexStream(current.runId));
      var index := ProjectAttentionIndex(current.runId, indexEvents);
      if index.None? {
        return Failing(Contradiction);
      }
      if current.attentionId !in index.value.pending
         || index.value.pending[current.attentionId].decisionId != current.decisionId {
        return Raced;
      }
      label beforeHistory:
      assert Read(view, DecisionStream(current.decisionId)) <= Read(journal.streams,
                                                                    DecisionStream(current.decisionId));
      events, view := Learn(view, DecisionStream(current.decisionId));
      if |events| != current.streamVersion {
        return Lost;
      }
      SamePrefix(Read(known, DecisionStream(current.decisionId)),
                 Read(old@beforeHistory(journal.streams), DecisionStream(current.decisionId)), events);
      var prospect := ProjectAttention(
        events + Stamp(DecisionStream(current.decisionId), |events|, TerminalEvents(current, op)));
      if !prospect.Projected? {
        return Failing(AlreadyConsumedError);
      }
      if current.kind == ApprovalKind {
        reservedEvents, view := Learn(view, Reservation(current.packet.value));
        var reserved := ProjectReservation(reservedEvents);
        if !reserved.Reserved? || reserved.view.decisionId != current.decisionId
           || reserved.view.packet != current.packet.value || reserved.view.outcome.Some? {
          return Failing(Contradiction);
        }
      }
      r := Resolve(current, op, view);
    }

    /** Consumes an advisory decision: its own stream only. */
    method AppendProjected(current: View, op: Op, known: Streams) returns (r: Attempt)
      requires Valid() && StaleView(known, journal.streams) && Knows(known, current)
      requires Fits(op, current) && !current.material
      modifies this, journal
      ensures Valid() && old(history) <= history
      ensures Settles(history, |old(history)|, current, op, r)
      ensures r.Failing? ==> CommitError(r.error)
    {
      hide Run, Project, ResolveGuard, ReadyFits, ProjectReservation, IndexAfter, RunBinding;
      var events: seq<Event>;
      var view: Streams;
      events, view := Learn(known, DecisionStream(current.decisionId));
      if |events| != current.streamVersion {
        return Lost;
      }
      SamePrefix(Read(known, DecisionStream(current.decisionId)),
                 Read(old(journal.streams), DecisionStream(current.decisionId)), events);
      var prospect := ProjectAttention(
        events + Stamp(DecisionStream(current.decisionId), |events|, TerminalEvents(current, op)));
      if !prospect.Projected? {
        return Failing(AlreadyConsumedError);
      }
      r := Resolve(current, op, view);
    }

    method AppendEither(current: View, op: Op, known: Streams) returns (r: Attempt)
      requires Valid() && StaleView(known, journal.streams) && Knows(known, current)
      requires Fits(op, current) && !op.terminal.ApprovalAccepted?
      modifies this, journal
      ensures Valid() && old(history) <= history
      ensures Settles(history, |old(history)|, current, op, r)
      ensures r.Failing? ==> CommitError(r.error)
    {
      hide Run, Project, Settles;
      if current.material {
        r := AppendResolution(current, op, known);
      } else {
        r := AppendProjected(current, op, known);
      }
    }

    /** The commit itself. */
    method TryConsume(current: View, op: Op, view: Streams) returns (outcome: AppendOutcome)
      requires Valid() && StaleView(view, journal.streams) && Knows(view, current) && Fits(op, current)
      requires Ready(view, current, op)
      modifies this, journal
      ensures Valid() && old(history) <= history
      ensures outcome == Appended ==>
                ConsumedSince(history, |old(history)|, current.decisionId, op.terminal, op.resolution)
    {
      hide Run, Project, ResolveGuard, Ready, Plan, Step, Next, Consumes, StaleView, IndexAfter, ProjectReservation,
           ReadyFits, RunBinding, ViewAt;
      GuardHolds(view, current, op);
      var writes := ResolveWrites(view, current, op);
      outcome := CommitStep(view, op, writes);
      if outcome == Appended {
        StepConsumes(history, view, op);
      }
    }

    /** The commit, and the read that follows it. */
    method Resolve(current: View, op: Op, view: Streams) returns (r: Attempt)
      requires Valid() && StaleView(view, journal.streams) && Knows(view, current) && Fits(op, current)
      requires Ready(view, current, op)
      modifies this, journal
      ensures Valid() && old(history) <= history
      ensures Settles(history, |old(history)|, current, op, r)
      ensures r.Failing? ==> CommitError(r.error)
    {
      hide Run, Project, Ready, Knows, ConsumedSince;
      var outcome := TryConsume(current, op, view);
      if outcome == Appended {
        ghost var committed := history;
        Grew(view, old(history), history);
        var latest, later := Reread(current, view);
        assert history[..|committed|] == committed;
        ConsumedStatus(history, |old(history)|, current.decisionId, op.terminal, op.resolution, |committed|);
        SeenNow(history, |old(history)|, current.decisionId, latest);
        r := Done(latest);
      } else {
        r := if outcome == Busy then Locked else Lost;
      }
    }

    // ---------- Raising ----------

    /** Event identities are fresh random values: nothing is known about them. */
    method FreshIds() returns (ids: seq<Id>)
      ensures |ids| == 6
    {
      var a: Id, b: Id, c: Id, d: Id, e: Id, f: Id := *, *, *, *, *, *;
      ids := [a, b, c, d, e, f];
    }

    method TryRaise(view: Streams, op: Op) returns (outcome: AppendOutcome)
      requires Valid() && StaleView(view, journal.streams) && Guard(view, op)
               && (op.RaiseMaterial? || op.RaiseAdvisory?)
      modifies this, journal
      ensures Valid() && old(history) <= history
      ensures outcome == Appended ==> CreatedSince(history, |old(history)|, op.packet)
    {
      hide Run, Project, Guard, Plan, Step, Next, Creates, StaleView;
      var writes := Plan(view, op);
      outcome := CommitStep(view, op, writes);
      if outcome == Appended {
        StepCreates(history, view, op);
      }
    }

    /** Raises a material decision: identity, reservation (for an approval), decision and run index in
      * one commit, with bounded retries when another client wins. */
    method CreateMaterialDecision(p: Packet, known: Streams) returns (r: Result<View>)
      requires Valid() && StaleView(known, journal.streams) && p.Material() && ValidPacket(p)
      requires p.Exact? ==> Approvable(known, p)
      modifies this, journal
      ensures Valid() && old(history) <= history
      ensures r.Ok? ==>
                && r.value.decisionId == p.decisionId && CreatedSince(history, |old(history)|, p)
                && SeenSince(history, |old(history)|, p.decisionId, r.value)
      ensures r.Err? ==> RaiseRefused(journal.streams, p, r.error)
    {
      hide Run, Project, RunBinding, ProjectReservation, CreatedSince, SeenSince, Approvable;
      var ids := FreshIds();
      for attempt := 0 to ATTEMPTS
        invariant Valid() && old(history) <= history && StaleView(known, journal.streams)
      {
        ghost var past := history;
        var outcome := TryCreate(p, known, ids);
        if outcome.Some? {
          if outcome.value.Ok? {
            CreatedEarlier(history, |old(history)|, |past|, p);
            SeenStays(history, history, |past|, |old(history)|, p.decisionId, outcome.value.value);
          }
          return outcome.value;
        }
        Grew(known, past, history);
      }
      r := Err(RetriesExhausted);
    }

    /** One try: nothing when another client won and trying again may help. */
    method TryCreate(p: Packet, known: Streams, ids: seq<Id>) returns (r: Option<Result<View>>)
      requires Valid() && StaleView(known, journal.streams) && p.Material() && ValidPacket(p) && |ids| >= 6
      requires p.Exact? ==> Approvable(known, p)
      modifies this, journal
      ensures Valid() && old(history) <= history
      ensures r.Some? && r.value.Ok? ==>
                && r.value.value.decisionId == p.decisionId && CreatedSince(history, |old(history)|, p)
                && SeenSince(history, |old(history)|, p.decisionId, r.value.value)
      ensures r.Some? && r.value.Err? ==> RaiseRefused(journal.streams, p, r.value.error)
    {
      hide Run, Project, IndexAfter, RunBinding, ProjectReservation, CreatedSince, SeenSince, Guard;
      var identity, indexEvents: seq<Event>;
      var view: Streams;
      identity, view := Learn(known, IdentityStream(p.attentionId));
      if identity != [] {
        return Some(Err(AlreadyReserved));
      }
      indexEvents, view := Learn(view, IndexStream(p.runId));
      var index := ProjectAttentionIndex(p.runId, indexEvents);
      if index.None? {
        return Some(Err(Contradiction));
      }
      if p.attentionId in index.value.known {
        return Some(Err(AlreadyKnown));
      }
      RaiseGuardHolds(view, p, ids);
      hide RaiseGuard, ValidPacket, Approvable;
      ghost var before := history;
      var outcome := TryRaise(view, RaiseMaterial(p, ids));
      if outcome == Appended {
        ghost var committed := history;
        var created := AfterCreation(p.decisionId);
        CreatedStays(committed, history, |before|, p);
        CreatedEarlier(history, |old(history)|, |before|, p);
        if created.Ok? {
          SeenStays(history, history, |committed|, |old(history)|, p.decisionId, created.value);
        }
        return Some(created);
      }
      var lost := WhyLost(p);
      r := if lost.Some? then Some(Err(lost.value)) else None;
    }

    method AfterCreation(d: Id) returns (r: Result<View>)
      requires Valid()
      modifies this, journal
      ensures Valid() && old(history) <= history
      ensures r.Ok? ==> r.value.decisionId == d && SeenSince(history, |old(history)|, d, r.value)
      ensures r.Err? ==> r.error == Contradiction
    {
      var found: Option<View>;
      var view: Streams;
      found, view := ReadDecision(map[], d);
      if found.Some? {
        SeenNow(history, |old(history)|, d, found.value);
      }
      r := if found.Some? then Ok(found.value) else Err(Contradiction);
    }

    /** After a refused creation: the reads that decide between giving up and trying again. */
    method WhyLost(p: Packet) returns (error: Option<Error>)
      requires Valid()
      modifies this, journal
      ensures Valid() && old(history) <= history
      ensures error.Some? ==> RaiseRefused(journal.streams, p, error.value)
    {
      hide Run, Inv, Project, ProjectReservation, StaleView, OnlyAttempt;
      NothingKnown(journal.streams);
      var events: seq<Event>;
      var view: Streams;
      events, view := Learn(map[], IdentityStream(p.attentionId));
      if events != [] {
        return Some(AlreadyReserved);
      }
      events, view := Learn(view, DecisionStream(p.decisionId));
      if events != [] {
        return Some(VersionConflict);
      }
      if p.Exact? {
        events, view := Learn(view, Reservation(p));
        var reserved := ProjectReservation(events);
        if reserved.Reserved? && reserved.view.decisionId != p.decisionId {
          var refusal := AppendAttempt(p.decisionId, p.runId, p.commandId, RESERVATIONS, AlreadyConsumed, p.evidence,
                                       ReservedByAnother);
          return Some(refusal);
        }
        if events != [] {
          return Some(VersionConflict);
        }
        events, view := Learn(view, RunStream(p.runId));
        if |events| != p.runStreamVersion {
          return Some(VersionConflict);
        }
      }
      error := None;
    }

    /** Advisory questions reserve their identity and their stream, nothing else; only a busy database
      * is tried again. */
    method CreateReservedAttention(p: Packet) returns (r: Result<View>)
      requires Valid() && !p.Material() && ValidPacket(p)
      modifies this, journal
      ensures Valid() && old(history) <= history
      ensures r.Ok? ==>
                && r.value.decisionId == p.decisionId && CreatedSince(history, |old(history)|, p)
                && SeenSince(history, |old(history)|, p.decisionId, r.value)
      ensures r.Err? ==> RaiseRefused(journal.streams, p, r.error)
    {
      hide Run, Project, CreatedSince, SeenSince, IndexAfter, RunBinding, ProjectReservation, ViewAt, StaleView;
      NothingKnown(journal.streams);
      var ids := FreshIds();
      var events: seq<Event>;
      var view, ignored: Streams;
      events, view := Learn(map[], IdentityStream(p.attentionId));
      if events != [] {
        return Err(AlreadyReserved);
      }
      for attempt := 0 to ATTEMPTS
        invariant Valid() && old(history) <= history && StaleView(view, journal.streams)
      {
        ghost var before := history;
        var outcome := TryRaise(view, RaiseAdvisory(p, ids));
        if outcome == Appended {
          ghost var committed := history;
          r := AfterCreation(p.decisionId);
          CreatedStays(committed, history, |before|, p);
          CreatedEarlier(history, |old(history)|, |before|, p);
          if r.Ok? {
            SeenStays(history, history, |committed|, |old(history)|, p.decisionId, r.value);
          }
          return;
        }
        NothingKnown(journal.streams);
        events, ignored := Learn(map[], IdentityStream(p.attentionId));
        if events != [] {
          return Err(AlreadyReserved);
        }
        if outcome != Busy {
          return Err(VersionConflict);
        }
        Grew(view, before, history);
      }
      r := Err(RetriesExhausted);
    }

    /** A question packet goes to the material or to the advisory path. */
    method RequestQuestion(p: Packet) returns (r: Result<View>)
      requires Valid() && p.Question?
      modifies this, journal
      ensures Valid() && old(history) <= history
      ensures r.Ok? ==>
                && ValidPacket(p) && r.value.decisionId == p.decisionId && CreatedSince(history, |old(history)|, p)
                && SeenSince(history, |old(history)|, p.decisionId, r.value)
      ensures r.Err? ==>
                || r.error == NotFound || (r.error == InvalidPacket && !ValidPacket(p))
                || RaiseRefused(journal.streams, p, r.error)
    {
      hide Run, Project, CreatedSince, SeenSince;
      var events: seq<Event>;
      var view: Streams;
      events, view := Learn(map[], RunStream(p.runId));
      if events == [] {
        return Err(NotFound);
      }
      if !ValidPacket(p) {
        return Err(InvalidPacket);
      }
      ghost var before := history;
      if p.material {
        r := CreateMaterialDecision(p, view);
      } else {
        r := CreateReservedAttention(p);
      }
      if r.Ok? {
        CreatedEarlier(history, |old(history)|, |before|, p);
        SeenStays(history, history, |before|, |old(history)|, p.decisionId, r.value);
      }
    }

    /** An approval request binds itself to the run's current request; a replay of the same decision
      * finds its reservation, a competing one is refused. */
    method RequestApproval(draft: Packet) returns (r: Result<View>, ghost p: Packet)
      requires Valid() && draft.Exact?
      modifies this, journal
      ensures Valid() && old(history) <= history
      ensures r.Ok? ==>
                && p.Exact? && r.value.decisionId == p.decisionId
                && SeenSince(history, |old(history)|, p.decisionId, r.value)
                && p == draft.(projectRevision := p.projectRevision, runStreamVersion := p.runStreamVersion,
                               approvalRequestEventId := p.approvalRequestEventId)
                && AwaitedSince(history, |old(history)|, p)
                && (CreatedSince(history, |old(history)|, p) || ReservedSince(history, |old(history)|, p))
    {
      hide Run, Project, CreatedSince, SeenSince, RunBinding, ProjectReservation;
      var events: seq<Event>;
      var view: Streams;
      p := draft;
      events, view := Learn(map[], RunStream(draft.runId));
      var binding := RunBinding(events);
      if binding.None? {
        return Err(NotAwaitingApproval), p;
      }
      if binding.value.planDigest != draft.planDigest || binding.value.envelopeDigest != draft.envelopeDigest {
        return Err(Mismatch), p;
      }
      var packet := draft.(projectRevision := binding.value.projectRevision,
                           runStreamVersion := binding.value.runStreamVersion,
                           approvalRequestEventId := binding.value.approvalRequestEventId);
      p := packet;
      assert Awaits(history, |history| - 1, p);
      ghost var awaited := history;
      if !ValidPacket(packet) {
        return Err(InvalidPacket), p;
      }
      r := Reserve(packet, view);
      AwaitedStays(awaited, history, |old(history)|, |old(history)|, p);
      if r.Ok? {
        SeenStays(history, history, |awaited|, |old(history)|, p.decisionId, r.value);
      }
      if r.Ok? && CreatedSince(history, |awaited|, p) {
        CreatedEarlier(history, |old(history)|, |awaited|, p);
      } else if r.Ok? {
        ReservedStays(history, history, |awaited|, |old(history)|, p);
      }
    }

    method Reserve(p: Packet, known: Streams) returns (r: Result<View>)
      requires Valid() && StaleView(known, journal.streams) && p.Exact? && ValidPacket(p)
      requires RunBinding(Read(known, RunStream(p.runId))).Some?
               && BindingMatches(p, RunBinding(Read(known, RunStream(p.runId))).value)
      modifies this, journal
      ensures Valid() && old(history) <= history
      ensures r.Ok? ==>
                && r.value.decisionId == p.decisionId && SeenSince(history, |old(history)|, p.decisionId, r.value)
                && (CreatedSince(history, |old(history)|, p) || ReservedSince(history, |old(history)|, p))
    {
      hide Run, Project, CreatedSince, SeenSince, RunBinding, ProjectReservation, OnlyAttempt;
      var events: seq<Event>;
      var view: Streams;
      events, view := Learn(known, Reservation(p));
      var reserved := ProjectReservation(events);
      if reserved.BadReservation? {
        return Err(Contradiction);
      }
      ghost var before := history;
      if reserved.Reserved? {
        if reserved.view.decisionId != p.decisionId || reserved.view.packet != p {
          var error := AppendAttempt(p.decisionId, p.runId, p.commandId, RESERVATIONS, AlreadyConsumed, p.evidence,
                                     ReservedByAnother);
          return Err(error);
        }
        assert Reserves(history, |history| - 1, p);
        r := GetDecision(p.decisionId);
        ReservedStays(before, history, |old(history)|, |old(history)|, p);
        if r.Ok? {
          SeenStays(history, history, |before|, |old(history)|, p.decisionId, r.value);
        }
        return;
      }
      UnreservedIsEmpty(events);
      r := CreateMaterialDecision(p, view);
      if r.Ok? {
        CreatedEarlier(history, |old(history)|, |before|, p);
        SeenStays(history, history, |before|, |old(history)|, p.decisionId, r.value);
      }
    }

    /** Leaves the audit record of a refused attempt, then refuses; a record with other content under the
      * same command is an error of its own. */
    method AppendAttempt(d: Id, runId: Id, commandId: Id, actor: Actor, cause: AttemptReason, evidence: Id,
                         refusal: Error)
      returns (error: Error)
      requires Valid()
      modifies this, journal
      ensures Valid() && old(history) <= history
      ensures error == refusal || error == CommandReused || error == RetriesExhausted
      ensures error == refusal ==>
                || refusal == CommandReused || refusal == RetriesExhausted
                || OnlyAttempt(journal.streams, Attempted(d, runId, commandId, actor, cause, evidence))
    {
      hide Run, Project;
      var record := Attempted(d, runId, commandId, actor, cause, evidence);
      for attempt := 0 to ATTEMPTS
        invariant Valid() && old(history) <= history
      {
        var events: seq<Event>;
        var view: Streams;
        events, view := Learn(map[], AttemptStream(d, commandId));
        if events != [] {
          return if |events| == 1 && events[0].payload == record then refusal else CommandReused;
        }
        var ids := FreshIds();
        var op := RecordAttempt(record, ids);
        var outcome := CommitStep(view, op, Plan(view, op));
        if outcome == Appended {
          AttemptRecorded(history, view, op);
          return refusal;
        }
      }
      error := RetriesExhausted;
    }

    // ---------- Admission ----------

    /** A scope is admitted only on an index revision at which nothing pending touches it; otherwise the
      * caller gets exactly the attention that blocks it at the moment the index was read. */
    method AdmitScope(runId: Id, admissionId: Id, scopeId: Id, dependencies: set<Id>, commandId: Id, evidence: Id)
      returns (r: Result<Admission>)
      requires Valid()
      modifies this, journal
      ensures Valid() && old(history) <= history
      ensures r.Ok? ==> AnsweredSince(history, |old(history)|, runId, admissionId, scopeId, dependencies, r.value)
      ensures r == Err(AdmissionConsumed) ==> EverAdmitted(Read(journal.streams, IndexStream(runId)), admissionId)
    {
      hide Run, Project, AdmittedSince, PausedSince;
      Interfere(); // the poll that precedes every admission: expiries and reconciliations
      for attempt := 0 to ATTEMPTS
        invariant Valid() && old(history) <= history
      {
        ghost var past := history;
        r := TryAdmit(runId, admissionId, scopeId, dependencies, commandId, evidence);
        if r.Ok? {
          AdmissionEarlier(history, |old(history)|, |past|, runId, admissionId, scopeId, dependencies, r.value);
        }
        if r != Err(VersionConflict) {
          return;
        }
      }
      r := Err(RetriesExhausted);
    }

    /** One try: a version conflict when another client moved the index in between. */
    method TryAdmit(runId: Id, admissionId: Id, scopeId: Id, dependencies: set<Id>, commandId: Id, evidence: Id)
      returns (r: Result<Admission>)
      requires Valid()
      modifies this, journal
      ensures Valid() && old(history) <= history
      ensures r.Ok? ==> AnsweredSince(history, |old(history)|, runId, admissionId, scopeId, dependencies, r.value)
      ensures r == Err(AdmissionConsumed) ==> EverAdmitted(Read(journal.streams, IndexStream(runId)), admissionId)
    {
      hide Run, Project, IndexAfter;
      var events: seq<Event>;
      var view: Streams;
      events, view := Learn(map[], IndexStream(runId));
      var index := ProjectAttentionIndex(runId, events);
      if index.None? {
        return Err(Contradiction);
      }
      if admissionId in index.value.admissions {
        IndexReplay(runId, events);
        return Err(AdmissionConsumed);
      }
      var blocking := Blockers(index.value.pending, {scopeId} + dependencies);
      if blocking != {} {
        assert Pauses(history, |history| - 1, runId, {scopeId} + dependencies, blocking);
        return Ok(Paused(blocking));
      }
      var ids := FreshIds();
      var op := Admit(runId, admissionId, scopeId, dependencies, commandId, evidence, ids);
      var writes := Plan(view, op);
      hide Guard, Plan, Step, Next, Pauses, AdmitsAt, StaleView;
      var outcome := CommitStep(view, op, writes);
      if outcome == Appended {
        StepAdmits(history, view, op);
        return Ok(Admitted(|events| + 1));
      }
      r := Err(if outcome == Busy then JournalBusy else VersionConflict);
    }

    // ---------- Deciding ----------

    /** Reads a known decision again; everything but its status, resolution and version is as before. */
    method Reread(current: View, known: Streams) returns (latest: View, view: Streams)
      requires Valid() && StaleView(known, journal.streams) && Knows(known, current)
      modifies this, journal
      ensures Valid() && old(history) <= history
      ensures StaleView(view, journal.streams) && Knows(view, latest)
      ensures ViewAt(journal.streams, current.decisionId) == Projected(latest)
      ensures Later(current, latest)
    {
      var found: Option<View>;
      assert Read(known, DecisionStream(current.decisionId)) <= Read(journal.streams,
                                                                     DecisionStream(current.decisionId));
      assert Read(known, DecisionStream(current.decisionId)) != [];
      found, view := ReadDecision(known, current.decisionId);
      latest := found.value;
      SameDecision(Read(known, DecisionStream(current.decisionId)), Read(view, DecisionStream(current.decisionId)));
    }

    /** The stale mark, retried while other clients win the commit and the decision is still pending. */
    method MarkApprovalStale(initial: View, known: Streams, plan: Id, envelope: Id, actor: Actor, commandId: Id,
                             evidence: Id)
      returns (r: Attempt)
      requires Valid() && StaleView(known, journal.streams) && Knows(known, initial) && initial.kind == ApprovalKind
      modifies this, journal
      ensures Valid() && old(history) <= history
      ensures r.Done? ==>
                && r.view.status != Pending && r.view.decisionId == initial.decisionId && r.view.kind == ApprovalKind
                && (r.view == initial || SeenSince(history, |old(history)|, initial.decisionId, r.view))
      ensures (r.Failing? ==> CommitError(r.error)) && r != Lost
    {
      hide Run, Project, ConsumedSince, SeenSince;
      var current, view := initial, known;
      for attempt := 0 to ATTEMPTS
        invariant Valid() && old(history) <= history && StaleView(view, journal.streams)
        invariant Knows(view, current) && current.kind == ApprovalKind && current.decisionId == initial.decisionId
        invariant current == initial || SeenSince(history, |old(history)|, initial.decisionId, current)
      {
        if current.status != Pending {
          return Done(current);
        }
        var ids := FreshIds();
        var op := Op.Resolve(current.decisionId,
                             ApprovalStale(current.decisionId, current.runId, plan, envelope, commandId, evidence),
                             Stale, Some(actor), evidence, ids);
        ghost var past := history;
        r := AppendResolution(current, op, view);
        if r != Lost {
          if r.Done? {
            assert r.view.status == Stale;
            SeenStays(history, history, |past|, |old(history)|, initial.decisionId, r.view);
          }
          return;
        }
        Grew(view, past, history);
        current, view := Reread(current, view);
        SeenNow(history, |old(history)|, initial.decisionId, current);
      }
      r := Failing(RetriesExhausted);
    }

    /** A pending approval stays pending only while its run awaits exactly this packet. */
    method ReconcileApproval(current: View, known: Streams) returns (r: Attempt)
      requires Valid() && StaleView(known, journal.streams) && Knows(known, current)
      modifies this, journal
      ensures Valid() && old(history) <= history
      ensures r.Done? ==>
                && r.view.decisionId == current.decisionId && r.view.kind == current.kind
                && (r.view == current || SeenSince(history, |old(history)|, current.decisionId, r.view))
      ensures (r.Failing? ==> CommitError(r.error) || r.error == NotFound) && r != Lost
      ensures r.Done? && r.view.status == Pending ==> r.view == current
      ensures r.Done? && current.kind == ApprovalKind && r.view.status == Pending ==>
                r.view == current && AwaitedSince(history, |old(history)|, current.packet.value)
    {
      hide Run, Project, RunBinding, SeenSince;
      if current.kind != ApprovalKind || current.status != Pending {
        return Done(current);
      }
      var events: seq<Event>;
      var view: Streams;
      events, view := Learn(known, RunStream(current.runId));
      ghost var past := history;
      var binding := RunBinding(events);
      if binding.Some? && BindingMatches(current.packet.value, binding.value) {
        assert Awaits(history, |history| - 1, current.packet.value);
        return Done(current);
      }
      if events == [] {
        return Failing(NotFound);
      }
      var observed := if binding.Some? then (binding.value.planDigest, binding.value.envelopeDigest)
        else ObservedDigests(events, current.packet.value);
      r := MarkApprovalStale(current, view, observed.0, observed.1, RECONCILER, RECONCILE,
                             current.packet.value.evidence);
      if r.Done? && r.view != current {
        SeenStays(history, history, |past|, |old(history)|, current.decisionId, r.view);
      }
    }

    /** Reads a decision; an approval is reported pending only if its run was, during this very call,
      * waiting for exactly its packet. */
    method GetDecision(d: Id) returns (r: Result<View>)
      requires Valid()
      modifies this, journal
      ensures Valid() && old(history) <= history
      ensures r.Ok? ==> r.value.decisionId == d && SeenSince(history, |old(history)|, d, r.value)
      ensures r.Ok? && r.value.kind == ApprovalKind && r.value.status == Pending ==>
                && r.value.packet.Some? && r.value.packet.value.Exact?
                && AwaitedSince(history, |old(history)|, r.value.packet.value)
    {
      hide Run, Project, RunBinding, AwaitedSince, SeenSince;
      var found: Option<View>;
      var view: Streams;
      found, view := ReadDecision(map[], d);
      if found.None? {
        return Err(NotFound);
      }
      ghost var before := history;
      SeenNow(history, |old(history)|, d, found.value);
      var attempt := ReconcileApproval(found.value, view);
      SeenStays(before, history, |old(history)|, |old(history)|, d, found.value);
      if attempt.Done? && attempt.view != found.value {
        SeenStays(history, history, |before|, |old(history)|, d, attempt.view);
      }
      if attempt.Done? && attempt.view.kind == ApprovalKind && attempt.view.status == Pending {
        AwaitedStays(history, history, |before|, |old(history)|, attempt.view.packet.value);
      }
      r := if attempt.Done? then Ok(attempt.view) else Err(AttemptError(attempt));
    }

    /** The loop every answer and rejection of a question runs: try, and on a lost race read again. */
    method Consume(initial: View, known: Streams, terminal: Payload, resolution: Status, submission: Submission)
      returns (r: Result<View>)
      requires Valid() && StaleView(known, journal.streams) && Knows(known, initial)
      requires terminal.DecisionAccepted? || terminal.DecisionRejected?
      modifies this, journal
      ensures Valid() && old(history) <= history
      ensures r.Ok? ==> r.value.status == resolution && Later(initial, r.value) && Decides(terminal, r.value)
                        && ConsumedSince(history, |old(history)|, initial.decisionId, terminal, resolution)
                        && SeenSince(history, |old(history)|, initial.decisionId, r.value)
      ensures r.Err? ==> CommitError(r.error) || r.error == CommandReused
    {
      hide Run, Project, ConsumedSince, SeenSince, Knows, StaleView, OnlyAttempt, IndexAfter, RunBinding;
      var current, view := initial, known;
      for attempt := 0 to ATTEMPTS
        invariant Valid() && old(history) <= history && StaleView(view, journal.streams)
        invariant Knows(view, current) && Later(initial, current)
      {
        var ids := FreshIds();
        var op := Op.Resolve(current.decisionId, terminal, resolution, Some(submission.actor), submission.evidence,
                             ids);
        ghost var past := history;
        var tried := AppendEither(current, op, view);
        if tried.Done? {
          ConsumedEarlier(history, |old(history)|, |past|, initial.decisionId, terminal, resolution);
          SeenStays(history, history, |past|, |old(history)|, initial.decisionId, tried.view);
          return Ok(tried.view);
        }
        if tried.Failing? {
          return Err(tried.error);
        }
        Grew(view, past, history);
        current, view := Reread(current, view);
        if current.status != Pending || attempt == ATTEMPTS - 1 {
          var error := AppendAttempt(current.decisionId, current.runId, submission.commandId, submission.actor,
                                        AlreadyConsumed, submission.evidence, AlreadyConsumedError);
          return Err(error);
        }
      }
      r := Err(RetriesExhausted);
    }

    /** The same loop for an exact acceptance: each try first replays the run with the ready event it
      * would append, and a lost race ends in a stale mark as soon as the run has moved. */
    method ConsumeApproval(initial: View, known: Streams, submission: Submission) returns (r: Result<View>)
      requires Valid() && StaleView(known, journal.streams) && Knows(known, initial) && initial.kind == ApprovalKind
      requires submission.runId == initial.runId
      modifies this, journal
      ensures Valid() && old(history) <= history
      ensures r.Ok? ==>
                r.value.status == Accepted && Later(initial, r.value)
                && Decides(Acceptance(initial.packet.value, submission), r.value)
                && ConsumedSince(history, |old(history)|, initial.decisionId,
                                 Acceptance(initial.packet.value, submission), Accepted)
                && SeenSince(history, |old(history)|, initial.decisionId, r.value)
      ensures r.Err? ==> !EarlyError(r.error) && r.error != VersionConflict
    {
      hide Run, Project, ConsumedSince, SeenSince, RunBinding, ReadyFits, OnlyAttempt, IndexAfter, ProjectReservation,
           StaleView, BindingMatches, Decides, ViewAt, Knows;
      KnownPacket(known, initial);
      var p := initial.packet.value;
      var decision, view := initial, known;
      for attempt := 0 to ATTEMPTS
        invariant Valid() && old(history) <= history && StaleView(view, journal.streams)
        invariant Knows(view, decision) && Later(initial, decision)
      {
        ghost var past := history;
        var tried := TryAccept(decision, view, submission);
        if tried.Done? {
          ConsumedEarlier(history, |old(history)|, |past|, initial.decisionId, Acceptance(p, submission), Accepted);
          SeenStays(history, history, |past|, |old(history)|, initial.decisionId, tried.view);
          return Ok(tried.view);
        }
        if tried.Failing? {
          return Err(tried.error);
        }
        Grew(view, past, history);
        decision, view := Reread(decision, view);
        if decision.status != Pending {
          var error := AppendAttempt(decision.decisionId, decision.runId, submission.commandId, submission.actor,
                                     AlreadyConsumed, submission.evidence, AlreadyConsumedError);
          return Err(error);
        }
        var run: seq<Event>;
        ghost var before := view;
        run, view := Learn(view, RunStream(p.runId));
        StillKnows(before, RunStream(p.runId), run, decision);
        if RunBinding(run).None? || !BindingMatches(p, RunBinding(run).value) {
          var error := StaleApproval(decision, view, run, submission);
          return Err(error);
        }
      }
      r := Err(RetriesExhausted);
    }

    method TryAccept(current: View, known: Streams, submission: Submission) returns (tried: Attempt)
      requires Valid() && StaleView(known, journal.streams) && Knows(known, current) && current.kind == ApprovalKind
      requires submission.runId == current.runId
      modifies this, journal
      ensures Valid() && old(history) <= history
      ensures tried.Done? ==>
                tried.view.status == Accepted && Later(current, tried.view)
                && Decides(Acceptance(current.packet.value, submission), tried.view)
                && ConsumedSince(history, |old(history)|, current.decisionId,
                                 Acceptance(current.packet.value, submission), Accepted)
                && SeenSince(history, |old(history)|, current.decisionId, tried.view)
      ensures tried.Failing? ==> CommitError(tried.error) || tried.error == NotAwaitingApproval
    {
      hide Run, Project, ConsumedSince, SeenSince, RunBinding, ReadyFits;
      var p := current.packet.value;
      var ids := FreshIds();
      var op := Op.Resolve(current.decisionId, Acceptance(p, submission), Accepted, Some(submission.actor),
                           submission.evidence, ids);
      var run, events: seq<Event>;
      var view, ignored: Streams;
      run, view := Learn(known, RunStream(p.runId));
      if !ReadyFits(run, p) {
        return Failing(NotAwaitingApproval);
      }
      ghost var past := history;
      events, ignored := Learn(view, DecisionStream(current.decisionId));
      var prospect := ProjectAttention(
        events + Stamp(DecisionStream(current.decisionId), current.streamVersion, TerminalEvents(current, op)));
      if !prospect.Projected? {
        return Failing(AlreadyConsumedError);
      }
      ghost var before := history;
      Grew(view, past, history);
      tried := AppendResolution(current, op, view);
      if tried.Done? {
        ConsumedEarlier(history, |old(history)|, |before|, current.decisionId, op.terminal, Accepted);
        SeenStays(history, history, |before|, |old(history)|, current.decisionId, tried.view);
      }
    }

    /** Records the attempt, then marks the approval stale. */
    method StaleApproval(current: View, known: Streams, run: seq<Event>, submission: Submission) returns (error: Error)
      requires Valid() && StaleView(known, journal.streams) && Knows(known, current) && current.kind == ApprovalKind
      modifies this, journal
      ensures Valid() && old(history) <= history
      ensures !EarlyError(error) && error != VersionConflict
    {
      hide Run, Project, OnlyAttempt, StaleView, Knows, SeenSince, ViewAt;
      KnownPacket(known, current);
      ghost var past := history;
      error := AppendAttempt(current.decisionId, current.runId, submission.commandId, submission.actor,
                             RunRevision, submission.evidence, StaleError);
      if error != StaleError {
        return;
      }
      Grew(known, past, history);
      var digests := if RunBinding(run).Some? then
          (RunBinding(run).value.planDigest, RunBinding(run).value.envelopeDigest)
        else ObservedDigests(run, current.packet.value);
      var marked := MarkApprovalStale(current, known, digests.0, digests.1, submission.actor, submission.commandId,
                                      submission.evidence);
      error := if marked.Done? then StaleError else AttemptError(marked);
    }

    method ConsumeApprovalRejection(current: View, known: Streams, reason: Id, submission: Submission)
      returns (r: Result<View>)
      requires Valid() && StaleView(known, journal.streams) && Knows(known, current) && current.kind == ApprovalKind
      modifies this, journal
      ensures Valid() && old(history) <= history
      ensures r.Ok? ==>
                r.value.status == Rejected && Later(current, r.value)
                && Decides(Refusal(current, reason, submission), r.value)
                && ConsumedSince(history, |old(history)|, current.decisionId, Refusal(current, reason, submission),
                                 Rejected)
                && SeenSince(history, |old(history)|, current.decisionId, r.value)
      ensures r.Err? ==> !EarlyError(r.error)
    {
      hide Run, Project, ConsumedSince, SeenSince, StaleView, Later, ViewAt;
      var ids := FreshIds();
      var op := Op.Resolve(current.decisionId, Refusal(current, reason, submission), Rejected, Some(submission.actor),
                           submission.evidence, ids);
      ghost var past := history;
      var tried := AppendResolution(current, op, known);
      if tried.Done? {
        return Ok(tried.view);
      }
      if tried != Lost {
        return Err(AttemptError(tried));
      }
      Grew(known, past, history);
      var error := LostRejection(current, known, submission);
      r := Err(error);
    }

    /** A rejection that lost the race: what has become of the decision. */
    method LostRejection(current: View, known: Streams, submission: Submission) returns (error: Error)
      requires Valid() && StaleView(known, journal.streams) && Knows(known, current) && current.kind == ApprovalKind
      modifies this, journal
      ensures Valid() && old(history) <= history
      ensures !EarlyError(error)
    {
      hide Run, Project, SeenSince, OnlyAttempt, StaleView, IndexAfter, RunBinding, BindingMatches, AwaitedSince,
           ViewAt;
      var latest, view := Reread(current, known);
      if latest.status != Pending {
        error := AppendAttempt(latest.decisionId, latest.runId, submission.commandId, submission.actor,
                               AlreadyConsumed, submission.evidence, AlreadyConsumedError);
        return;
      }
      var reconciled := ReconcileApproval(latest, view);
      if reconciled.Done? && reconciled.view.status == Stale {
        error := AppendAttempt(latest.decisionId, latest.runId, submission.commandId, submission.actor,
                               RunRevision, submission.evidence, StaleError);
        return;
      }
      error := VersionConflict;
    }

    /** Expires a decision at clock reading `now`; `fired` says that this call did it. */
    method Expire(d: Id, expectedVersion: nat, now: int) returns (r: Result<View>, ghost fired: bool)
      requires Valid()
      modifies this, journal
      ensures Valid() && old(history) <= history
      ensures r.Ok? ==>
                r.value.status == Expired && r.value.decisionId == d && SeenSince(history, |old(history)|, d, r.value)
      ensures fired ==>
                r.Ok? && r.value.expiry.At? && r.value.expiry.expiresAt <= now
                && ConsumedSince(history, |old(history)|, d,
                                 if r.value.kind == ApprovalKind then ApprovalExpired(d, r.value.runId, now, RECONCILE)
                                 else DecisionExpired(d, r.value.runId, now, RECONCILE), Expired)
      ensures r == Err(NotExpired) || r == Err(NeverExpires) ==>
                exists w :: SeenSince(history, |old(history)|, d, w) && Unexpired(w, now, r.error)
    {
      hide Run, Project, ConsumedSince, SeenSince;
      fired := false;
      var found: Option<View>;
      var view: Streams;
      found, view := ReadDecision(map[], d);
      if found.None? {
        return Err(NotFound), false;
      }
      var current := found.value;
      ghost var past := history;
      SeenNow(history, |old(history)|, d, current);
      if current.kind == ApprovalKind {
        var reconciled := ReconcileApproval(current, view);
        SeenStays(past, history, |old(history)|, |old(history)|, d, current);
        if !reconciled.Done? {
          return Err(AttemptError(reconciled)), false;
        }
        if reconciled.view.status == Stale {
          return Err(StaleError), false;
        }
        if reconciled.view != current {
          SeenStays(history, history, |past|, |old(history)|, d, reconciled.view);
          r := if expectedVersion != reconciled.view.streamVersion then Err(VersionConflict)
            else if reconciled.view.status == Expired then Ok(reconciled.view) else Err(AlreadyConsumedError);
          return;
        }
        Grew(view, past, history);
      }
      if expectedVersion != current.streamVersion {
        return Err(VersionConflict), false;
      }
      ghost var before := history;
      r, fired := ExpireOpen(current, view, now);
      SeenStays(before, history, |old(history)|, |old(history)|, d, current);
      if fired {
        ConsumedEarlier(history, |old(history)|, |before|, d, Expiration(r.value, now), Expired);
      }
      if r.Ok? && r.value != current {
        SeenStays(history, history, |before|, |old(history)|, d, r.value);
      } else if (r == Err(NotExpired) || r == Err(NeverExpires)) && !Unexpired(current, now, r.error) {
        ghost var w :| SeenSince(history, |before|, d, w) && Unexpired(w, now, r.error);
        SeenStays(history, history, |before|, |old(history)|, d, w);
      }
    }

    /** The retry loop: a lost race reads the decision again. */
    method ExpireOpen(initial: View, known: Streams, now: int) returns (r: Result<View>, ghost fired: bool)
      requires Valid() && StaleView(known, journal.streams) && Knows(known, initial)
      modifies this, journal
      ensures Valid() && old(history) <= history
      ensures r.Ok? ==>
                && r.value.status == Expired && r.value.decisionId == initial.decisionId
                && (r.value == initial || SeenSince(history, |old(history)|, initial.decisionId, r.value))
      ensures r == Err(NotExpired) || r == Err(NeverExpires) ==>
                || Unexpired(initial, now, r.error)
                || exists w :: SeenSince(history, |old(history)|, initial.decisionId, w) && Unexpired(w, now, r.error)
      ensures fired ==>
                r.Ok? && r.value.expiry.At? && r.value.expiry.expiresAt <= now
                && ConsumedSince(history, |old(history)|, initial.decisionId, Expiration(r.value, now), Expired)
    {
      hide Run, Project, ConsumedSince, SeenSince, Knows, StaleView;
      var current, view := initial, known;
      fired := false;
      for attempt := 0 to ATTEMPTS
        invariant Valid() && old(history) <= history && StaleView(view, journal.streams)
        invariant Knows(view, current) && current.decisionId == initial.decisionId && !fired
        invariant current == initial || SeenSince(history, |old(history)|, initial.decisionId, current)
      {
        if current.status == Expired {
          return Ok(current), false;
        }
        if current.status != Pending {
          return Err(AlreadyConsumedError), false;
        }
        if current.expiry.WaitForever? {
          return Err(NeverExpires), false;
        }
        if now < current.expiry.expiresAt {
          return Err(NotExpired), false;
        }
        ghost var past := history;
        var tried := TryExpire(current, view, now);
        if tried.Done? {
          ConsumedEarlier(history, |old(history)|, |past|, initial.decisionId, Expiration(current, now), Expired);
          SeenStays(history, history, |past|, |old(history)|, initial.decisionId, tried.view);
          return Ok(tried.view), true;
        }
        if tried != Lost {
          return Err(AttemptError(tried)), false;
        }
        Grew(view, past, history);
        current, view := Reread(current, view);
        SeenNow(history, |old(history)|, initial.decisionId, current);
      }
      r := Err(RetriesExhausted);
    }

    method TryExpire(current: View, view: Streams, now: int) returns (tried: Attempt)
      requires Valid() && StaleView(view, journal.streams) && Knows(view, current)
      modifies this, journal
      ensures Valid() && old(history) <= history
      ensures tried.Done? ==>
                tried.view.status == Expired && tried.view.decisionId == current.decisionId
                && tried.view.expiry == current.expiry && Expiration(tried.view, now) == Expiration(current, now)
                && ConsumedSince(history, |old(history)|, current.decisionId, Expiration(current, now), Expired)
                && SeenSince(history, |old(history)|, current.decisionId, tried.view)
      ensures tried.Failing? ==> CommitError(tried.error)
    {
      hide Run, Project, ConsumedSince, SeenSince;
      var ids := FreshIds();
      var op := Op.Resolve(current.decisionId, Expiration(current, now), Expired, None, current.packet.value.evidence,
                           ids);
      tried := AppendEither(current, op, view);
    }

    /** Whether a submission may consume the decision it names; refusals leave an audit record. */
    method ValidateSubmission(current: View, submission: Submission, now: int) returns (error: Option<Error>)
      requires Valid()
      modifies this, journal
      ensures Valid() && old(history) <= history
      ensures error.None? <==> MaySubmit(current, submission, now)
      ensures error.None? ==> history == old(history)
      ensures error.Some? ==>
                || error.value == SubmissionError(current, submission, now)
                || error.value in {CommandReused, RetriesExhausted}
    {
      hide Run, Project, OnlyAttempt;
      if submission.runId != current.runId {
        var refusal := AppendAttempt(current.decisionId, current.runId, submission.commandId, submission.actor,
                                      CrossRun, submission.evidence, WrongRun);
        return Some(refusal);
      }
      if current.status != Pending {
        var refusal := AppendAttempt(current.decisionId, current.runId, submission.commandId, submission.actor,
                                      AlreadyConsumed, submission.evidence, AlreadyConsumedError);
        return Some(refusal);
      }
      if current.expiry.At? && now >= current.expiry.expiresAt {
        var expired: Result<View>;
        ghost var fired: bool;
        expired, fired := Expire(current.decisionId, current.streamVersion, now);
        return Some(HasExpired);
      }
      if submission.expectedVersion != current.streamVersion {
        var refusal := AppendAttempt(current.decisionId, current.runId, submission.commandId, submission.actor,
                                      OptimisticVersion, submission.evidence, VersionConflict);
        return Some(refusal);
      }
      error := None;
    }

    /** The first reads of an answer or rejection: a pending approval is brought up to date first. */
    method Opened(d: Id, submission: Submission) returns (r: Result<View>, view: Streams)
      requires Valid()
      modifies this, journal
      ensures Valid() && old(history) <= history && StaleView(view, journal.streams)
      ensures r.Ok? ==>
                && r.value.decisionId == d && (r.value.status == Pending ==> Knows(view, r.value))
                && SeenSince(history, |old(history)|, d, r.value)
      ensures r.Ok? && r.value.kind == QuestionKind ==> Knows(view, r.value)
      ensures r.Err? ==> !EarlyError(r.error) && r.error != VersionConflict
    {
      hide Run, Project, OnlyAttempt, SeenSince, StaleView, AwaitedSince, Knows, ViewAt;
      NothingKnown(journal.streams);
      var found: Option<View>;
      found, view := ReadDecision(map[], d);
      if found.None? {
        return Err(NotFound), view;
      }
      var current := found.value;
      SeenNow(history, |old(history)|, d, current);
      if current.kind != ApprovalKind {
        return Ok(current), view;
      }
      ghost var past := history;
      var reconciled := ReconcileApproval(current, view);
      Grew(view, past, history);
      SeenStays(past, history, |old(history)|, |old(history)|, d, current);
      if reconciled.Done? && reconciled.view != current {
        SeenStays(history, history, |past|, |old(history)|, d, reconciled.view);
      }
      if !reconciled.Done? {
        return Err(AttemptError(reconciled)), view;
      }
      if reconciled.view.status == Stale {
        past := history;
        var error := AppendAttempt(current.decisionId, current.runId, submission.commandId, submission.actor,
                                   RunRevision, submission.evidence, StaleError);
        Grew(view, past, history);
        return Err(error), view;
      }
      r := Ok(reconciled.view);
    }

    /** Answers a question. Success means that this very answer is the event that consumed it. */
    method Answer(d: Id, optionId: Id, submission: Submission, now: int) returns (r: Result<View>)
      requires Valid()
      modifies this, journal
      ensures Valid() && old(history) <= history
      ensures r.Ok? ==>
                && r.value.status == Accepted && r.value.decisionId == d
                && r.value.resolution == Answered(optionId, submission.actor, submission.evidence)
                && r.value.packet.Some? && r.value.packet.value.Question? && optionId in r.value.packet.value.options
                && (r.value.material ==> submission.actor.kind == Operator)
                && (r.value.expiry.At? ==> now < r.value.expiry.expiresAt)
                && SeenSince(history, |old(history)|, d, r.value)
                && ConsumedSince(history, |old(history)|, d,
                                 DecisionAccepted(d, submission.runId, optionId, submission.actor, submission.commandId,
                                                  submission.evidence), Accepted)
      ensures r.Err? && (EarlyError(r.error) || r.error == VersionConflict) ==>
                exists w :: SeenSince(history, |old(history)|, d, w)
                            && AnswerRefused(w, optionId, submission, now, r.error)
    {
      hide Run, Project, ConsumedSince, SeenSince;
      var start, view := Opened(d, submission);
      if start.Err? {
        return start;
      }
      var current := start.value;
      if current.kind != QuestionKind {
        return Err(WrongKind);
      }
      if current.material && submission.actor.kind != Operator {
        return Err(OperatorRequired);
      }
      ghost var past := history;
      var invalid := ValidateSubmission(current, submission, now);
      SeenStays(past, history, |old(history)|, |old(history)|, d, current);
      if invalid.Some? {
        return Err(invalid.value);
      }
      if optionId !in current.packet.value.options {
        return Err(InvalidOption);
      }
      var terminal := DecisionAccepted(d, submission.runId, optionId, submission.actor, submission.commandId,
                                       submission.evidence);
      r := Consume(current, view, terminal, Accepted, submission);
      if r.Ok? {
        ConsumedEarlier(history, |old(history)|, |past|, d, terminal, Accepted);
        SeenStays(history, history, |past|, |old(history)|, d, r.value);
      }
    }

    /** Rejects a decision of either kind. */
    method Reject(d: Id, reason: Id, submission: Submission, now: int) returns (r: Result<View>)
      requires Valid()
      modifies this, journal
      ensures Valid() && old(history) <= history
      ensures r.Ok? ==>
                && r.value.status == Rejected && r.value.decisionId == d
                && r.value.resolution == AttentionModel.Refused(reason, submission.actor, submission.evidence)
                && (r.value.expiry.At? ==> now < r.value.expiry.expiresAt)
                && SeenSince(history, |old(history)|, d, r.value)
                && ConsumedSince(history, |old(history)|, d, Refusal(r.value, reason, submission), Rejected)
      ensures r.Err? && EarlyError(r.error) ==>
                exists w :: SeenSince(history, |old(history)|, d, w) && SubmissionRefused(w, submission, now, r.error)
    {
      hide Run, Project, ConsumedSince, SeenSince;
      var start, view := Opened(d, submission);
      if start.Err? {
        return start;
      }
      var current := start.value;
      ghost var past := history;
      var invalid := ValidateSubmission(current, submission, now);
      SeenStays(past, history, |old(history)|, |old(history)|, d, current);
      if invalid.Some? {
        return Err(invalid.value);
      }
      if current.kind == ApprovalKind {
        r := ConsumeApprovalRejection(current, view, reason, submission);
      } else {
        r := Consume(current, view, Refusal(current, reason, submission), Rejected, submission);
      }
      if r.Ok? {
        ConsumedEarlier(history, |old(history)|, |past|, d, Refusal(current, reason, submission), Rejected);
        SeenStays(history, history, |past|, |old(history)|, d, r.value);
      }
    }

    /** Accepts an approval. Success means: an operator, exactly the packet's digests, and this very
      * acceptance consumed the decision. */
    method AcceptApproval(d: Id, plan: Id, envelope: Id, submission: Submission, now: int) returns (r: Result<View>)
      requires Valid()
      modifies this, journal
      ensures Valid() && old(history) <= history
      ensures r.Ok? ==>
                && r.value.status == Accepted && r.value.decisionId == d && submission.actor.kind == Operator
                && r.value.packet.Some? && r.value.packet.value.Exact?
                && r.value.packet.value.planDigest == plan && r.value.packet.value.envelopeDigest == envelope
                && r.value.resolution == Approved(plan, envelope, submission.actor, submission.evidence)
                && (r.value.expiry.At? ==> now < r.value.expiry.expiresAt)
                && SeenSince(history, |old(history)|, d, r.value)
                && ConsumedSince(history, |old(history)|, d, Acceptance(r.value.packet.value, submission), Accepted)
      ensures r == Err(OperatorRequired) <==> submission.actor.kind != Operator
      ensures r.Err? && r.error != OperatorRequired && (EarlyError(r.error) || r.error == VersionConflict) ==>
                exists w :: SeenSince(history, |old(history)|, d, w)
                            && AcceptanceRefused(w, plan, envelope, submission, now, r.error)
    {
      hide Run, Project, ConsumedSince, SeenSince, RunBinding, OnlyAttempt, StaleView, BindingMatches, ViewAt;
      NothingKnown(journal.streams);
      if submission.actor.kind != Operator {
        return Err(OperatorRequired);
      }
      var found: Option<View>;
      var view: Streams;
      found, view := ReadDecision(map[], d);
      if found.None? {
        return Err(NotFound);
      }
      var current := found.value;
      SeenNow(history, |old(history)|, d, current);
      if current.kind != ApprovalKind {
        return Err(WrongKind);
      }
      ghost var before := history;
      var invalid := ValidateSubmission(current, submission, now);
      SeenStays(before, history, |old(history)|, |old(history)|, d, current);
      if invalid.Some? {
        return Err(invalid.value);
      }
      before := history;
      var p := current.packet.value;
      if plan != p.planDigest || envelope != p.envelopeDigest {
        var error := AppendAttempt(current.decisionId, current.runId, submission.commandId, submission.actor,
                                      PacketDigest, submission.evidence, Mismatch);
        SeenStays(before, history, |old(history)|, |old(history)|, d, current);
        return Err(error);
      }
      var run: seq<Event>;
      ghost var known := view;
      run, view := Learn(view, RunStream(current.runId));
      StillKnows(known, RunStream(current.runId), run, current);
      if RunBinding(run).None? || !BindingMatches(p, RunBinding(run).value) {
        var error := StaleApproval(current, view, run, submission);
        return Err(error);
      }
      ghost var past := history;
      r := ConsumeApproval(current, view, submission);
      if r.Ok? {
        ConsumedEarlier(history, |old(history)|, |past|, d, Acceptance(p, submission), Accepted);
        SeenStays(history, history, |past|, |old(history)|, d, r.value);
      }
    }
  }
}
