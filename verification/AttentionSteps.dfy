/** The commits the attention service can attempt, as a function of what the client has read.
  *
  * A client reads streams one by one while others commit, so everything it knows is a stale view.
  * A step checks its guard and plans its writes on that view; only the journal's version check runs
  * against the current store. */
module AttentionSteps {
  import opened EventJournal
  import opened AttentionModel

  /** The choices of one commit: its inputs and the fresh event identities it uses. */
  datatype Op =
    | RaiseMaterial(packet: Packet, ids: seq<Id>)
    | RaiseAdvisory(packet: Packet, ids: seq<Id>)
    | RaiseWarning(attentionId: Id, runId: Id, affected: set<Id>, dependent: set<Id>, evidence: Id, commandId: Id,
                   ids: seq<Id>)
    | Resolve(decisionId: Id, terminal: Payload, resolution: Status, resolver: Option<Actor>, evidence: Id,
              ids: seq<Id>)
    | ResolveWarning(attentionId: Id, resolver: Option<Actor>, commandId: Id, evidence: Id, ids: seq<Id>)
    | Admit(runId: Id, admissionId: Id, scopeId: Id, dependencies: set<Id>, commandId: Id, evidence: Id, ids: seq<Id>)
    | RecordAttempt(attempt: Payload, ids: seq<Id>)
    | Foreign(writes: Commit)

  function New(id: Id, payload: Payload, runId: Id): NewEvent<Payload> {
    NewEvent(id, payload, None, runId)
  }

  function CreationEvents(p: Packet, ids: seq<Id>): seq<NewEvent<Payload>>
    requires |ids| >= 6
  {
    if p.Exact? then [New(ids[0], ApprovalRequested(p), p.runId), New(ids[1], Raised(p), p.runId)]
    else [New(ids[0], QuestionnaireProposed(p), p.runId),
          New(ids[1], DecisionRequested(p.decisionId, p.runId, p.commandId), p.runId),
          New(ids[2], Raised(p), p.runId)]
  }

  function IdentityWrite(a: Id, runId: Id, kind: Kind, source: Source, owner: Option<Id>, creation: Id, commandId: Id,
                         id: Id): Write<StreamId, Payload>
  {
    Write(IdentityStream(a), 0,
          [NewEvent(id, IdentityReserved(a, runId, kind, source, owner, creation, commandId), Some(creation), runId)])
  }

  function PacketIdentity(p: Packet, ids: seq<Id>): Write<StreamId, Payload>
    requires |ids| >= 6
  {
    IdentityWrite(p.attentionId, p.runId, p.Kind(), p.Source(), Some(p.decisionId), ids[0], p.commandId, ids[3])
  }

  function Reservation(p: Packet): StreamId
    requires p.Exact?
  {
    ReservationStream(p.runId, p.approvalRequestEventId)
  }

  function ReserveEvent(p: Packet, ids: seq<Id>): NewEvent<Payload>
    requires p.Exact? && |ids| >= 6
  {
    New(ids[4], ApprovalReserved(p.runId, p.approvalRequestEventId, p.decisionId, p, p.commandId), p.runId)
  }

  function IndexRaiseEvent(p: Packet, ids: seq<Id>): NewEvent<Payload>
    requires |ids| >= 6
  {
    New(ids[5], IndexRaised(p.runId, p.attentionId, p.decisionId, p.affectedScopes, p.dependentScopes, p.commandId),
        p.runId)
  }

  function RaiseWrites(v: Streams, p: Packet, ids: seq<Id>): Commit
    requires |ids| >= 6
  {
    [PacketIdentity(p, ids)]
    + (if p.Exact? then
         [Write(RunStream(p.runId), p.runStreamVersion, []), Write(Reservation(p), 0, [ReserveEvent(p, ids)])]
       else [])
    + [Write(DecisionStream(p.decisionId), 0, CreationEvents(p, ids)),
       Write(IndexStream(p.runId), |Read(v, IndexStream(p.runId))|, [IndexRaiseEvent(p, ids)])]
  }

  predicate RaiseGuard(v: Streams, p: Packet) {
    && p.Material() && ValidPacket(p)
    && Read(v, IdentityStream(p.attentionId)) == []
    && IndexAfter(p.runId, Read(v, IndexStream(p.runId))).Some?
    && p.attentionId !in IndexAfter(p.runId, Read(v, IndexStream(p.runId))).value.known
    && (p.Exact? ==>
          && RunBinding(Read(v, RunStream(p.runId))).Some?
          && BindingMatches(p, RunBinding(Read(v, RunStream(p.runId))).value)
          && Read(v, Reservation(p)) == [])
  }

  function WarningRaised(op: Op): Payload
    requires op.RaiseWarning?
  {
    AttentionRaised(op.attentionId, op.attentionId, op.runId, AgentTrail, false, op.affected, op.dependent,
                    op.evidence, op.commandId)
  }

  function WarningResolved(w: View, op: Op): NewEvent<Payload>
    requires op.ResolveWarning? && |op.ids| >= 6
  {
    New(op.ids[0], AttentionResolved(w.attentionId, w.decisionId, w.runId, Resolved, op.commandId, op.evidence,
                                     op.resolver), w.runId)
  }

  // ---------- Consuming a decision ----------

  predicate IsTerminal(terminal: Payload) {
    || terminal.DecisionAccepted? || terminal.ApprovalAccepted? || terminal.DecisionRejected?
    || terminal.ApprovalRejected? || terminal.DecisionExpired? || terminal.ApprovalExpired? || terminal.ApprovalStale?
  }

  /** The decision event and the resolution that always travels with it. */
  function TerminalEvents(w: View, op: Op): seq<NewEvent<Payload>>
    requires op.Resolve? && IsTerminal(op.terminal) && |op.ids| >= 6
  {
    [New(op.ids[0], op.terminal, w.runId),
     New(op.ids[1], AttentionResolved(w.attentionId, w.decisionId, w.runId, op.resolution, op.terminal.commandId,
                                      op.evidence, op.resolver), w.runId)]
  }

  function ReadyEvent(p: Packet, op: Op): NewEvent<Payload>
    requires p.Exact? && op.Resolve? && op.terminal.ApprovalAccepted? && |op.ids| >= 6
  {
    NewEvent(op.ids[4], RunReady(op.terminal.commandId, p.planDigest, p.envelopeDigest, p.decisionId, op.ids[0],
                                 p.approvalRequestEventId, p), Some(op.ids[0]), p.runId)
  }

  function ConsumeEvent(p: Packet, op: Op): NewEvent<Payload>
    requires p.Exact? && op.Resolve? && IsTerminal(op.terminal) && |op.ids| >= 6
  {
    New(op.ids[2], ReservationConsumed(p.runId, p.approvalRequestEventId, p.decisionId, op.resolution,
                                       op.terminal.commandId), p.runId)
  }

  function IndexResolveEvent(w: View, op: Op): NewEvent<Payload>
    requires op.Resolve? && IsTerminal(op.terminal) && |op.ids| >= 6
  {
    New(op.ids[3], IndexResolved(w.runId, w.attentionId, w.decisionId, op.resolution, op.terminal.commandId), w.runId)
  }

  /** The run accepts `run.ready_for_execution` only right after the request it names. */
  predicate ReadyFits(run: seq<Event>, p: Packet)
    requires p.Exact?
  {
    && |run| == p.runStreamVersion
    && RunBinding(run).Some?
    && RunBinding(run).value.approvalRequestEventId == p.approvalRequestEventId
    && RunBinding(run).value.planDigest == p.planDigest
    && RunBinding(run).value.envelopeDigest == p.envelopeDigest
  }

  function ResolveWrites(v: Streams, w: View, op: Op): Commit
    requires op.Resolve? && IsTerminal(op.terminal) && |op.ids| >= 6
    requires w.packet.Some? && (w.kind == ApprovalKind <==> w.packet.value.Exact?)
    requires op.terminal.ApprovalAccepted? || op.terminal.ApprovalRejected? ==> w.kind == ApprovalKind
  {
    var p := w.packet.value;
    [Write(DecisionStream(w.decisionId), w.streamVersion, TerminalEvents(w, op))]
    + (if w.material && p.Exact? then [Write(Reservation(p), |Read(v, Reservation(p))|, [ConsumeEvent(p, op)])] else [])
    + (if w.material then
         [Write(IndexStream(w.runId), |Read(v, IndexStream(w.runId))|, [IndexResolveEvent(w, op)])] else [])
    + (if op.terminal.ApprovalAccepted? then [Write(RunStream(p.runId), p.runStreamVersion, [ReadyEvent(p, op)])]
       else if op.terminal.ApprovalRejected? then [Write(RunStream(p.runId), p.runStreamVersion, [])]
       else [])
  }

  predicate ResolveGuard(v: Streams, op: Op)
    requires op.Resolve?
  {
    var history := Read(v, DecisionStream(op.decisionId));
    && IsTerminal(op.terminal) && |op.ids| >= 6
    && Project(history).Projected?
    && var w := Project(history).view;
    && w.packet.Some? && (w.kind == ApprovalKind <==> w.packet.value.Exact?)
    && w.decisionId == op.decisionId && w.streamVersion == |history|
    && Project(history + Stamp(DecisionStream(op.decisionId), |history|, TerminalEvents(w, op))).Projected?
    && (w.material ==> IndexAfter(w.runId, Read(v, IndexStream(w.runId))).Some?)
    && (w.material ==> var index := IndexAfter(w.runId, Read(v, IndexStream(w.runId))).value;
          w.attentionId in index.pending && index.pending[w.attentionId].decisionId == op.decisionId)
    && (w.kind == ApprovalKind ==>
          var reserved := ProjectReservation(Read(v, Reservation(w.packet.value)));
          reserved.Reserved? && reserved.view.decisionId == op.decisionId
          && reserved.view.packet == w.packet.value && reserved.view.outcome.None?)
    && (op.terminal.ApprovalAccepted? || op.terminal.ApprovalRejected? ==> w.kind == ApprovalKind)
    && (op.terminal.ApprovalAccepted? ==> ReadyFits(Read(v, RunStream(w.packet.value.runId)), w.packet.value))
  }

  // ---------- Admission ----------

  /** The pending items of a run whose affected or dependent scopes meet the considered ones. */
  function Blockers(pending: map<Id, Item>, considered: set<Id>): set<Id> {
    set a | a in pending && (pending[a].affectedScopes + pending[a].dependentScopes) * considered != {}
  }

  function AdmitEvent(op: Op, revision: nat): NewEvent<Payload>
    requires op.Admit? && |op.ids| >= 6
  {
    New(op.ids[0], ScopeAdmitted(op.runId, op.admissionId, op.scopeId, op.dependencies, revision, op.evidence,
                                 op.commandId), op.runId)
  }

  predicate AdmitGuard(v: Streams, op: Op)
    requires op.Admit?
  {
    var index := IndexAfter(op.runId, Read(v, IndexStream(op.runId)));
    && index.Some?
    && op.admissionId !in index.value.admissions
    && Blockers(index.value.pending, {op.scopeId} + op.dependencies) == {}
  }

  // ---------- All operations ----------

  predicate Guard(v: Streams, op: Op) {
    match op
    case RaiseMaterial(p, ids) => |ids| >= 6 && RaiseGuard(v, p)
    case RaiseAdvisory(p, ids) =>
      |ids| >= 6 && p.Question? && !p.material && ValidPacket(p) && Read(v, IdentityStream(p.attentionId)) == []
    case RaiseWarning(a, _, _, _, _, _, ids) => |ids| >= 6 && Read(v, IdentityStream(a)) == []
    case Resolve(_, _, _, _, _, _) => ResolveGuard(v, op)
    case ResolveWarning(a, _, _, _, ids) =>
      && |ids| >= 6 && Project(Read(v, AdvisoryStream(a))).Projected?
      && var es, w := Read(v, AdvisoryStream(a)), Project(Read(v, AdvisoryStream(a))).view;
      && w.status == Pending && w.streamVersion == |es| && w.attentionId == a
      && Project(es + Stamp(AdvisoryStream(a), |es|, [WarningResolved(w, op)])).Projected?
    case Admit(_, _, _, _, _, _, ids) => |ids| >= 6 && AdmitGuard(v, op)
    case RecordAttempt(attempt, ids) => |ids| >= 6 && attempt.Attempted?
    // Other services: events of their own on run streams, pure version checks anywhere.
    case Foreign(writes) => forall i :: 0 <= i < |writes| ==> ForeignWrite(writes[i])
  }

  predicate ForeignWrite(w: Write<StreamId, Payload>) {
    w.events == [] || (w.stream.RunStream? && forall i :: 0 <= i < |w.events| ==> !w.events[i].payload.RunReady?)
  }

  function Plan(v: Streams, op: Op): Commit
    requires Guard(v, op)
  {
    match op
    case RaiseMaterial(p, ids) => RaiseWrites(v, p, ids)
    case RaiseAdvisory(p, ids) =>
      [PacketIdentity(p, ids), Write(DecisionStream(p.decisionId), 0, CreationEvents(p, ids))]
    case RaiseWarning(a, run, _, _, _, commandId, ids) =>
      [IdentityWrite(a, run, AdvisoryKind, AgentTrail, None, ids[0], commandId, ids[3]),
       Write(AdvisoryStream(a), 0, [New(ids[0], WarningRaised(op), run)])]
    case Resolve(d, _, _, _, _, _) => ResolveWrites(v, Project(Read(v, DecisionStream(d))).view, op)
    case ResolveWarning(a, _, _, _, _) =>
      var w := Project(Read(v, AdvisoryStream(a))).view;
      [Write(AdvisoryStream(a), w.streamVersion, [WarningResolved(w, op)])]
    case Admit(run, _, _, _, _, _, _) =>
      var revision := |Read(v, IndexStream(run))|;
      [Write(IndexStream(run), revision, [AdmitEvent(op, revision)])]
    case RecordAttempt(attempt, ids) =>
      [Write(AttemptStream(attempt.decisionId, attempt.commandId), 0, [New(ids[0], attempt, attempt.runId)])]
    case Foreign(writes) => writes
  }

  /** One commit: guard and plan on a stale view, version check on the current store. */
  ghost predicate Step(s: Streams, s': Streams, v: Streams, op: Op) {
    StaleView(v, s) && Guard(v, op) && Accepts(s, Plan(v, op)) && s' == Applied(s, Plan(v, op))
  }

  ghost predicate Next(s: Streams, s': Streams) {
    exists v, op :: Step(s, s', v, op)
  }

  /** A run of any length of any number of interleaved clients, from the empty journal. */
  ghost predicate Run(run: seq<Streams>) {
    && |run| > 0 && run[0] == map[]
    && forall i :: 0 < i < |run| ==> Next(run[i - 1], run[i])
  }
}
