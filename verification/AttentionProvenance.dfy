/** Where each event of a reachable journal comes from: what the streams of one decision say agrees, field by field. */
module AttentionProvenance {
  import opened EventJournal
  import opened AttentionModel
  import opened AttentionSteps
  import opened AttentionInvariant
  import opened AttentionRecord
  import opened AttentionRuns
  import History = AttentionHistory
  import Raise = AttentionRaise
  import Resolve = AttentionResolve

  /** The decision `es` opens with the packet `p`. */
  predicate Opened(es: seq<Event>, p: Packet) {
    es != [] && es[0].payload == if p.Exact? then ApprovalRequested(p) else QuestionnaireProposed(p)
  }

  /** The packet a decision opens with. */
  function PacketOf(es: seq<Event>): Option<Packet> {
    if es == [] then None
    else
      match es[0].payload
      case ApprovalRequested(p) => Some(p)
      case QuestionnaireProposed(p) => Some(p)
      case _ => None
  }

  /** What a deciding event makes of its decision. */
  function OutcomeOf(terminal: Payload): Option<Status> {
    match terminal
    case DecisionAccepted(_, _, _, _, _, _) => Some(Accepted)
    case ApprovalAccepted(_, _, _, _, _, _, _, _, _) => Some(Accepted)
    case DecisionRejected(_, _, _, _, _, _) => Some(Rejected)
    case ApprovalRejected(_, _, _, _, _, _) => Some(Rejected)
    case DecisionExpired(_, _, _, _) => Some(Expired)
    case ApprovalExpired(_, _, _, _) => Some(Expired)
    case ApprovalStale(_, _, _, _, _, _) => Some(Stale)
    case _ => None
  }

  /** The command `commandId` decided the decision `es`, with this outcome, and closed its attention with it. */
  predicate ConcludedAt(es: seq<Event>, j: nat, p: Packet, outcome: Status, commandId: Id) {
    && j + 1 < |es| && OutcomeOf(es[j].payload) == Some(outcome) && es[j].payload.decisionId == p.decisionId
    && es[j].payload.runId == p.runId && es[j].payload.commandId == commandId
    && es[j + 1].payload.AttentionResolved? && es[j + 1].payload.attentionId == p.attentionId
    && es[j + 1].payload.decisionId == p.decisionId && es[j + 1].payload.runId == p.runId
    && es[j + 1].payload.resolution == outcome && es[j + 1].payload.commandId == commandId
  }

  predicate Concluded(es: seq<Event>, outcome: Status, commandId: Id) {
    PacketOf(es).Some? && exists j :: 0 <= j < |es| && ConcludedAt(es, j, PacketOf(es).value, outcome, commandId)
  }

  /** The run awaited exactly this packet: its latest event at the packet's version was the request. */
  predicate Awaited(run: seq<Event>, p: Packet)
    requires p.Exact?
  {
    && 0 < p.runStreamVersion <= |run|
    && run[0].payload.RunAccepted? && run[0].payload.projectRevision == p.projectRevision
    && var request := run[p.runStreamVersion - 1];
    && request.eventId == p.approvalRequestEventId && request.payload.RunApprovalRequested?
    && request.payload.planDigest == p.planDigest && request.payload.envelopeDigest == p.envelopeDigest
  }

  /** The event the acceptance of `p` puts on its run. */
  function ReadyPayload(p: Packet, acceptance: Event): Payload
    requires p.Exact? && acceptance.payload.ApprovalAccepted?
  {
    RunReady(acceptance.payload.commandId, p.planDigest, p.envelopeDigest, p.decisionId, acceptance.eventId,
             p.approvalRequestEventId, p)
  }

  predicate MadeReady(run: seq<Event>, p: Packet, acceptance: Event)
    requires p.Exact? && acceptance.payload.ApprovalAccepted?
  {
    p.runStreamVersion < |run| && run[p.runStreamVersion].payload == ReadyPayload(p, acceptance)
  }

  predicate ReadiedBy(es: seq<Event>, i: nat, ready: Payload, r: Id, k: nat)
    requires ready.RunReady?
  {
    && i < |es| && es[i].payload.ApprovalAccepted? && ready.packet.Exact?
    && ready.packet.runId == r && ready.packet.runStreamVersion == k && PacketOf(es) == Some(ready.packet)
    && es[i].payload.packet == ready.packet && ready == ReadyPayload(ready.packet, es[i])
  }

  /** What the other streams of the journal hold for the `k`-th event of stream `x` to be there. */
  ghost predicate Justified(s: Streams, x: StreamId, k: nat)
    requires k < |Read(s, x)|
  {
    var e := Read(s, x)[k];
    match x
    case DecisionStream(_) => DecisionJustified(s, e)
    case IndexStream(r) => IndexJustified(s, r, k, e.payload)
    case ReservationStream(r, q) => ReservationJustified(s, r, q, e.payload)
    case IdentityStream(a) => IdentityJustified(s, a, e.payload)
    case RunStream(r) => RunJustified(s, r, k, e.payload)
    case _ => true
  }

  predicate DecisionJustified(s: Streams, e: Event) {
    match e.payload
    case ApprovalRequested(p) => p.Exact? && Awaited(Read(s, RunStream(p.runId)), p)
    case ApprovalAccepted(_, _, _, _, _, p, _, _, _) => p.Exact? && MadeReady(Read(s, RunStream(p.runId)), p, e)
    case _ => true
  }

  ghost predicate IndexJustified(s: Streams, r: Id, k: nat, payload: Payload) {
    match payload
    case IndexRaised(_, _, d, _, _, _) =>
      && PacketOf(Read(s, DecisionStream(d))).Some?
      && var p := PacketOf(Read(s, DecisionStream(d))).value;
      && p.Material() && p.runId == r && p.decisionId == d
      && payload == IndexRaised(r, p.attentionId, d, p.affectedScopes, p.dependentScopes, p.commandId)
    case IndexResolved(run, a, d, outcome, commandId) =>
      && run == r && Concluded(Read(s, DecisionStream(d)), outcome, commandId)
      && var p := PacketOf(Read(s, DecisionStream(d))).value;
      && p.Material() && p.runId == r && p.decisionId == d && p.attentionId == a
    case ScopeAdmitted(run, _, _, _, revision, _, _) => run == r && revision == k
    case _ => false
  }

  ghost predicate ReservationJustified(s: Streams, r: Id, q: Id, payload: Payload) {
    match payload
    case ApprovalReserved(_, _, d, p, _) =>
      && PacketOf(Read(s, DecisionStream(d))) == Some(p) && p.Exact?
      && payload == ApprovalReserved(r, q, d, p, p.commandId)
      && p.runId == r && p.approvalRequestEventId == q && p.decisionId == d
    case ReservationConsumed(run, request, d, outcome, commandId) =>
      && run == r && request == q && Concluded(Read(s, DecisionStream(d)), outcome, commandId)
      && var p := PacketOf(Read(s, DecisionStream(d))).value;
      && p.Exact? && p.runId == r && p.approvalRequestEventId == q && p.decisionId == d
    case _ => false
  }

  predicate IdentityJustified(s: Streams, a: Id, payload: Payload) {
    && payload.IdentityReserved?
    && match payload.owner
       case Some(d) =>
         var es := Read(s, DecisionStream(d));
         && PacketOf(es).Some?
         && var p := PacketOf(es).value;
         && p.attentionId == a && p.decisionId == d
         && payload == IdentityReserved(a, p.runId, if p.Exact? then ApprovalKind else QuestionKind,
                                        if p.Exact? then Approval else Questionnaire, Some(d), es[0].eventId,
                                        p.commandId)
       case None =>
         var es := Read(s, AdvisoryStream(a));
         && es != [] && es[0].payload.AttentionRaised?
         && payload == IdentityReserved(a, es[0].payload.runId, AdvisoryKind, AgentTrail, None, es[0].eventId,
                                        es[0].payload.commandId)
  }

  ghost predicate RunJustified(s: Streams, r: Id, k: nat, payload: Payload) {
    payload.RunReady? ==>
      exists i :: 0 <= i < |Read(s, DecisionStream(payload.approvalDecisionId))|
        && ReadiedBy(Read(s, DecisionStream(payload.approvalDecisionId)), i, payload, r, k)
  }

  // ---------- Journals only grow ----------

  lemma PacketStays(es: seq<Event>, longer: seq<Event>)
    requires es <= longer && PacketOf(es).Some?
    ensures PacketOf(longer) == PacketOf(es) && es[0] == longer[0]
  {
  }

  lemma ConcludedStays(es: seq<Event>, longer: seq<Event>, outcome: Status, commandId: Id)
    requires es <= longer && Concluded(es, outcome, commandId)
    ensures Concluded(longer, outcome, commandId)
  {
    PacketStays(es, longer);
    var j :| 0 <= j < |es| && ConcludedAt(es, j, PacketOf(es).value, outcome, commandId);
    assert ConcludedAt(longer, j, PacketOf(longer).value, outcome, commandId);
  }

  lemma JustifiedStays(s: Streams, s': Streams, x: StreamId, k: nat)
    requires StaleView(s, s') && k < |Read(s, x)| && Justified(s, x, k)
    ensures k < |Read(s', x)| && Read(s', x)[k] == Read(s, x)[k] && Justified(s', x, k)
  {
    assert Read(s, x) <= Read(s', x);
    var e := Read(s, x)[k];
    match x
    case DecisionStream(_) =>
      if e.payload.ApprovalRequested? || e.payload.ApprovalAccepted? {
        assert Read(s, RunStream(e.payload.packet.runId)) <= Read(s', RunStream(e.payload.packet.runId));
      }
    case IndexStream(r) => IndexJustifiedStays(s, s', r, k, e.payload);
    case ReservationStream(r, q) => ReservationJustifiedStays(s, s', r, q, e.payload);
    case IdentityStream(a) => IdentityJustifiedStays(s, s', a, e.payload);
    case RunStream(r) => RunJustifiedStays(s, s', r, k, e.payload);
    case _ =>
  }

  lemma IndexJustifiedStays(s: Streams, s': Streams, r: Id, k: nat, payload: Payload)
    requires StaleView(s, s') && IndexJustified(s, r, k, payload)
    ensures IndexJustified(s', r, k, payload)
  {
    if payload.IndexRaised? || payload.IndexResolved? {
      var es, longer := Read(s, DecisionStream(payload.decisionId)), Read(s', DecisionStream(payload.decisionId));
      assert es <= longer;
      PacketStays(es, longer);
      if payload.IndexResolved? {
        ConcludedStays(es, longer, payload.resolution, payload.commandId);
      }
    }
  }

  lemma ReservationJustifiedStays(s: Streams, s': Streams, r: Id, q: Id, payload: Payload)
    requires StaleView(s, s') && ReservationJustified(s, r, q, payload)
    ensures ReservationJustified(s', r, q, payload)
  {
    var es, longer := Read(s, DecisionStream(payload.decisionId)), Read(s', DecisionStream(payload.decisionId));
    assert es <= longer;
    PacketStays(es, longer);
    if payload.ReservationConsumed? {
      ConcludedStays(es, longer, payload.outcome, payload.commandId);
    }
  }

  lemma IdentityJustifiedStays(s: Streams, s': Streams, a: Id, payload: Payload)
    requires StaleView(s, s') && IdentityJustified(s, a, payload)
    ensures IdentityJustified(s', a, payload)
  {
    match payload.owner
    case Some(d) => assert Read(s, DecisionStream(d)) <= Read(s', DecisionStream(d));
    case None => assert Read(s, AdvisoryStream(a)) <= Read(s', AdvisoryStream(a));
  }

  lemma RunJustifiedStays(s: Streams, s': Streams, r: Id, k: nat, payload: Payload)
    requires StaleView(s, s') && RunJustified(s, r, k, payload)
    ensures RunJustified(s', r, k, payload)
  {
    if payload.RunReady? {
      var es := Read(s, DecisionStream(payload.approvalDecisionId));
      var longer := Read(s', DecisionStream(payload.approvalDecisionId));
      assert es <= longer;
      var i :| 0 <= i < |es| && ReadiedBy(es, i, payload, r, k);
      assert ReadiedBy(longer, i, payload, r, k);
    }
  }

  // ---------- What a commit adds ----------

  lemma RaiseJustifiesDecision(s: Streams, s': Streams, p: Packet, ids: seq<Id>, k: nat)
    requires |ids| >= 6 && Raise.Raises(s, s', p, ids) && Contiguous(s)
    requires k < |Read(s', DecisionStream(p.decisionId))|
    ensures Justified(s', DecisionStream(p.decisionId), k)
  {
    hide Project, IndexAfter;
    if p.Exact? {
      assert !Raise.RaiseTouches(p, RunStream(p.runId));
      var run := Read(s, RunStream(p.runId));
      assert run[|run| - 1].streamVersion == |run|;
    }
  }

  lemma RaiseJustifiesIndex(s: Streams, s': Streams, p: Packet, ids: seq<Id>, k: nat)
    requires |ids| >= 6 && Raise.Raises(s, s', p, ids) && p.Material()
    requires |Read(s, IndexStream(p.runId))| <= k < |Read(s', IndexStream(p.runId))|
    ensures Justified(s', IndexStream(p.runId), k)
  {
    hide Project, IndexAfter, RunBinding;
    assert PacketOf(Read(s', DecisionStream(p.decisionId))) == Some(p);
  }

  lemma RaiseJustifiesRest(s: Streams, s': Streams, p: Packet, ids: seq<Id>, x: StreamId, k: nat)
    requires |ids| >= 6 && Raise.Raises(s, s', p, ids) && k < |Read(s', x)|
    requires x == IdentityStream(p.attentionId) || (p.Exact? && x == Reservation(p))
    ensures Justified(s', x, k)
  {
    hide Project, IndexAfter, RunBinding;
    assert PacketOf(Read(s', DecisionStream(p.decisionId))) == Some(p);
  }

  lemma RaiseJustifies(s: Streams, s': Streams, p: Packet, ids: seq<Id>, x: StreamId, k: nat)
    requires |ids| >= 6 && Raise.Raises(s, s', p, ids) && Contiguous(s)
    requires |Read(s, x)| <= k < |Read(s', x)|
    ensures Justified(s', x, k)
  {
    assert Raise.RaiseTouches(p, x);
    hide Justified, Raise.Raises;
    if x == DecisionStream(p.decisionId) {
      RaiseJustifiesDecision(s, s', p, ids, k);
    } else if x == IndexStream(p.runId) {
      RaiseJustifiesIndex(s, s', p, ids, k);
    } else {
      RaiseJustifiesRest(s, s', p, ids, x, k);
    }
  }

  lemma QuietJustifies(s: Streams, s': Streams, x: StreamId, k: nat)
    requires Quiet(s, s') && |Read(s, x)| <= k < |Read(s', x)| && !x.IndexStream?
    ensures Justified(s', x, k)
  {
    hide Project, IndexAfter, IdentityOk, WarningOk, ProjectReservation, QuietIndex;
    if x.RunStream? {
      assert QuietRun(s, s', x.runId);
    }
  }

  lemma AdmissionJustifies(s: Streams, s': Streams, op: Op, k: nat)
    requires Admission(s, s', op)
    requires |Read(s, IndexStream(op.runId))| <= k < |Read(s', IndexStream(op.runId))|
    ensures Justified(s', IndexStream(op.runId), k)
  {
    hide AdmitGuard;
  }

  lemma {:induction false} JournalJustifies(s: Streams, s': Streams, op: Op, x: StreamId, k: nat)
    requires ActsAtomically(s, s', op) && Inv(s) && Inv(s') && |Read(s, x)| <= k < |Read(s', x)|
    ensures Justified(s', x, k)
  {
    hide Justified, Quiet, Raise.Raises, Resolve.Resolves, Project, IndexAfter, AdmitGuard;
    match op
    case RaiseMaterial(p, ids) => RaiseJustifies(s, s', p, ids, x, k);
    case RaiseAdvisory(p, ids) => RaiseJustifies(s, s', p, ids, x, k);
    case Resolve(d, _, _, _, _, _) => ResolveJustifies(s, s', ViewAt(s, d).view, op, x, k);
    case Admit(r, _, _, _, _, _, _) =>
      if x == IndexStream(r) {
        AdmissionJustifies(s, s', op, k);
      } else {
        QuietJustifies(s, s', x, k);
      }
    case _ => QuietJustifies(s, s', x, k);
  }

  /** What consuming a decision leaves on its own stream. */
  lemma ResolveConcludes(s: Streams, s': Streams, w: View, op: Op)
    requires Resolve.Resolves(s, s', w, op) && Inv(s)
    ensures var es := Read(s', DecisionStream(w.decisionId));
      && PacketOf(es) == w.packet && w.packet.Some? && w.packet.value.attentionId == w.attentionId
      && w.packet.value.runId == w.runId && w.packet.value.decisionId == w.decisionId
      && Concluded(es, op.resolution, op.terminal.commandId)
      && (op.terminal.ApprovalAccepted? ==> op.terminal.packet == w.packet.value)
  {
    var d := w.decisionId;
    var es, es' := Read(s, DecisionStream(d)), Read(s', DecisionStream(d));
    Resolve.ResolveMoves(s, s', w, op);
    assert DecisionOk(s, d);
    OpenPacket(es, w);
    OpenPacket(es', ViewAt(s', d).view);
    assert es'[|es|].payload == op.terminal;
    DecidedAs(es', |es|);
    hide Project, IndexAfter, ProjectReservation, ReadyFits;
    assert ConcludedAt(es', |es|, w.packet.value, op.resolution, op.terminal.commandId);
  }

  lemma OpenPacket(es: seq<Event>, w: View)
    requires Project(es) == Projected(w)
    ensures PacketOf(es) == w.packet
  {
    hide Project;
    ProjectionTells(es, w);
  }

  lemma ResolveJustifiesDecision(s: Streams, s': Streams, w: View, op: Op, k: nat)
    requires Resolve.Resolves(s, s', w, op) && Inv(s)
    requires |Read(s, DecisionStream(w.decisionId))| <= k < |Read(s', DecisionStream(w.decisionId))|
    ensures Justified(s', DecisionStream(w.decisionId), k)
  {
    ResolveConcludes(s, s', w, op);
    hide Project, IndexAfter, ProjectReservation, Inv, Concluded, RunBinding;
  }

  /** The closing events on the index and on the reservation, given what the decision's own stream holds. */
  lemma ClosingJustified(s': Streams, w: View, op: Op)
    requires op.Resolve? && IsTerminal(op.terminal) && |op.ids| >= 6 && w.packet.Some?
    requires var es, p := Read(s', DecisionStream(w.decisionId)), w.packet.value;
      PacketOf(es) == Some(p) && p.decisionId == w.decisionId && p.attentionId == w.attentionId && p.runId == w.runId
      && Concluded(es, op.resolution, op.terminal.commandId)
    ensures w.packet.value.Material() ==> forall k: nat :: IndexJustified(s', w.runId, k,
                                                                          IndexResolveEvent(w, op).payload)
    ensures w.packet.value.Exact? ==>
              var p := w.packet.value;
              ReservationJustified(s', p.runId, p.approvalRequestEventId, ConsumeEvent(p, op).payload)
  {
    hide Concluded;
  }

  lemma ResolveJustifiesIndex(s: Streams, s': Streams, w: View, op: Op, k: nat)
    requires Resolve.Resolves(s, s', w, op) && Inv(s) && w.material
    requires |Read(s, IndexStream(w.runId))| <= k < |Read(s', IndexStream(w.runId))|
    ensures Justified(s', IndexStream(w.runId), k)
  {
    ResolveConcludes(s, s', w, op);
    hide Project, IndexAfter, ProjectReservation, Inv, Concluded, ReadyFits;
    ClosingJustified(s', w, op);
    hide IndexJustified, PacketOf, IndexResolveEvent;
  }

  lemma ResolveJustifiesReservation(s: Streams, s': Streams, w: View, op: Op, k: nat)
    requires Resolve.Resolves(s, s', w, op) && Inv(s) && w.kind == ApprovalKind
    requires |Read(s, Reservation(w.packet.value))| <= k < |Read(s', Reservation(w.packet.value))|
    ensures Justified(s', Reservation(w.packet.value), k)
  {
    ResolveConcludes(s, s', w, op);
    hide Project, IndexAfter, ProjectReservation, Inv, Concluded, ReadyFits;
    ClosingJustified(s', w, op);
    hide ReservationJustified, PacketOf, ConsumeEvent;
  }

  lemma ResolveJustifiesRun(s: Streams, s': Streams, w: View, op: Op, k: nat)
    requires Resolve.Resolves(s, s', w, op) && Inv(s) && op.terminal.ApprovalAccepted?
    requires |Read(s, RunStream(w.packet.value.runId))| <= k < |Read(s', RunStream(w.packet.value.runId))|
    ensures Justified(s', RunStream(w.packet.value.runId), k)
  {
    ResolveConcludes(s, s', w, op);
    hide Project, IndexAfter, ProjectReservation, Inv, Concluded, ReadyFits;
    var es, ready := Read(s, DecisionStream(w.decisionId)), Read(s', RunStream(w.packet.value.runId))[k].payload;
    assert ReadiedBy(Read(s', DecisionStream(w.decisionId)), |es|, ready, w.packet.value.runId, k);
  }

  lemma ResolveJustifies(s: Streams, s': Streams, w: View, op: Op, x: StreamId, k: nat)
    requires Resolve.Resolves(s, s', w, op) && Inv(s) && |Read(s, x)| <= k < |Read(s', x)|
    ensures Justified(s', x, k)
  {
    assert Resolve.ResolveTouches(w, op, x);
    hide Project, IndexAfter, ProjectReservation, Inv, ReadyFits, Justified;
    match x
    case DecisionStream(_) => ResolveJustifiesDecision(s, s', w, op, k);
    case IndexStream(_) => ResolveJustifiesIndex(s, s', w, op, k);
    case ReservationStream(_, _) => ResolveJustifiesReservation(s, s', w, op, k);
    case RunStream(_) => ResolveJustifiesRun(s, s', w, op, k);
  }

  // ---------- Whole runs ----------

  /** Every event of every journal of every run agrees with the streams it speaks of. */
  lemma {:induction false} RunDocumented(run: seq<Streams>, i: nat, x: StreamId, k: nat)
    requires Run(run) && i < |run| && k < |Read(run[i], x)|
    ensures Justified(run[i], x, k)
  {
    hide Justified, Inv, Step;
    if i > 0 {
      assert Next(run[i - 1], run[i]);
      var v, op :| Step(run[i - 1], run[i], v, op);
      RunInvariant(run, i - 1);
      RunInvariant(run, i);
      if k < |Read(run[i - 1], x)| {
        RunDocumented(run, i - 1, x, k);
        History.NextGrows(run[i - 1], run[i]);
        JustifiedStays(run[i - 1], run[i], x, k);
      } else {
        StepActsAtomically(run[i - 1], run[i], v, op);
        JournalJustifies(run[i - 1], run[i], op, x, k);
      }
    }
  }
}
