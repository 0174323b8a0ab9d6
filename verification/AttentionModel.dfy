/** Packets, events and the strict projections of the attention protocol. */
module AttentionModel {
  import opened EventJournal

  datatype StreamId =
    | DecisionStream(decisionId: Id)
    | AdvisoryStream(attentionId: Id)
    | IndexStream(runId: Id)
    | ReservationStream(runId: Id, approvalRequestEventId: Id)
    | IdentityStream(attentionId: Id)
    | AttemptStream(decisionId: Id, commandId: Id)
    | RunStream(runId: Id)

  datatype ActorKind = Operator | Service
  datatype Actor = Actor(actorId: Id, kind: ActorKind)
  datatype Expiry = WaitForever | At(expiresAt: int)
  datatype Kind = QuestionKind | ApprovalKind | AdvisoryKind
  datatype Source = Questionnaire | Approval | AgentTrail
  datatype Status = Pending | Accepted | Rejected | Expired | Stale | Resolved
  datatype AttemptReason = AlreadyConsumed | OptimisticVersion | PacketDigest | CrossRun | RunRevision

  /** Canonical (sorted, duplicate-free) scope arrays are sets.  A packet stands for its own digest. */
  datatype Packet =
    | Question(decisionId: Id, attentionId: Id, runId: Id, options: seq<Id>, recommendation: Option<Id>,
               affectedScopes: set<Id>, dependentScopes: set<Id>, material: bool, expiry: Expiry,
               evidence: Id, commandId: Id)
    | Exact(decisionId: Id, attentionId: Id, runId: Id, projectRevision: Id, runStreamVersion: nat,
            approvalRequestEventId: Id, planDigest: Id, envelopeDigest: Id,
            affectedScopes: set<Id>, dependentScopes: set<Id>, expiry: Expiry, evidence: Id, commandId: Id)
  {
    predicate Material() { Exact? || material }
    function Kind(): Kind { if Exact? then ApprovalKind else QuestionKind }
    function Source(): Source { if Exact? then Approval else Questionnaire }
  }

  predicate ValidPacket(p: Packet) {
    if p.Question? then
      && |p.options| > 0
      && (forall i, j :: 0 <= i < j < |p.options| ==> p.options[i] != p.options[j])
      && (p.recommendation.Some? ==> p.recommendation.value in p.options)
    else
      p.expiry.At? && p.runStreamVersion > 0
  }

  datatype Payload =
    | QuestionnaireProposed(packet: Packet)
    | DecisionRequested(decisionId: Id, runId: Id, commandId: Id)
    | ApprovalRequested(packet: Packet)
    | AttentionRaised(attentionId: Id, decisionId: Id, runId: Id, source: Source, material: bool,
                      affectedScopes: set<Id>, dependentScopes: set<Id>, evidence: Id, commandId: Id)
    | DecisionAccepted(decisionId: Id, runId: Id, optionId: Id, actor: Actor, commandId: Id, evidence: Id)
    | ApprovalAccepted(decisionId: Id, runId: Id, planDigest: Id, envelopeDigest: Id, approvalRequestEventId: Id,
                       packet: Packet, actor: Actor, commandId: Id, evidence: Id)
    | DecisionRejected(decisionId: Id, runId: Id, reason: Id, actor: Actor, commandId: Id, evidence: Id)
    | ApprovalRejected(decisionId: Id, runId: Id, reason: Id, actor: Actor, commandId: Id, evidence: Id)
    | DecisionExpired(decisionId: Id, runId: Id, expiredAt: int, commandId: Id)
    | ApprovalExpired(decisionId: Id, runId: Id, expiredAt: int, commandId: Id)
    | ApprovalStale(decisionId: Id, runId: Id, currentPlanDigest: Id, currentEnvelopeDigest: Id, commandId: Id,
                    evidence: Id)
    | AttentionResolved(attentionId: Id, decisionId: Id, runId: Id, resolution: Status, commandId: Id, evidence: Id,
                        resolver: Option<Actor>)
    | IndexRaised(runId: Id, attentionId: Id, decisionId: Id, affectedScopes: set<Id>, dependentScopes: set<Id>,
                  commandId: Id)
    | IndexResolved(runId: Id, attentionId: Id, decisionId: Id, resolution: Status, commandId: Id)
    | ScopeAdmitted(runId: Id, admissionId: Id, scopeId: Id, dependencies: set<Id>, attentionRevision: nat,
                    evidence: Id, commandId: Id)
    | ApprovalReserved(runId: Id, approvalRequestEventId: Id, decisionId: Id, packet: Packet, commandId: Id)
    | ReservationConsumed(runId: Id, approvalRequestEventId: Id, decisionId: Id, outcome: Status, commandId: Id)
    | IdentityReserved(attentionId: Id, runId: Id, kind: Kind, source: Source, owner: Option<Id>,
                       creationEventId: Id, commandId: Id)
    | Attempted(decisionId: Id, runId: Id, commandId: Id, actor: Actor, cause: AttemptReason, evidence: Id)
    | RunAccepted(runId: Id, projectRevision: Id)
    | RunApprovalRequested(planDigest: Id, envelopeDigest: Id, commandId: Id)
    | RunReady(commandId: Id, planDigest: Id, envelopeDigest: Id, approvalDecisionId: Id,
               approvalDecisionEventId: Id, approvalRequestEventId: Id, packet: Packet)
    | RunOther(tag: Id)

  type Event = StoredEvent<StreamId, Payload>
  type Streams = Store<StreamId, Payload>
  type Commit = seq<Write<StreamId, Payload>>

  function Raised(p: Packet): Payload {
    AttentionRaised(p.attentionId, p.decisionId, p.runId, p.Source(), p.Material(),
                    p.affectedScopes, p.dependentScopes, p.evidence, p.commandId)
  }

  // ---------- Decision projection ----------

  datatype Resolution =
    | NoResolution
    | Answered(optionId: Id, actor: Actor, evidence: Id)
    | Refused(reason: Id, actor: Actor, evidence: Id)
    | Approved(planDigest: Id, envelopeDigest: Id, actor: Actor, evidence: Id)

  datatype View = View(kind: Kind, decisionId: Id, attentionId: Id, runId: Id, status: Status, streamVersion: nat,
                       expiry: Expiry, affectedScopes: set<Id>, dependentScopes: set<Id>, material: bool,
                       packet: Option<Packet>, resolution: Resolution)

  datatype Projection = Absent | Broken | Projected(view: View)

  /** What the events before the first decision say: the packet, if any, and the raise. */
  datatype Opening = Opening(kind: Kind, packet: Option<Packet>, raised: Payload, length: nat)

  function StreamOf(o: Opening): StreamId
    requires o.raised.AttentionRaised?
  {
    if o.kind == AdvisoryKind then AdvisoryStream(o.raised.attentionId) else DecisionStream(o.raised.decisionId)
  }

  predicate Bound(event: Event, stream: StreamId, version: nat, runId: Id) {
    event.streamId == stream && event.streamVersion == version && event.correlationId == runId
  }

  function Open(events: seq<Event>): (o: Option<Opening>)
    requires |events| > 0
    ensures o.Some? ==> o.value.raised.AttentionRaised? && 1 <= o.value.length <= |events|
    ensures o.Some? ==> (o.value.packet.Some? <==> o.value.kind != AdvisoryKind)
    ensures o.Some? && o.value.packet.Some? ==> o.value.packet.value.Exact? == (o.value.kind == ApprovalKind)
  {
    match events[0].payload
    case QuestionnaireProposed(p) =>
      if |events| < 3 || !events[1].payload.DecisionRequested? || !events[2].payload.AttentionRaised?
         || !p.Question? || !ValidPacket(p)
         || events[1].payload != DecisionRequested(p.decisionId, p.runId, p.commandId)
         || !RaisesPacket(events[2].payload, p)
      then None
      else Some(Opening(QuestionKind, Some(p), events[2].payload, 3))
    case ApprovalRequested(p) =>
      if |events| < 2 || !events[1].payload.AttentionRaised? || !p.Exact? || !ValidPacket(p)
         || !RaisesPacket(events[1].payload, p)
      then None
      else Some(Opening(ApprovalKind, Some(p), events[1].payload, 2))
    case AttentionRaised(_, _, _, source, material, _, _, _, _) =>
      if source != AgentTrail || material then None
      else Some(Opening(AdvisoryKind, None, events[0].payload, 1))
    case _ => None
  }

  /** The raise repeats its packet: identity, scopes, evidence, command, source and classification. */
  predicate RaisesPacket(raised: Payload, p: Packet)
    requires raised.AttentionRaised?
  {
    && raised.decisionId == p.decisionId && raised.attentionId == p.attentionId && raised.runId == p.runId
    && raised.source == p.Source() && raised.material == p.Material()
    && raised.affectedScopes == p.affectedScopes && raised.dependentScopes == p.dependentScopes
    && raised.evidence == p.evidence && raised.commandId == p.commandId
  }

  datatype Progress = Failed | Reached(status: Status, resolution: Resolution)

  /** One event after the opening. */
  function Advance(o: Opening, progress: Progress, event: Event): Progress
    requires o.raised.AttentionRaised?
    requires o.packet.Some? <==> o.kind != AdvisoryKind
    requires o.packet.Some? ==> o.packet.value.Exact? == (o.kind == ApprovalKind)
  {
    if progress.Failed? then Failed else
    var pending := progress.status == Pending;
    var d, r := o.raised.decisionId, o.raised.runId;
    match event.payload
    case DecisionAccepted(decisionId, runId, optionId, actor, _, evidence) =>
      if o.kind != QuestionKind || !pending || decisionId != d || runId != r || optionId !in o.packet.value.options
      then Failed else Reached(Accepted, Answered(optionId, actor, evidence))
    case ApprovalAccepted(decisionId, runId, plan, envelope, request, packet, actor, _, evidence) =>
      if o.kind != ApprovalKind || !pending || decisionId != d || runId != r
         || plan != o.packet.value.planDigest || envelope != o.packet.value.envelopeDigest
         || request != o.packet.value.approvalRequestEventId || packet != o.packet.value
      then Failed else Reached(Accepted, Approved(plan, envelope, actor, evidence))
    case DecisionRejected(decisionId, runId, reason, actor, _, evidence) =>
      if o.kind != QuestionKind || !pending || decisionId != d || runId != r
      then Failed else Reached(Rejected, Refused(reason, actor, evidence))
    case ApprovalRejected(decisionId, runId, reason, actor, _, evidence) =>
      if o.kind != ApprovalKind || !pending || decisionId != d || runId != r
      then Failed else Reached(Rejected, Refused(reason, actor, evidence))
    case DecisionExpired(decisionId, runId, _, _) =>
      if o.kind != QuestionKind || !pending || decisionId != d || runId != r
      then Failed else progress.(status := Expired)
    case ApprovalExpired(decisionId, runId, _, _) =>
      if o.kind != ApprovalKind || !pending || decisionId != d || runId != r
      then Failed else progress.(status := Expired)
    case ApprovalStale(decisionId, runId, _, _, _, _) =>
      if o.kind != ApprovalKind || !pending || decisionId != d || runId != r
      then Failed else progress.(status := Stale)
    case AttentionResolved(attentionId, decisionId, runId, resolution, _, _, _) =>
      var status := if o.kind == AdvisoryKind then Resolved else progress.status;
      if status == Pending || attentionId != o.raised.attentionId || decisionId != d || runId != r
         || resolution != status
      then Failed else progress.(status := status)
    case _ => Failed
  }

  function After(o: Opening, events: seq<Event>, n: nat): Progress
    requires o.raised.AttentionRaised? && o.length <= n <= |events|
    requires o.packet.Some? <==> o.kind != AdvisoryKind
    requires o.packet.Some? ==> o.packet.value.Exact? == (o.kind == ApprovalKind)
    decreases n
  {
    if n == o.length then Reached(Pending, NoResolution)
    else if !Bound(events[n - 1], StreamOf(o), n, o.raised.runId) then Failed
    else Advance(o, After(o, events, n - 1), events[n - 1])
  }

  function ViewOf(o: Opening, status: Status, resolution: Resolution, version: nat): View
    requires o.raised.AttentionRaised?
  {
    View(o.kind, o.raised.decisionId, o.raised.attentionId, o.raised.runId, status, version,
         if o.packet.Some? then o.packet.value.expiry else WaitForever,
         o.raised.affectedScopes, o.raised.dependentScopes, o.raised.material, o.packet, resolution)
  }

  function Project(events: seq<Event>): Projection {
    if |events| == 0 then Absent else
    match Open(events)
    case None => Broken
    case Some(o) =>
      var progress := After(o, events, |events|);
      if progress.Failed? || exists i :: 0 <= i < o.length && !Bound(events[i], StreamOf(o), i + 1, o.raised.runId)
      then Broken
      else Projected(ViewOf(o, progress.status, progress.resolution, events[|events| - 1].streamVersion))
  }

  /** The replay as the program runs it: one pass over the tail, then the metadata of the opening. */
  method ProjectAttention(events: seq<Event>) returns (result: Projection)
    ensures result == Project(events)
  {
    if |events| == 0 {
      return Absent;
    }
    var opening := Open(events);
    if opening.None? {
      return Broken;
    }
    var o := opening.value;
    var status, resolution := Pending, NoResolution;
    for n := o.length to |events|
      invariant After(o, events, n) == Reached(status, resolution)
    {
      var step := if Bound(events[n], StreamOf(o), n + 1, o.raised.runId)
        then Advance(o, Reached(status, resolution), events[n]) else Failed;
      assert After(o, events, n + 1) == step;
      if step.Failed? {
        FailureSticks(o, events, n + 1, |events|);
        return Broken;
      }
      status, resolution := step.status, step.resolution;
    }
    for i := 0 to o.length
      invariant forall j :: 0 <= j < i ==> Bound(events[j], StreamOf(o), j + 1, o.raised.runId)
    {
      if !Bound(events[i], StreamOf(o), i + 1, o.raised.runId) {
        return Broken;
      }
    }
    result := Projected(ViewOf(o, status, resolution, events[|events| - 1].streamVersion));
  }

  lemma {:induction false} FailureSticks(o: Opening, events: seq<Event>, n: nat, m: nat)
    requires o.raised.AttentionRaised? && o.length <= n <= m <= |events|
    requires o.packet.Some? <==> o.kind != AdvisoryKind
    requires o.packet.Some? ==> o.packet.value.Exact? == (o.kind == ApprovalKind)
    requires After(o, events, n).Failed?
    ensures After(o, events, m).Failed?
    decreases m
  {
    if n < m {
      FailureSticks(o, events, n, m - 1);
    }
  }

  // ---------- Run index projection ----------

  datatype Item = Item(attentionId: Id, decisionId: Id, affectedScopes: set<Id>, dependentScopes: set<Id>)

  datatype IndexView = IndexView(pending: map<Id, Item>, admissions: set<Id>, known: set<Id>)

  const EmptyIndex := IndexView(map[], {}, {})

  /** The event at position `at` of the index of `runId`. */
  function AdvanceIndex(runId: Id, view: IndexView, event: Event, at: nat): Option<IndexView> {
    if !Bound(event, IndexStream(runId), at + 1, runId) then None else
    match event.payload
    case IndexRaised(run, a, d, affected, dependent, _) =>
      if run != runId || a in view.known then None
      else Some(view.(known := view.known + {a}, pending := view.pending[a := Item(a, d, affected, dependent)]))
    case IndexResolved(run, a, d, _, _) =>
      if run != runId || a !in view.pending || view.pending[a].decisionId != d then None
      else Some(view.(pending := view.pending - {a}))
    case ScopeAdmitted(run, admission, _, _, revision, _, _) =>
      if run != runId || revision != at || admission in view.admissions then None
      else Some(view.(admissions := view.admissions + {admission}))
    case _ => None
  }

  function IndexAfter(runId: Id, events: seq<Event>): Option<IndexView> {
    if |events| == 0 then Some(EmptyIndex) else
    var before := IndexAfter(runId, events[..|events| - 1]);
    if before.None? then None else AdvanceIndex(runId, before.value, events[|events| - 1], |events| - 1)
  }

  method ProjectAttentionIndex(runId: Id, events: seq<Event>) returns (result: Option<IndexView>)
    ensures result == IndexAfter(runId, events)
  {
    var view := EmptyIndex;
    for n := 0 to |events|
      invariant IndexAfter(runId, events[..n]) == Some(view)
    {
      var step := AdvanceIndex(runId, view, events[n], n);
      assert events[..n + 1][..n] == events[..n];
      assert IndexAfter(runId, events[..n + 1]) == step;
      if step.None? {
        BrokenIndexSticks(runId, events, n + 1);
        return None;
      }
      view := step.value;
    }
    assert events[..|events|] == events;
    result := Some(view);
  }

  lemma {:induction false} BrokenIndexSticks(runId: Id, events: seq<Event>, n: nat)
    requires n <= |events| && IndexAfter(runId, events[..n]).None?
    ensures IndexAfter(runId, events).None?
  {
    if n == |events| {
      assert events[..n] == events;
    } else {
      var front := events[..|events| - 1];
      assert front[..n] == events[..n];
      BrokenIndexSticks(runId, front, n);
    }
  }

  lemma IndexSnoc(runId: Id, events: seq<Event>, event: Event)
    ensures IndexAfter(runId, events + [event]) ==
            (if IndexAfter(runId, events).None? then None
             else AdvanceIndex(runId, IndexAfter(runId, events).value, event, |events|))
  {
    assert (events + [event])[..|events|] == events;
  }

  // ---------- Reservations and run bindings ----------

  datatype ReservationView = ReservationView(runId: Id, approvalRequestEventId: Id, decisionId: Id, packet: Packet,
                                             outcome: Option<Status>, streamVersion: nat)

  datatype ReservationProjection = Unreserved | BadReservation | Reserved(view: ReservationView)

  function ProjectReservation(events: seq<Event>): ReservationProjection {
    if |events| == 0 then Unreserved else
    var first := events[0];
    if !first.payload.ApprovalReserved? then BadReservation else
    var stream := ReservationStream(first.payload.runId, first.payload.approvalRequestEventId);
    if !Bound(first, stream, 1, first.payload.runId) || |events| > 2 then BadReservation
    else if |events| == 1 then
      Reserved(ReservationView(first.payload.runId, first.payload.approvalRequestEventId, first.payload.decisionId,
                               first.payload.packet, None, 1))
    else if !events[1].payload.ReservationConsumed? || !Bound(events[1], stream, 2, first.payload.runId)
       || events[1].payload.runId != first.payload.runId
       || events[1].payload.approvalRequestEventId != first.payload.approvalRequestEventId
       || events[1].payload.decisionId != first.payload.decisionId
    then BadReservation
    else Reserved(ReservationView(first.payload.runId, first.payload.approvalRequestEventId, first.payload.decisionId,
                                  first.payload.packet, Some(events[1].payload.outcome), 2))
  }

  /** The single event of an attention identity: who owns it. */
  predicate ValidIdentity(events: seq<Event>) {
    |events| == 1 && events[0].payload.IdentityReserved?
    && Bound(events[0], IdentityStream(events[0].payload.attentionId), 1, events[0].payload.runId)
    && events[0].causationId == Some(events[0].payload.creationEventId)
  }

  datatype Binding = Binding(runStreamVersion: nat, approvalRequestEventId: Id, projectRevision: Id,
                             planDigest: Id, envelopeDigest: Id)

  /** The run is exactly awaiting approval: its latest event is the approval request. */
  function RunBinding(events: seq<Event>): Option<Binding> {
    if |events| == 0 || !events[0].payload.RunAccepted? then None else
    var last := events[|events| - 1];
    if !last.payload.RunApprovalRequested? then None
    else Some(Binding(last.streamVersion, last.eventId, events[0].payload.projectRevision,
                      last.payload.planDigest, last.payload.envelopeDigest))
  }

  predicate BindingMatches(p: Packet, binding: Binding)
    requires p.Exact?
  {
    binding == Binding(p.runStreamVersion, p.approvalRequestEventId, p.projectRevision, p.planDigest, p.envelopeDigest)
  }
}
