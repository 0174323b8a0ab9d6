/** What every commit keeps, for every run of interleaved clients. */
module AttentionInvariant {
  import opened EventJournal
  import opened AttentionModel
  import opened AttentionSteps

  // ---------- Projections grow by snoc ----------

  predicate WellOpened(o: Opening) {
    && o.raised.AttentionRaised?
    && (o.packet.Some? <==> o.kind != AdvisoryKind)
    && (o.packet.Some? ==> o.packet.value.Exact? == (o.kind == ApprovalKind))
  }

  lemma {:induction false} AfterPrefix(o: Opening, es: seq<Event>, tail: seq<Event>, n: nat)
    requires WellOpened(o) && o.length <= n <= |es|
    ensures After(o, es + tail, n) == After(o, es, n)
  {
    if n > o.length {
      AfterPrefix(o, es, tail, n - 1);
    }
  }

  /** An opening, once read, is not changed by what follows. */
  lemma OpenPrefix(es: seq<Event>, tail: seq<Event>)
    requires |es| > 0 && Open(es).Some?
    ensures Open(es + tail) == Open(es)
  {
    assert (es + tail)[0] == es[0];
    if |es| > 1 { assert (es + tail)[1] == es[1]; }
    if |es| > 2 { assert (es + tail)[2] == es[2]; }
  }

  /** Consuming a decision: the replay accepts a terminal event and its resolution only on a pending
    * decision, keeps everything else of the view, and lands in the resolution it names. */
  lemma ConsumeProjection(es: seq<Event>, tail: seq<Event>, resolution: Status)
    requires Project(es).Projected? && Project(es + tail).Projected?
    requires |tail| == 2 && IsTerminal(tail[0].payload)
    requires tail[1].payload.AttentionResolved? && tail[1].payload.resolution == resolution
    requires Project(es).view.kind != AdvisoryKind
    ensures Project(es).view.status == Pending && resolution != Pending
    ensures var w, w' := Project(es).view, Project(es + tail).view;
      w' == w.(status := resolution, resolution := w'.resolution, streamVersion := tail[1].streamVersion)
    ensures resolution == Accepted <==> tail[0].payload.DecisionAccepted? || tail[0].payload.ApprovalAccepted?
    ensures Project(es).view.kind == ApprovalKind <==>
            tail[0].payload.ApprovalAccepted? || tail[0].payload.ApprovalRejected? || tail[0].payload.ApprovalStale?
            || tail[0].payload.ApprovalExpired?
    ensures tail[0].payload.decisionId == Project(es).view.decisionId
    ensures tail[0].payload.ApprovalAccepted? ==> Project(es).view.packet == Some(tail[0].payload.packet)
    ensures resolution == Rejected <==> tail[0].payload.DecisionRejected? || tail[0].payload.ApprovalRejected?
  {
    OpenPrefix(es, tail);
    var o := Open(es).value;
    var all := es + tail;
    AfterPrefix(o, es, tail, |es|);
    assert all[|es|] == tail[0] && all[|es| + 1] == tail[1];
    var first := After(o, all, |es| + 1);
    assert After(o, all, |es| + 2) == Advance(o, first, tail[1]);
    assert first == Advance(o, After(o, all, |es|), tail[0]);
  }

  // ---------- The invariant, object by object ----------

  function ViewAt(s: Streams, d: Id): Projection {
    Project(Read(s, DecisionStream(d)))
  }

  function WarningAt(s: Streams, a: Id): Projection {
    Project(Read(s, AdvisoryStream(a)))
  }

  /** The decision a reserved attention identity belongs to. */
  function Owner(s: Streams, a: Id): Option<Id> {
    var es := Read(s, IdentityStream(a));
    if |es| > 0 && es[0].payload.IdentityReserved? then es[0].payload.owner else None
  }

  predicate IdentityTaken(s: Streams, a: Id) {
    Read(s, IdentityStream(a)) != []
  }

  /** Attention `a` was reserved for run `r`. */
  predicate ReservedIn(s: Streams, r: Id, a: Id) {
    var es := Read(s, IdentityStream(a));
    es != [] && es[0].payload.IdentityReserved? && es[0].payload.runId == r
  }

  /** Decision `d` replays, is about itself, and owns its attention identity. */
  predicate DecisionOk(s: Streams, d: Id) {
    match ViewAt(s, d)
    case Absent => true
    case Broken => false
    case Projected(w) =>
      && w.decisionId == d && w.kind != AdvisoryKind && w.streamVersion == |Read(s, DecisionStream(d))|
      && w.packet.Some? && w.packet.value.decisionId == d && w.packet.value.attentionId == w.attentionId
      && w.packet.value.runId == w.runId && w.packet.value.Exact? == (w.kind == ApprovalKind)
      && w.material == w.packet.value.Material()
      && w.affectedScopes == w.packet.value.affectedScopes && w.dependentScopes == w.packet.value.dependentScopes
      && IdentityTaken(s, w.attentionId) && Owner(s, w.attentionId) == Some(d)
  }

  predicate WarningOk(s: Streams, a: Id) {
    match WarningAt(s, a)
    case Absent => true
    case Broken => false
    case Projected(w) =>
      w.kind == AdvisoryKind && w.attentionId == a && w.streamVersion == |Read(s, AdvisoryStream(a))|
      && IdentityTaken(s, a) && Owner(s, a) == None
  }

  predicate IdentityOk(s: Streams, a: Id) {
    var es := Read(s, IdentityStream(a));
    es == [] || (ValidIdentity(es) && es[0].payload.attentionId == a
                 && (Owner(s, a).Some? ==>
                       ViewAt(s, Owner(s, a).value).Projected? && ViewAt(s, Owner(s, a).value).view.attentionId == a))
  }

  /** Attention `a` is an open material decision of run `r`. */
  predicate OpenMaterial(s: Streams, r: Id, a: Id) {
    && IdentityTaken(s, a) && Owner(s, a).Some?
    && ViewAt(s, Owner(s, a).value).Projected?
    && var w := ViewAt(s, Owner(s, a).value).view;
       w.material && w.runId == r && w.status == Pending && w.attentionId == a
  }

  function ItemOf(w: View): Item {
    Item(w.attentionId, w.decisionId, w.affectedScopes, w.dependentScopes)
  }

  /** The run index lists exactly the open material decisions of its run. */
  ghost predicate IndexOk(s: Streams, r: Id) {
    var index := IndexAfter(r, Read(s, IndexStream(r)));
    && index.Some?
    && (forall a :: a in index.value.known ==> ReservedIn(s, r, a))
    && (forall a :: a in index.value.pending <==> OpenMaterial(s, r, a))
    && (forall a :: a in index.value.pending ==>
          index.value.pending[a] == ItemOf(ViewAt(s, Owner(s, a).value).view))
  }

  /** A reservation names one approval decision and carries its outcome, and nothing else. */
  predicate ReservationOk(s: Streams, r: Id, q: Id) {
    match ProjectReservation(Read(s, ReservationStream(r, q)))
    case Unreserved => true
    case BadReservation => false
    case Reserved(view) =>
      && view.runId == r && view.approvalRequestEventId == q
      && view.streamVersion == |Read(s, ReservationStream(r, q))|
      && ViewAt(s, view.decisionId).Projected?
      && var w := ViewAt(s, view.decisionId).view;
         w.packet == Some(view.packet) && view.packet.Exact? && view.packet.runId == r
         && view.packet.approvalRequestEventId == q
         && view.outcome == (if w.status == Pending then None else Some(w.status))
  }

  /** Every approval decision holds the reservation of its own request. */
  predicate ApprovalReservedOk(s: Streams, d: Id) {
    ViewAt(s, d).Projected? && ViewAt(s, d).view.packet.Some? && ViewAt(s, d).view.packet.value.Exact? ==>
      var p := ViewAt(s, d).view.packet.value;
      ProjectReservation(Read(s, Reservation(p))).Reserved?
      && ProjectReservation(Read(s, Reservation(p))).view.decisionId == d
  }

  /** The run event at the packet's version plus one makes the run ready for exactly this acceptance. */
  predicate ReadyFor(run: seq<Event>, p: Packet, acceptance: Event)
    requires p.Exact?
  {
    && p.runStreamVersion < |run|
    && var ready := run[p.runStreamVersion];
       ready.payload.RunReady? && ready.streamVersion == p.runStreamVersion + 1
       && ready.causationId == Some(acceptance.eventId)
       && ready.payload.approvalDecisionEventId == acceptance.eventId
       && ready.payload.approvalDecisionId == p.decisionId
       && ready.payload.approvalRequestEventId == p.approvalRequestEventId
       && ready.payload.packet == p
  }

  ghost predicate AcceptanceOk(s: Streams, d: Id) {
    forall i :: 0 <= i < |Read(s, DecisionStream(d))| && Read(s, DecisionStream(d))[i].payload.ApprovalAccepted? ==>
      var acceptance := Read(s, DecisionStream(d))[i];
      acceptance.payload.packet.Exact? && acceptance.payload.packet.decisionId == d
      && ReadyFor(Read(s, RunStream(acceptance.payload.packet.runId)), acceptance.payload.packet, acceptance)
  }

  /** The converse: a run is only ever made ready by an accepted approval. */
  predicate AcceptedAs(decision: seq<Event>, ready: Event, r: Id, j: nat)
    requires ready.payload.RunReady?
  {
    exists i :: 0 <= i < |decision| && decision[i].payload.ApprovalAccepted?
      && decision[i].eventId == ready.payload.approvalDecisionEventId
      && decision[i].payload.packet == ready.payload.packet && ready.payload.packet.Exact?
      && ready.payload.packet.runId == r && ready.payload.packet.runStreamVersion == j
  }

  ghost predicate ReadyOk(s: Streams, r: Id) {
    forall j :: 0 <= j < |Read(s, RunStream(r))| && Read(s, RunStream(r))[j].payload.RunReady? ==>
      var ready := Read(s, RunStream(r))[j];
      AcceptedAs(Read(s, DecisionStream(ready.payload.approvalDecisionId)), ready, r, j)
  }

  ghost predicate Inv(s: Streams) {
    && Contiguous(s)
    && (forall d :: DecisionOk(s, d))
    && (forall a :: WarningOk(s, a))
    && (forall a :: IdentityOk(s, a))
    && (forall r :: IndexOk(s, r))
    && (forall r, q :: ReservationOk(s, r, q))
    && (forall d :: ApprovalReservedOk(s, d))
    && (forall d :: AcceptanceOk(s, d))
    && (forall r :: ReadyOk(s, r))
  }

  // ---------- Commits, stream by stream ----------

  /** The effect of an accepted commit, read by read. */
  ghost predicate Committed(s: Streams, s': Streams, ws: Commit) {
    && (forall w :: w in ws ==>
          Read(s', w.stream) == Read(s, w.stream) + Stamp(w.stream, |Read(s, w.stream)|, w.events))
    && (forall x :: Named(ws, x) || Read(s', x) == Read(s, x))
  }

  predicate Named(ws: Commit, x: StreamId) {
    exists w :: w in ws && w.stream == x
  }

  lemma CommitEffect(s: Streams, ws: Commit)
    requires Accepts(s, ws)
    ensures Committed(s, Applied(s, ws), ws)
  {
    var s' := Applied(s, ws);
    forall w | w in ws
      ensures Read(s', w.stream) == Read(s, w.stream) + Stamp(w.stream, |Read(s, w.stream)|, w.events)
    {
      var k :| 0 <= k < |ws| && ws[k] == w;
      ExtendedStream(s, ws, k);
    }
    forall x ensures Named(ws, x) || Read(s', x) == Read(s, x) {
      if WritesTo(ws, x) {
        var k :| 0 <= k < |ws| && ws[k].stream == x;
        assert ws[k] in ws;
      } else {
        UntouchedStream(s, ws, x);
      }
    }
  }

  /** A write planned at the length the client saw makes its view of that stream current. */
  lemma Current(v: Streams, s: Streams, ws: Commit, w: Write<StreamId, Payload>)
    requires StaleView(v, s) && Accepts(s, ws) && w in ws && w.expectedVersion == |Read(v, w.stream)|
    ensures Read(v, w.stream) == Read(s, w.stream)
  {
    var k :| 0 <= k < |ws| && ws[k] == w;
    AcceptedViewIsCurrent(v, s, ws, k);
  }
}
